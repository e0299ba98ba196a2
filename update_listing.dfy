/** The update-listing page (src/pages/UpdateListing.jsx): the same form state and
    handlers as the create page, a load step that fills the form from the stored
    listing, and a submit whose outcome differs on a rejection. Requests are not
    performed: their outcomes are inputs. */
module UpdateListing {
  import opened Options
  import opened ListingForm

  class UpdateListingPage {
    var files: seq<string>
    var formData: FormData
    var imageUploadError: Option<string>
    var uploading: bool
    var error: Option<string>
    var loading: bool

    constructor ()
      ensures formData == InitialForm && files == []
      ensures imageUploadError == None && !uploading && error == None && !loading
    {
      files := [];
      formData := InitialForm;
      imageUploadError := None;
      uploading := false;
      error := None;
      loading := false;
    }

    /** The effect that loads the listing being edited: the fetched object replaces the
        form wholesale, before and whatever its `success` field says (a rejection is
        only logged). A request that throws leaves the form as it was. */
    method Load(fetched: Option<FormData>)
      modifies this`formData
      ensures fetched.Some? ==> formData == fetched.value
      ensures fetched.None? ==> formData == old(formData)
    {
      if fetched.Some? {
        formData := fetched.value;
      }
    }

    /** The file input's selection. */
    method SelectFiles(chosen: seq<string>)
      modifies this`files
      ensures files == chosen
    {
      files := chosen;
    }

    /** `handleImageSubmit`, with `uploads[i]` the outcome of uploading `files[i]`. Past
        the guard, a complete batch is appended to the images in file order and a failed
        one leaves them as they were; refused by the guard (also when no file is chosen),
        nothing changes but the error. Nothing else on the form changes. */
    method HandleImageSubmit(uploads: seq<Option<string>>)
      requires |uploads| == |files|
      modifies this`formData, this`imageUploadError, this`uploading
      ensures !uploading
      ensures !UploadAllowed(|files|, |old(formData).imageUrls|) ==>
                formData == old(formData) && imageUploadError == Some(TooManyImagesError)
      ensures UploadAllowed(|files|, |old(formData).imageUrls|) && AllUploaded(uploads).Some? ==>
                && formData == old(formData).(imageUrls := old(formData).imageUrls + AllUploaded(uploads).value)
                && imageUploadError == None
      ensures UploadAllowed(|files|, |old(formData).imageUrls|) && AllUploaded(uploads).None? ==>
                formData == old(formData) && imageUploadError == Some(UploadFailedError)
    {
      if |files| > 0 && |files| + |formData.imageUrls| < MaxImages {
        uploading := true;
        imageUploadError := None;
        var batch := UploadAll(uploads);
        match batch {
          case Some(urls) =>
            formData := formData.(imageUrls := formData.imageUrls + urls);
            uploading := false;
          case None =>
            imageUploadError := Some(UploadFailedError);
            uploading := false;
        }
      } else {
        imageUploadError := Some(TooManyImagesError);
        uploading := false;
      }
    }

    /** `handleRemoveImage`: the image at `index` is dropped. */
    method HandleRemoveImage(index: int)
      modifies this`formData
      ensures formData == old(formData).(imageUrls := WithoutPosition(old(formData).imageUrls, index))
    {
      formData := formData.(imageUrls := WithoutPosition(formData.imageUrls, index));
    }

    /** `handleChange`. */
    method HandleChange(e: ChangeEvent)
      modifies this`formData
      ensures formData == ApplyChange(old(formData), e)
    {
      formData := ApplyChange(formData, e);
    }

    /** `handleSubmit`: a form that fails the checks gets their error and no request is
        sent (`sent` is false); otherwise the update request is sent and `reply` is its
        outcome: a rejection leaves the server's message as the error and still
        navigates to the listing, a success navigates, a failure leaves its message and
        stays. */
    method HandleSubmit(reply: ServerReply) returns (sent: bool, nav: Navigation)
      modifies this`error, this`loading
      ensures sent <==> Validate(formData) == None
      ensures !sent ==> error == Validate(formData) && loading == old(loading) && nav == Stay
      ensures sent ==> !loading && error == SubmitError(reply) && nav == UpdateNavigation(reply)
    {
      if |formData.imageUrls| < 1 {
        error := Some(NoImageError);
        return false, Stay;
      }
      if formData.regularPrice < formData.discountPrice {
        error := Some(DiscountError);
        return false, Stay;
      }
      sent := true;
      loading := true;
      error := None;
      match reply {
        case Reply(success, message, id) =>
          loading := false;
          if success == Some(false) {
            error := Some(message);
          }
          nav := NavigateTo(ListingPath(id));
        case Thrown(message) =>
          error := Some(message);
          loading := false;
          nav := Stay;
      }
    }
  }
}
