/** The listing form shared by the create and update pages (src/pages/CreateListing.jsx
    and src/pages/UpdateListing.jsx repeat it line for line): the form record and its
    defaults, the change rule, the bounded image list and the submit checks. */
module ListingForm {
  import opened Options

  /** The form record; `kind` is the source's `type` field. Prices and room counts are
      integers. */
  datatype FormData = FormData(
    imageUrls: seq<string>,
    name: string,
    description: string,
    address: string,
    kind: string,
    bedrooms: int,
    bathrooms: int,
    regularPrice: int,
    discountPrice: int,
    offer: bool,
    parking: bool,
    furnished: bool)

  /** The form a page starts with. */
  const InitialForm := FormData([], "", "", "", "rent", 1, 1, 50, 0, false, false, false)

  /** The bound the upload guard compares against. */
  const MaxImages: nat := 15

  const TooManyImagesError := "You can only upload 15 images per listing"
  const UploadFailedError := "Image upload failed (max 2MB per image)"
  const NoImageError := "You must upload at least one image"
  const DiscountError := "Discount price must be lower than regular price"

  /** The guard of `handleImageSubmit`: some file is chosen and the chosen files together
      with the images already on the form stay below the bound. */
  predicate UploadAllowed(fileCount: nat, urlCount: nat) {
    fileCount > 0 && fileCount + urlCount < MaxImages
  }

  /** `Promise.all` over the uploads of the chosen files, one outcome per file: the URLs
      in file order, or nothing when any upload failed. */
  function AllUploaded(uploads: seq<Option<string>>): Option<seq<string>> {
    if uploads == [] then Some([])
    else
      var init := AllUploaded(uploads[..|uploads| - 1]);
      var last := uploads[|uploads| - 1];
      if init.None? || last.None? then None else Some(init.value + [last.value])
  }

  /** The batch fails exactly when some upload failed; otherwise it holds every file's
      URL, in file order. */
  lemma {:induction false} AllUploadedSpec(uploads: seq<Option<string>>)
    ensures AllUploaded(uploads).None? <==> exists i :: 0 <= i < |uploads| && uploads[i].None?
    ensures AllUploaded(uploads).Some? ==>
              var urls := AllUploaded(uploads).value;
              |urls| == |uploads| && forall i :: 0 <= i < |uploads| ==> uploads[i] == Some(urls[i])
  {
    if uploads != [] {
      var init := uploads[..|uploads| - 1];
      AllUploadedSpec(init);
      if AllUploaded(init).None? {
        var i :| 0 <= i < |init| && init[i].None?;
        assert uploads[i].None?;
      }
      if AllUploaded(uploads).None? && AllUploaded(init).Some? {
        assert uploads[|uploads| - 1].None?;
      }
      if AllUploaded(uploads).Some? {
        forall i | 0 <= i < |uploads| ensures uploads[i] == Some(AllUploaded(uploads).value[i]) {
          if i < |uploads| - 1 {
            assert uploads[i] == init[i];
          }
        }
      }
    }
  }

  /** The loop of `handleImageSubmit` that starts one upload per chosen file, followed by
      `Promise.all`: the upload outcomes are its input. */
  method UploadAll(uploads: seq<Option<string>>) returns (batch: Option<seq<string>>)
    ensures batch == AllUploaded(uploads)
  {
    var urls: seq<string> := [];
    var failed := false;
    for i := 0 to |uploads|
      invariant failed <==> AllUploaded(uploads[..i]).None?
      invariant !failed ==> urls == AllUploaded(uploads[..i]).value
    {
      assert uploads[..i + 1][..i] == uploads[..i];
      match uploads[i] {
        case Some(url) => urls := urls + [url];
        case None => failed := true;
      }
    }
    assert uploads[..|uploads|] == uploads;
    batch := if failed then None else Some(urls);
  }

  /** A successful upload allowed by the guard leaves fewer than fifteen images on the
      form, so at most fourteen. */
  lemma UploadBound(urls: seq<string>, uploads: seq<Option<string>>)
    requires UploadAllowed(|uploads|, |urls|) && AllUploaded(uploads).Some?
    ensures |urls + AllUploaded(uploads).value| <= 14
  {
    AllUploadedSpec(uploads);
  }

  /** `imageUrls.filter((_, i) => i !== index)`: every URL whose position is not `index`,
      in order. */
  function WithoutPosition(urls: seq<string>, index: int): seq<string> {
    if urls == [] then []
    else WithoutPosition(urls[..|urls| - 1], index)
         + (if |urls| - 1 == index then [] else [urls[|urls| - 1]])
  }

  /** Removing a position in range drops exactly that URL and keeps the others in order;
      a position out of range leaves the list as it was. */
  lemma {:induction false} WithoutPositionSpec(urls: seq<string>, index: int)
    ensures 0 <= index < |urls| ==> WithoutPosition(urls, index) == urls[..index] + urls[index + 1..]
    ensures !(0 <= index < |urls|) ==> WithoutPosition(urls, index) == urls
  {
    if urls != [] {
      var init := urls[..|urls| - 1];
      var last := urls[|urls| - 1];
      WithoutPositionSpec(init, index);
      if index == |urls| - 1 {
        assert urls[..index] == init;
        assert urls[index + 1..] == [];
      } else if 0 <= index < |urls| - 1 {
        assert init[..index] == urls[..index];
        assert init[index + 1..] + [last] == urls[index + 1..];
      } else {
        assert init + [last] == urls;
      }
    }
  }

  /** A change event of the form: the input's id and type, its text value, the number
      that text stands for (for the numeric inputs) and, for a checkbox, whether it is
      checked. */
  datatype ChangeEvent = ChangeEvent(id: string, inputType: string, value: string, number: int, checked: bool)

  /** The fields of the form a change event can aim at. */
  datatype Field =
    | Name | Description | Address | Type
    | Bedrooms | Bathrooms | RegularPrice | DiscountPrice
    | Offer | Parking | Furnished

  /** The field an input id names, if any. */
  function FieldNamed(id: string): Option<Field> {
    if id == "name" then Some(Name)
    else if id == "description" then Some(Description)
    else if id == "address" then Some(Address)
    else if id == "type" then Some(Type)
    else if id == "bedrooms" then Some(Bedrooms)
    else if id == "bathrooms" then Some(Bathrooms)
    else if id == "regularPrice" then Some(RegularPrice)
    else if id == "discountPrice" then Some(DiscountPrice)
    else if id == "offer" then Some(Offer)
    else if id == "parking" then Some(Parking)
    else if id == "furnished" then Some(Furnished)
    else None
  }

  /** A checkbox stores its checked state in a flag field. */
  function SetChecked(f: FormData, field: Field, checked: bool): FormData {
    match field
    case Offer => f.(offer := checked)
    case Parking => f.(parking := checked)
    case Furnished => f.(furnished := checked)
    case _ => f
  }

  /** Any other input stores its value in a text or numeric field. */
  function SetValue(f: FormData, field: Field, e: ChangeEvent): FormData {
    match field
    case Name => f.(name := e.value)
    case Description => f.(description := e.value)
    case Address => f.(address := e.value)
    case Type => f.(kind := e.value)
    case Bedrooms => f.(bedrooms := e.number)
    case Bathrooms => f.(bathrooms := e.number)
    case RegularPrice => f.(regularPrice := e.number)
    case DiscountPrice => f.(discountPrice := e.number)
    case _ => f
  }

  /** `handleChange`: the "sale" and "rent" boxes set the type to their id, any other
      checkbox sets the field its id names to its checked state, any other input sets
      that field to its value. An id naming no field changes nothing. */
  function ApplyChange(f: FormData, e: ChangeEvent): FormData {
    if e.id == "sale" || e.id == "rent" then f.(kind := e.id)
    else match FieldNamed(e.id)
      case None => f
      case Some(field) =>
        if e.inputType == "checkbox" then SetChecked(f, field, e.checked) else SetValue(f, field, e)
  }

  /** The field an event is aimed at: the type for the sale and rent boxes, otherwise
      the field its id names. */
  function Target(e: ChangeEvent): Option<Field> {
    if e.id == "sale" || e.id == "rent" then Some(Type) else FieldNamed(e.id)
  }

  /** `g` agrees with `f` on the image list and on every field other than `target`. */
  predicate SameExcept(f: FormData, g: FormData, target: Option<Field>) {
    && g.imageUrls == f.imageUrls
    && (target != Some(Name) ==> g.name == f.name)
    && (target != Some(Description) ==> g.description == f.description)
    && (target != Some(Address) ==> g.address == f.address)
    && (target != Some(Type) ==> g.kind == f.kind)
    && (target != Some(Bedrooms) ==> g.bedrooms == f.bedrooms)
    && (target != Some(Bathrooms) ==> g.bathrooms == f.bathrooms)
    && (target != Some(RegularPrice) ==> g.regularPrice == f.regularPrice)
    && (target != Some(DiscountPrice) ==> g.discountPrice == f.discountPrice)
    && (target != Some(Offer) ==> g.offer == f.offer)
    && (target != Some(Parking) ==> g.parking == f.parking)
    && (target != Some(Furnished) ==> g.furnished == f.furnished)
  }

  /** A change event changes only its target field, never the image list; the sale and
      rent boxes set the type to their own id; a flag's checkbox sets the flag to its
      checked state. */
  lemma ChangeTouchesOnlyTarget(f: FormData, e: ChangeEvent)
    ensures SameExcept(f, ApplyChange(f, e), Target(e))
    ensures (e.id == "sale" || e.id == "rent") ==> ApplyChange(f, e).kind == e.id
    ensures IsFlagBox(e, "offer") ==> ApplyChange(f, e).offer == e.checked
    ensures IsFlagBox(e, "parking") ==> ApplyChange(f, e).parking == e.checked
    ensures IsFlagBox(e, "furnished") ==> ApplyChange(f, e).furnished == e.checked
  {
    if e.id == "sale" || e.id == "rent" {
      assert ApplyChange(f, e) == f.(kind := e.id);
    } else {
      match FieldNamed(e.id)
      case None =>
        assert ApplyChange(f, e) == f;
      case Some(field) =>
        if e.inputType == "checkbox" {
          assert ApplyChange(f, e) == SetChecked(f, field, e.checked);
          SetCheckedTouchesOnlyField(f, field, e.checked);
        } else {
          assert ApplyChange(f, e) == SetValue(f, field, e);
          SetValueTouchesOnlyField(f, field, e);
        }
    }
  }

  /** Any input other than a checkbox stores what was typed in the field its id names:
      the text itself in a text field, its numeric reading in a numeric field. */
  lemma ChangeSetsValue(f: FormData, e: ChangeEvent)
    ensures IsValueInput(e, "name") ==> ApplyChange(f, e).name == e.value
    ensures IsValueInput(e, "description") ==> ApplyChange(f, e).description == e.value
    ensures IsValueInput(e, "address") ==> ApplyChange(f, e).address == e.value
    ensures IsValueInput(e, "type") ==> ApplyChange(f, e).kind == e.value
    ensures IsValueInput(e, "bedrooms") ==> ApplyChange(f, e).bedrooms == e.number
    ensures IsValueInput(e, "bathrooms") ==> ApplyChange(f, e).bathrooms == e.number
    ensures IsValueInput(e, "regularPrice") ==> ApplyChange(f, e).regularPrice == e.number
    ensures IsValueInput(e, "discountPrice") ==> ApplyChange(f, e).discountPrice == e.number
  {
  }

  lemma SetCheckedTouchesOnlyField(f: FormData, field: Field, checked: bool)
    ensures SameExcept(f, SetChecked(f, field, checked), Some(field))
  {
    match field
    case Offer =>
    case Parking =>
    case Furnished =>
    case _ => assert SetChecked(f, field, checked) == f;
  }

  lemma SetValueTouchesOnlyField(f: FormData, field: Field, e: ChangeEvent)
    ensures SameExcept(f, SetValue(f, field, e), Some(field))
  {
    match field
    case Name =>
    case Description =>
    case Address =>
    case Type =>
    case Bedrooms =>
    case Bathrooms =>
    case RegularPrice =>
    case DiscountPrice =>
    case _ => assert SetValue(f, field, e) == f;
  }

  /** `e` is the checkbox of the flag `name`. */
  predicate IsFlagBox(e: ChangeEvent, name: string) {
    e.inputType == "checkbox" && e.id == name
  }

  /** `e` is an input other than a checkbox, with id `name`. */
  predicate IsValueInput(e: ChangeEvent, name: string) {
    e.inputType != "checkbox" && e.id == name
  }

  /** The submit checks, in order: an image is required, then the regular price must not
      be below the discount price. */
  function Validate(f: FormData): Option<string> {
    if |f.imageUrls| < 1 then Some(NoImageError)
    else if f.regularPrice < f.discountPrice then Some(DiscountError)
    else None
  }

  /** A form passes exactly when it has an image and its regular price is not below its
      discount price (equal prices pass); a form without images is refused for that
      reason whatever its prices. */
  lemma ValidateSpec(f: FormData)
    ensures Validate(f) == None <==> |f.imageUrls| >= 1 && f.regularPrice >= f.discountPrice
    ensures |f.imageUrls| == 0 ==> Validate(f) == Some(NoImageError)
    ensures |f.imageUrls| >= 1 && f.regularPrice < f.discountPrice ==> Validate(f) == Some(DiscountError)
  {
  }

  /** The server's answer to a submit: the JSON body read (its `success` field may be
      absent), or the failure thrown by the request or by reading its body. */
  datatype ServerReply = Reply(success: Option<bool>, message: string, id: string) | Thrown(message: string)

  /** `data.success === false`. */
  predicate Rejected(reply: ServerReply) {
    reply.Reply? && reply.success == Some(false)
  }

  /** Where a page goes after a submit. */
  datatype Navigation = Stay | NavigateTo(path: string)

  function ListingPath(id: string): string { "/listing/" + id }

  /** The error a sent submit leaves: the server's message on a rejection, the thrown
      failure's message, none otherwise. */
  function SubmitError(reply: ServerReply): Option<string> {
    match reply
    case Reply(success, message, _) => if success == Some(false) then Some(message) else None
    case Thrown(message) => Some(message)
  }

  /** The create page goes to the new listing unless the server rejected it or the
      request failed. */
  function CreateNavigation(reply: ServerReply): Navigation {
    match reply
    case Reply(success, _, id) => if success == Some(false) then Stay else NavigateTo(ListingPath(id))
    case Thrown(_) => Stay
  }

  /** The update page goes to the listing whenever a body was read, rejected or not. */
  function UpdateNavigation(reply: ServerReply): Navigation {
    match reply
    case Reply(_, _, id) => NavigateTo(ListingPath(id))
    case Thrown(_) => Stay
  }

  /** The two pages differ only on a rejection: the create page stays with the error,
      the update page sets the error and navigates anyway. An accepted reply takes both
      pages to the listing; a failed request keeps both on the form with its message. */
  lemma NavigationDiffersOnlyOnRejection(reply: ServerReply)
    ensures Rejected(reply) ==> SubmitError(reply) == Some(reply.message)
                                && CreateNavigation(reply) == Stay
                                && UpdateNavigation(reply) == NavigateTo(ListingPath(reply.id))
    ensures !Rejected(reply) ==> CreateNavigation(reply) == UpdateNavigation(reply)
    ensures CreateNavigation(reply).NavigateTo? ==> SubmitError(reply) == None
    ensures reply.Reply? && !Rejected(reply) ==>
              CreateNavigation(reply) == NavigateTo(ListingPath(reply.id)) && SubmitError(reply) == None
    ensures reply.Thrown? ==>
              CreateNavigation(reply) == Stay && UpdateNavigation(reply) == Stay
              && SubmitError(reply) == Some(reply.message)
  {
  }
}
