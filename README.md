# Real-estate marketplace front end: search, listing form and listing card

A Dafny model of the three pieces of logic in a React front end for a real-estate
listing marketplace:

- **Search page** (`src/pages/Search.jsx`). The sidebar's filters are read from the
  page's query string, with defaults for anything absent, and written back on submit.
  The first page of results asks the listings API for nine listings. If nine come back,
  eight are shown and "show more" is offered; the ninth is a look-ahead probe. "Show
  more" asks again from `startIndex` = the number shown and appends the whole batch.
  Query parameters are an ordered list of name/value pairs. `get` and `set` follow the
  `URLSearchParams` rules of section 6.2 of the WHATWG URL Living Standard (module
  `QueryParams`). Filter decoding and encoding are functions (module `SearchFilters`).
  The result list is the class `SearchView.SearchPage`, whose methods update it in
  place. Beside it are the functions `FirstPage`/`NextPage` and lemmas about them.
- **Listing form** (`src/pages/CreateListing.jsx`, `src/pages/UpdateListing.jsx`). The
  two pages repeat the same form logic, so it is stated once in module `ListingForm`:
  - the defaults;
  - the single-field change rule;
  - the image-list guard, the upload loop and removal by index;
  - the submit checks and the navigation outcome.
  Each page is a class (`CreateListing.CreateListingPage`,
  `UpdateListing.UpdateListingPage`) whose handlers change its fields. The update page
  also has the load step. Its submit still navigates after a rejection, which the
  create page does not do.
- **Listing card** (`src/Components/ListingItem.jsx`). Functions pick the image, the alt
  text, the price label with its " /month" suffix, and the singular or plural room
  labels. Module `Numerals` writes numbers as `String(n)` and `toLocaleString("en-US")`
  do, and reads them back.

Network requests are never made. The outcome of each fetch or upload is an input to the
method that handles it: a list of listings or a failure, one `Option` per uploaded
file, or a server reply.

Three facts about the code shape the model:
- Filter fields are free strings; nothing restricts the type, sort or order to a fixed
  set of values. The round trip holds for every record whose type, sort and order are
  not empty.
- The code has no guard against a stale "show more" response arriving after a new
  search; the model has none either.
- The code stores whatever the first search request returns as the list, including a
  server error envelope; that envelope is outside the model (see "Left out").

## Model

| member | source | states |
|---|---|---|
| `QueryParams.GetFirstMatch` | src/pages/Search.jsx:25-31 | `get` returns the value of the first pair with that name, and absent exactly when no pair has it |
| `QueryParams.GetSetSame` | src/pages/Search.jsx:113-114 | after `set(name, v)`, `get(name)` is `v` |
| `QueryParams.GetSetOther` | src/pages/Search.jsx:113-114 | `set(name, v)` leaves `get` of every other name unchanged |
| `QueryParams.SetShape` | src/pages/Search.jsx:113-114 | after `set`, exactly one pair has the name, and the pairs with other names are the old ones in order (first match replaced, the rest removed) |
| `QueryParams.SetReplacesFirst` | src/pages/Search.jsx:113-114 | when the first pair with the name is at position `i`, `set` keeps the pairs before it, puts the new pair at `i`, and drops the later pairs with that name |
| `QueryParams.SetAppends` | src/pages/Search.jsx:96-104 | `set` on a name not present appends the pair at the end |
| `Numerals.DecimalRoundTrip` | src/pages/Search.jsx:113 | the decimal text written for `startIndex` reads back as the number |
| `Numerals.IntText` | src/Components/ListingItem.jsx:38-45 | `String(i)` is non-empty, digits for `i >= 0`, a minus sign and digits otherwise, and reads back as `i` |
| `Numerals.GroupedRoundTrip` | src/Components/ListingItem.jsx:31-33 | with the en-US grouping commas removed, the price text reads back as the number |
| `SearchFilters.Decode` | src/pages/Search.jsx:25-31 | decoding always gives a fully populated record: type, sort and order are never empty |
| `SearchFilters.DecodeEmpty` | src/pages/Search.jsx:9-31 | an empty query string decodes to the initial filters: "", "all", three false flags, "createdAt", "desc" |
| `SearchFilters.DecodeFields` | src/pages/Search.jsx:25-31 | a flag is true iff its value is the literal "true"; a text field that is absent or empty takes its default, and otherwise takes its value |
| `SearchFilters.DecodeReadsFilterNames` | src/pages/Search.jsx:25-31 | decoding depends only on the seven filter names |
| `SearchFilters.EncodeGet` | src/pages/Search.jsx:96-104 | the encoding carries the search term only when non-empty and the type only when not "all" or empty; true flags become "true", false flags are left out; sort and order are present whenever non-empty; no other name appears |
| `SearchFilters.RoundTrip` | src/pages/Search.jsx:98-104 | decoding the encoding of a record whose type, sort and order are non-empty gives the same record back |
| `SearchFilters.EmptyTypeComesBackAll` | src/pages/Search.jsx:99 | an empty type is not written, so it decodes back as "all"; the round trip's requirement is needed |
| `SearchFilters.DecodeEncodeDecode` | src/pages/Search.jsx:25-31 | submitting filters read from a URL and reading them again changes nothing |
| `SearchFilters.FirstPageQueryShape` | src/pages/Search.jsx:46-54 | the first-page API query is the submit encoding followed by `limit=9`; it has no `startIndex` and decodes to the same filters |
| `SearchFilters.ShowMoreQueryShape` | src/pages/Search.jsx:112-114 | the show-more query has `limit=9` and a `startIndex` that reads back as the number shown, overwriting earlier values of both; every other name of the page's query string is unchanged |
| `SearchFilters.ShowMoreQueryFilters` | src/pages/Search.jsx:112-114 | the show-more query asks for the same filters as the page's query string |
| `SearchFilters.SplitPair` | src/pages/Search.jsx:89 | `"X_Y".split("_")` is `[X, Y]` when neither part contains "_" |
| `SearchFilters.ChangeSortOrder` | src/pages/Search.jsx:88-90 | a "sort_order" value "X_Y" sets sort to X and order to Y and nothing else |
| `SearchFilters.ChangeText` | src/pages/Search.jsx:82-85 | the "type" input sets the type, and the "searchTerm" input the search term, to the input's value, and nothing else changes |
| `SearchFilters.ChangeFlag` | src/pages/Search.jsx:86-87 | a flag's checkbox sets that flag to its checked state |
| `SearchFilters.ChangeTouchesOnlyTargets` | src/pages/Search.jsx:79-92 | every change event changes only the field or fields its id names; an unknown id changes nothing |
| `SearchView.FirstPageLookahead` | src/pages/Search.jsx:60-66 | "show more" is offered iff exactly nine came back; the list shown is the batch in order, either eight items (the ninth held back) or all of it |
| `SearchView.FirstPageFailure` | src/pages/Search.jsx:67-71 | a failed first fetch gives an empty list without "show more" |
| `SearchView.NextPageAppends` | src/pages/Search.jsx:116-127 | show more keeps the old list as a prefix and appends the batch untruncated; a failure keeps the list; it never turns "show more" on, and turns it off iff the batch is short or the fetch failed |
| `SearchView.FirstPageConsistent` | src/pages/Search.jsx:54-66 | against a server holding a fixed result list, the first page shows its beginning, and everything when "show more" is not offered |
| `SearchView.NextPageConsistent` | src/pages/Search.jsx:110-123 | asking from `startIndex` = number shown keeps the list equal to the beginning of the server's list: the held-back probe is fetched again, nothing is skipped or repeated, and everything is shown once "show more" is withdrawn |
| `SearchView.SearchPage.constructor` | src/pages/Search.jsx:9-20 | initial state: default filters, empty list, no "show more", not loading |
| `SearchView.SearchPage.LocationChanged` | src/pages/Search.jsx:22-77 | the sidebar becomes the decoded query string; the request sent is the first-page query; the list and "show more" become `FirstPage(outcome)`; loading ends false |
| `SearchView.SearchPage.HandleChange` | src/pages/Search.jsx:79-92 | the sidebar becomes `ApplyChange` of the old sidebar and the event |
| `SearchView.SearchPage.HandleSubmit` | src/pages/Search.jsx:94-107 | the navigation target is the encoding of the sidebar, and it decodes back to the sidebar whenever type, sort and order are non-empty |
| `SearchView.SearchPage.ShowMore` | src/pages/Search.jsx:109-128 | the request sent is the show-more query for the current length; the list and "show more" become `NextPage` of the old ones |
| `ListingCard.ImageSource` | src/Components/ListingItem.jsx:9-12 | the image is the first URL when it exists and is non-empty, otherwise the fixed fallback; never blank |
| `ListingCard.AltText` | src/Components/ListingItem.jsx:13 | the alt text is the name when non-empty, otherwise "Listing"; never blank |
| `ListingCard.PriceLabelShowsPrice` | src/Components/ListingItem.jsx:29-33 | the label starts with "$"; the amount after it reads back as the discount price when on offer, otherwise as the regular price; a negative shown price is written "-" and then its grouped magnitude |
| `ListingCard.PriceLabelSuffix` | src/Components/ListingItem.jsx:34 | the price label ends in " /month" iff the listing's type is "rent" |
| `ListingCard.RoomLabelPlural` | src/Components/ListingItem.jsx:38-45 | a room label starts with the count, and ends in "s" iff the count is above one |
| `ListingCard.BedroomLabelPlural` | src/Components/ListingItem.jsx:38-40 | "N beds" iff bedrooms > 1, otherwise "N bed" (0 included) |
| `ListingCard.BathroomLabelPlural` | src/Components/ListingItem.jsx:43-45 | "N baths" iff bathrooms > 1, otherwise "N bath" |
| `ListingForm.AllUploadedSpec` | src/pages/CreateListing.jsx:41 | the upload batch fails iff some file's upload failed; otherwise it holds one URL per file, in file order |
| `ListingForm.UploadAll` | src/pages/CreateListing.jsx:37-41 | the loop over the chosen files, followed by `Promise.all`, yields `AllUploaded` of the outcomes |
| `ListingForm.UploadBound` | src/pages/CreateListing.jsx:33 | an upload allowed by the guard and completed leaves at most 14 image URLs |
| `ListingForm.WithoutPositionSpec` | src/pages/CreateListing.jsx:77-82 | removing an index in range drops exactly that URL and keeps the others in order; an index out of range changes nothing |
| `ListingForm.ChangeTouchesOnlyTarget` | src/pages/CreateListing.jsx:84-103 | a change changes only its target field and never the images; "sale"/"rent" set the type to the id; a flag's checkbox sets the flag to its checked state |
| `ListingForm.ChangeSetsValue` | src/pages/CreateListing.jsx:97-101 | an input other than a checkbox sets the field its id names: name, description, address and type to the typed text, the four numeric fields to its numeric reading |
| `ListingForm.ValidateSpec` | src/pages/CreateListing.jsx:108-111 | a form passes iff it has an image and regularPrice >= discountPrice (equal prices pass); no images gives the image error whatever the prices; otherwise a higher discount gives the discount error |
| `ListingForm.NavigationDiffersOnlyOnRejection` | src/pages/UpdateListing.jsx:148-157 | on `success === false` both pages set the server's message; the create page stays and the update page still navigates to `/listing/<id>`; otherwise the two pages agree; an accepted reply takes the create page to `/listing/<id>` with no error (CreateListing.jsx:138); a request that throws keeps both pages on the form with the thrown message |
| `CreateListing.CreateListingPage.constructor` | src/pages/CreateListing.jsx:9-27 | the form starts with no images, type "rent", 1 bedroom, 1 bathroom, regular price 50, discount 0 and three false flags; no errors, not uploading, not loading |
| `CreateListing.CreateListingPage.SelectFiles` | src/pages/CreateListing.jsx:8 | the chosen files replace the selection |
| `CreateListing.CreateListingPage.HandleImageSubmit` | src/pages/CreateListing.jsx:32-56 | if the guard (files > 0 and files + images < 15) refuses, only the error changes, to the 15-images message. If it passes, a complete batch is appended in file order with nothing else on the form changed, and a failed batch leaves the form and sets the upload error. Uploading always ends false |
| `CreateListing.CreateListingPage.HandleRemoveImage` | src/pages/CreateListing.jsx:77-82 | the image list becomes `WithoutPosition(old, index)` and nothing else on the form changes |
| `CreateListing.CreateListingPage.HandleChange` | src/pages/CreateListing.jsx:84-103 | the form becomes `ApplyChange` of the old form and the event |
| `CreateListing.CreateListingPage.HandleSubmit` | src/pages/CreateListing.jsx:105-143 | a request is sent iff validation passes; otherwise the error is the validation error and nothing else changes. After a reply, loading is false, the error is the reply's, and it navigates only on success |
| `UpdateListing.UpdateListingPage.constructor` | src/pages/UpdateListing.jsx:10-29 | the same initial form and flags as the create page |
| `UpdateListing.UpdateListingPage.Load` | src/pages/UpdateListing.jsx:33-45 | the fetched object replaces the form wholesale, whatever its `success` field |
| `UpdateListing.UpdateListingPage.SelectFiles` | src/pages/UpdateListing.jsx:10 | the chosen files replace the selection |
| `UpdateListing.UpdateListingPage.HandleImageSubmit` | src/pages/UpdateListing.jsx:50-74 | the same guard, append and failure behaviour as the create page |
| `UpdateListing.UpdateListingPage.HandleRemoveImage` | src/pages/UpdateListing.jsx:95-100 | exactly the image at the index is removed, with order kept |
| `UpdateListing.UpdateListingPage.HandleChange` | src/pages/UpdateListing.jsx:102-121 | the form becomes `ApplyChange` of the old form and the event |
| `UpdateListing.UpdateListingPage.HandleSubmit` | src/pages/UpdateListing.jsx:123-158 | a request is sent iff validation passes. After a reply, loading is false and the error is the reply's; it navigates to the listing after any reply that was read, even a rejection, and stays only when the request threw |

## Left out

- HTTP requests, JSON parsing and the image host upload (`storeImage`) are not modelled.
  Each outcome is a parameter: `FetchOutcome`, one `Option<string>` per file, and
  `ServerReply`.
- Concurrency: the parallel uploads of `Promise.all` and the interleaving of
  asynchronous handlers. Each handler runs atomically, so the intermediate
  `loading`/`uploading` = true states are not observable in the model.
- React hooks, rendering, the Redux store (the `userRef` sent with a form), and routing.
  `navigate` is a returned `Navigation` value, or the returned query of the search page.
- Percent-encoding and `URLSearchParams.toString()`, section 5.2 of the WHATWG URL
  Standard: a query string is the name/value list it parses to.
- JavaScript number handling. The `+` coercion of price strings (NaN, fractions) is not
  modelled: prices and room counts are integers, and a numeric input's event carries
  its number.
- SearchView.SearchPage.LocationChanged: a server error envelope (a JSON object, not an
  array) on the first page is stored as `listings` by the code. The model only has a
  list of listings or a failure. On "show more" the code's spread of such an object
  throws, which is the model's `FetchFailed`.
- SearchFilters.ApplyChange: a "sort_order" value without "_" leaves `order` undefined
  in the code. The model uses "", which the encoder also omits.
- ListingForm.ApplyChange: an id that names no form field, a checkbox aimed at a text
  field, or a text input aimed at a flag makes the code add a key or store a value of
  the wrong type. The model leaves the form unchanged in those cases.
- UpdateListing.UpdateListingPage.Load: the fetched object is modelled as a form
  record. The model therefore does not capture that an error envelope in its place
  lacks `imageUrls`, which makes later handlers throw.
- ListingCard.ImageSource: the optional chaining on a listing without `imageUrls` is
  not modelled; a listing always has a (possibly empty) image list.
- The sign-in, sign-up and profile pages, the OAuth button and the SDK set-up
  (`src/pages/SignIn.jsx`, `src/pages/SignUp.jsx`, `src/pages/Profile.jsx`,
  `src/Components/OAuth.jsx`, `src/firebase.js`). They are I/O wrappers around the
  authentication and user endpoints. Their only logic is copying a field into the form
  and the profile's remove-by-id after a delete.
