# Listing lifecycle and client payload assembly, in Dafny

A model of the listing core of a classifieds marketplace (Express/Mongoose
back end, React front end) with proofs about it.

- **Server: the listing controller** (`listing_controller.dfy`, module
  `ListingController`). A listing is created from a request body. Its price
  loses its commas, a falsy description becomes `''`, and its coordinates
  fall back to `(0, 0)` when the geocoder reports an error. It is saved with
  `isExpired = false` and an expiry date thirty days ahead. After the save,
  the listing's id is appended to the owner's `productListed`. An update
  sets the scalar fields and appends new images. A view appends a
  `{userId}` entry. A caller's own listings are those whose `user` is the
  caller. The listings and users collections are the fields of the class
  `ListingStore`, and each writing handler is a method that changes them; `GetUserListing`
  only reads them. The
  normalisation steps and the update document are pure functions.
- **Client: payload assembly** (`payment.dfy`, module `Payment`). A form
  is a sequence of (key, string-or-file) entries. There are two
  `uploadImageToCloudinary` loops, one per flow. Each sends values to an
  image-host oracle and keeps the URLs of the accepted replies, in input
  order. The entries loops build the JSON payload: files are skipped, the
  last string entry for a key wins, the first feature-image URL is merged
  into `features`, and uploaded photo URLs override `photos`. Each loop is
  a method proved to compute a specification function, and the payload's
  properties are lemmas about those functions.
- **Both together** (`listing_flow.dfy`, module `ListingFlow`): the photo
  URLs the client uploads become the stored listing's images, and a
  client's `features` reach the server in a form it parses.
- **JSON** (`json.dfy`, module `Json`): `JSON.stringify`/`JSON.parse` are a
  pair of functions given as a parameter. The only assumption about them
  is `Lawful`, stated as a precondition: parsing what was stringified gives
  the value back, and the text `{}` parses to the empty object.

External services are parameters: the geocoder (`getCoordinates`),
`formatDate`, `Date.now`, the comparison `expiryDate < Date.now()` (left
uninterpreted), the image host, and the create handler's persistence
failures (`Faults`).

An update whose `listingId` names no listing answers 500, not 404:
`findById` returns `null` and reading `listing.expiryDate` throws
(backend/controllers/listing.controller.js:211, 239), and the handler's
catch answers 500. `ListingStore.UpdateListing` models the 500.

## Model

| member | source | states |
|---|---|---|
| ListingController.StripCommas | backend/controllers/listing.controller.js:121 | the result contains no comma and is no longer than the input |
| ListingController.StripCommasAppend | backend/controllers/listing.controller.js:121 | stripping distributes over concatenation, so every non-comma character is kept, in order |
| ListingController.StripCommasKeeps | backend/controllers/listing.controller.js:121 | a price without commas is stored unchanged |
| ListingController.StripCommasIdempotent | backend/controllers/listing.controller.js:121 | stripping a stripped price changes nothing |
| ListingController.StripCommasExample | backend/controllers/listing.controller.js:121 | "12,000" becomes "12000" and "1,999" becomes "1999" |
| ListingController.NormalisePrice | backend/controllers/listing.controller.js:234 | a stored price never contains a comma; a falsy price is stored as ''; a truthy price has its commas stripped, so a comma-free price is kept |
| ListingController.NormalisePriceExample | backend/controllers/listing.controller.js:121 | the prices "12,000" and "1,999" are stored as "12000" and "1999" |
| ListingController.OrEmpty | backend/controllers/listing.controller.js:116 | a missing description is stored as '', a given one as given |
| ListingController.Coordinates | backend/controllers/listing.controller.js:99 | a geocoder error gives (0, 0); otherwise the geocoder's coordinates are used |
| ListingController.Locate | backend/controllers/listing.controller.js:216-223 | location carries city, state and neighbourhood; its coordinates are (0, 0) on a geocoder error and the geocoder's answer otherwise, never absent |
| ListingController.Normalise | backend/controllers/listing.controller.js:89-90 | a text field is parsed (malformed exactly when parse fails); a structured field is taken as is; an absent one is undefined |
| ListingController.NormaliseTextAgrees | backend/controllers/listing.controller.js:102-103 | sending a value as JSON text or as structured data normalises to the same thing |
| ListingController.InitialImages | backend/controllers/listing.controller.js:122 | parsed photos that are an array become the images; absent photos give the empty list; an object cannot be stored |
| ListingController.StoredFeatures | backend/controllers/listing.controller.js:125 | parsed features are stored as parsed; absent features store nothing |
| ListingController.NewListing | backend/controllers/listing.controller.js:89-130 | creation fails exactly on malformed photos or features JSON (or uncastable photos); otherwise the record has isExpired false, no views, the caller as user, title, brand, category, subcategory, state and city from the body, description defaulting to '', the normalised comma-free price, the parsed features, images equal to the parsed photos, the geocoded location, the owner snapshot and an expiry 30 days ahead |
| ListingController.ImagesToPush | backend/controllers/listing.controller.js:242-246 | a parsed array is pushed (an empty one pushes nothing); anything that is not an array pushes nothing |
| ListingController.BuildUpdate | backend/controllers/listing.controller.js:211-246 | the update fails exactly on malformed photos or features JSON; otherwise it sets title, brand, category, subcategory, state and city from the body, the normalised comma-free price, the defaulted description, the parsed features, a fresh geocoded location, isExpired from the existing expiry date, and pushes the parsed photos |
| ListingController.ApplyUpdate | backend/controllers/listing.controller.js:228-253 | an update sets title, description, category, subcategory, brand, price, state, city, location and isExpired to the document's values, replaces features only when the document has them, never changes user, views, postedBy or expiryDate, and makes images the old images followed by the pushed ones |
| ListingController.UpdateImages | backend/controllers/listing.controller.js:242-246 | on update, images are the old images followed by the parsed photos when those are an array, and are unchanged otherwise |
| ListingController.AddView | backend/controllers/listing.controller.js:160-166 | a view appends exactly one {userId} entry and changes nothing else |
| ListingController.ViewsAccumulate | backend/controllers/listing.controller.js:160-166 | two views by the same user add two entries (no de-duplication) |
| ListingController.AddProduct | backend/controllers/listing.controller.js:134-138 | the new listing id is appended at the end of productListed and nothing else changes |
| ListingController.OwnedBy | backend/controllers/listing.controller.js:30-32 | exactly the listings whose user is the owner, with their records |
| ListingController.OwnedByAfterInsert | backend/controllers/listing.controller.js:114-132 | a newly saved listing is added to its owner's listings and to nobody else's |
| ListingController.OwnedByAfterReplace | backend/controllers/listing.controller.js:228-240 | replacing a listing by one with the same user keeps every owner's set of listings |
| ListingController.ListingStore.CreateListing | backend/controllers/listing.controller.js:71-153 | a failed draft or save changes nothing and answers 500; otherwise the listing is saved under a fresh id, then the id is pushed onto the owner's productListed unless that push fails; a push or re-fetch failure answers 500 without undoing the save; success answers with the owner as it was before the push; the status is 201 exactly when nothing failed, and 500 otherwise |
| ListingController.CreateResponse.Code | backend/controllers/listing.controller.js:142-152 | a created listing answers 201 and a fault answers 500 |
| ListingController.ListingStore.UpdateViews | backend/controllers/listing.controller.js:155-186 | an existing listing gets one more view entry (200); an absent one answers 404 with no change; users and the id counter never change |
| ListingController.ListingStore.UpdateListing | backend/controllers/listing.controller.js:188-273 | a missing listingId answers 404 with no change; an unknown id or malformed JSON answers 500 with no change; otherwise the listing is replaced by the updated one, which is returned; the status is 404 exactly for a missing listingId, 200 exactly for a found listing with well-formed JSON, and 500 otherwise |
| ListingController.UpdateResponse.Code | backend/controllers/listing.controller.js:205-271 | an updated listing answers 200, a missing id 404 and a fault 500 |
| ListingController.ListingStore.GetUserListing | backend/controllers/listing.controller.js:22-43 | no caller id gives 404; otherwise exactly the caller's listings |
| Payment.GetAll | frontend/src/services/Payment.js:138-139 | at most one value per form entry; a value is returned exactly when some entry has the key and that value |
| Payment.GetAllAppend | frontend/src/services/Payment.js:138-139 | getAll over two runs of entries is the first run's values followed by the second's, so entry order is kept |
| Payment.GetAllSnoc | frontend/src/services/Payment.js:138-139 | appending an entry adds its value at the end exactly when it has the key |
| Payment.Get | frontend/src/services/Payment.js:143-144 | a found value belongs to the first entry with that key; none is found only when no entry has the key |
| Payment.GetIsFirstOfGetAll | frontend/src/services/Payment.js:138-144 | get returns the first value getAll returns, and null when getAll returns none |
| Payment.Truthy | frontend/src/services/Payment.js:143 | a form value is falsy exactly when it is the empty string |
| Payment.LastTextExists | frontend/src/services/Payment.js:148-160 | a last string value for a key exists exactly when some string entry has that key, and it is the value of a string entry with that key after which no string entry has the key |
| Payment.Collected | frontend/src/services/Payment.js:110-135 | an upload loop returns at most as many URLs as it was given values |
| Payment.CollectedAppend | frontend/src/services/Payment.js:113-132 | the URLs of two batches are the first batch's followed by the second's, so relative input order is kept |
| Payment.CollectedMembership | frontend/src/services/Payment.js:124-126 | a URL is returned exactly when some value's upload was accepted with that URL |
| Payment.CollectedFrom | frontend/src/services/Payment.js:124-126 | every returned URL came back in an accepted reply for one of the values |
| Payment.CollectedAllAccepted | frontend/src/services/Payment.js:113-132 | when every upload succeeds, the i-th URL is the i-th value's |
| Payment.Files | frontend/src/services/Payment.js:192-194 | the filter keeps every File value and nothing else |
| Payment.FilesAppend | frontend/src/services/Payment.js:192-194 | the filter distributes over concatenation, so the kept files keep their relative order |
| Payment.UploadForCreate | frontend/src/services/Payment.js:110-135 | the create-flow loop returns the URLs of the replies with success, in input order |
| Payment.UploadForUpdate | frontend/src/services/Payment.js:190-220 | the update-flow loop drops non-File values first and keeps a reply only with both success and a URL |
| Payment.UpdateUploadsComeFromFiles | frontend/src/services/Payment.js:192-212 | every URL the update flow keeps is non-empty and came back for one of the form's files |
| Payment.UploadFlowsAgree | frontend/src/services/Payment.js:190-220 | on files whose successful replies all carry a URL, the two upload loops return the same list |
| Payment.FeatureMerge | frontend/src/services/Payment.js:153-156 | a features object gains `image` set to the URL and keeps its other keys; with no URL, or on an array, the value is unchanged |
| Payment.CreateFeatures | frontend/src/services/Payment.js:151-156 | the create flow's features entry fails exactly when its JSON does not parse |
| Payment.UpdateFeatures | frontend/src/services/Payment.js:241-253 | malformed features JSON becomes '{}'; otherwise the entry is what the create flow would produce |
| Payment.CreateEntriesLoop | frontend/src/services/Payment.js:147-160 | the create entries loop computes CreateFill, stopping at the first malformed features entry |
| Payment.UpdateEntriesLoop | frontend/src/services/Payment.js:234-257 | the update entries loop computes UpdateFill |
| Payment.CreateFillAborts | frontend/src/services/Payment.js:148-160 | the create loop aborts exactly when some features entry, in any position, is malformed |
| Payment.CreateFillAbortSticks | frontend/src/services/Payment.js:152 | once a prefix of the form aborts the create loop, the whole form does |
| Payment.CreateFillAgrees | frontend/src/services/Payment.js:148-160 | when the create loop does not abort, it builds what the update loop builds |
| Payment.UpdateFillLastWins | frontend/src/services/Payment.js:236-257 | a key is in the loop's result exactly when some string entry has it, and its value comes from the last such entry |
| Payment.AssembleKeys | frontend/src/services/Payment.js:236-262 | every payload key is an uploaded-photos `photos` or the key of a string entry; files never contribute |
| Payment.AssemblePlainField | frontend/src/services/Payment.js:254-256 | an ordinary key holds the last string value given for it, and is absent when there is none |
| Payment.AssemblePhotos | frontend/src/services/Payment.js:260-262 | with uploaded photos, `photos` is their serialised list and decodes back to it, overriding the form; without uploads the form's value, if any, is kept |
| Payment.AssembleFeatures | frontend/src/services/Payment.js:241-253 | features decodes to the last features value with `image` merged in when there is a feature URL (unchanged otherwise), and to the empty object when its text is malformed |
| Payment.Uploads | frontend/src/services/Payment.js:137-145 | a flow's upload returns at most one URL per value, each from an upload of one of them, and contains the URL of every accepted upload (of a File, in the update flow); the update flow's URLs are never empty |
| Payment.UploadsAppend | frontend/src/services/Payment.js:110-135 | uploading two batches gives the first batch's URLs followed by the second's, in either flow, so input order is kept |
| Payment.PhotoUrls | frontend/src/services/Payment.js:137-140 | photoUrls has at most one URL per `file` entry, each from the upload of one of them; it is empty without `file` entries and otherwise is the flow's upload of exactly those values |
| Payment.FeatureUrls | frontend/src/services/Payment.js:142-145 | featureUrls holds at most one URL; it holds one exactly when the first `featureFile` value is truthy (and, in the update flow, a File) and its upload is accepted, and that URL is the upload's |
| Payment.WithPhotos | frontend/src/services/Payment.js:162-164 | with no photo URLs the payload is unchanged; otherwise `photos` is added or replaced by the serialised list and every other key is kept |
| Payment.CreateRequestShape | frontend/src/services/Payment.js:147-164 | the create flow sends nothing exactly when a features entry is malformed; otherwise it sends the assembled payload built from its own uploads |
| Payment.CreateListingPayload | frontend/src/services/Payment.js:137-164 | createListing's uploads, entries loop and photos override produce CreateRequest |
| Payment.UpdateListingPayload | frontend/src/services/Payment.js:223-262 | updateListing's uploads, entries loop and photos override produce UpdateRequest |
| ListingFlow.CreatedImagesAreUploads | frontend/src/services/Payment.js:162-164 | with a lawful JSON, a create whose photos come from the client's uploads stores exactly those URLs, in order, as the listing's images |
| ListingFlow.UpdatedImagesAppendUploads | backend/controllers/listing.controller.js:242-246 | an update whose photos come from the client's uploads appends exactly those URLs to the existing images |
| ListingFlow.CreatedFeaturesAreMerged | frontend/src/services/Payment.js:147-160 | a create payload that was sent carries features the server parses, and the stored features are the form's last features value with the image merged in |
| ListingFlow.UpdatedFeaturesAreMerged | frontend/src/services/Payment.js:241-253 | an update's features never make the server fail to parse; the stored features are the form's value with the image merged in, or the empty object |

## Left out

- `initiatePayment`, `loadScript` and `verifyPayment` (frontend/src/services/Payment.js:4-105) are not modelled. They load the Razorpay SDK, inject a script into the DOM, handle the widget callback and make an axios call. One fact about them is recorded here: the payment handler calls `createListing` without awaiting or checking the result of `verifyPayment` (frontend/src/services/Payment.js:61-65).
- `getAllListing` and `getListingResponse` are not modelled. They are `find`/`populate` queries with no logic of their own. The `populate` calls in the modelled handlers are not modelled either.
- backend/router/user.route.js is a routing table and is not part of this model. The authentication middleware is represented by the `Principal` it supplies.
- Network and UI effects are not modelled: axios requests, `toast`, `navigate`, `localStorage`, `setIsAddProductModal`. The model stops at the payload that would be posted.
- `getCoordinates` and `formatDate` are uninterpreted parameters. The geocoder is assumed to answer either coordinates or an error; a geocoder that throws is not modelled.
- `expiryDate < Date.now()` compares a formatted string with a number under JavaScript coercion. It is the uninterpreted parameter `expiredBefore`.
- JSON is abstract. Only arrays of strings and flat string-to-string objects are represented. Other JSON texts (numbers, null, nested values) count as parse failures.
- Mongoose schema casting is not modelled. One assumption is made: on create, photos that parse to an object cannot be cast to the string-array `images` path, so the save is rejected (500).
- An undefined `features` in an update is dropped, as Mongoose drops undefined values from update documents, so the stored features stay as they were. The scalar text fields (title, brand, city, and so on) are always present strings, and `price` is a string or absent.
- A truthy `price` that is not a string (a JSON number, say) makes `price.replace` throw, which answers 500. This is not modelled, because `price` is typed as an optional string.
- Mongoose's `_id` allocation is a counter (`nextId`). Malformed ids (a `CastError`, 500) are not modelled.
- The order of `find` results is not modelled. `GetUserListing` returns the caller's listings as a map from id to record.
- Persistence failures are modelled only in create (`Faults`). A store failure inside `updateListing` or `updateViews` is not modelled.
- `updateListing` has a second 404, `!updatedListing`. It cannot happen in this sequential model: the record was just found, and nothing deletes it in between. Concurrency is not modelled.
- The upload oracle is deterministic: the same form value always gets the same reply. Retries and partial network failures are just `Failed` replies.
- FeatureMerge: a feature-image reply with success but no `url` is `Uploaded("")`, so the model sets `image` to `""`. In the JavaScript, `featuresObj.image = undefined` is dropped by `JSON.stringify`, which removes any `image` the form's features had.
- A success reply with no `url` is modelled as `Uploaded("")`. The create-flow loop then keeps an empty string, where the JavaScript would push `undefined`, which serialises as `null`.
- The update flow's `value === undefined \|\| value === null` guard is not modelled as a branch. FormData values are always strings or files, and payload values are strings by type, so the payload never holds null or undefined.
- When the create flow's `JSON.parse` throws, the whole call rejects. The model's `None` means no request is sent. That the toast is then never dismissed is not modelled.
- The re-fetched user in create (`userModel.findById`) is only logged. Only its failure (`Faults.refetchFails`) is modelled.
