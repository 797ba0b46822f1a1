# TrashTalkers core, modelled in Dafny

TrashTalkers is a web application for disposing of waste. A user photographs an
item. A hosted classifier labels the photo. A generative model writes disposal
guidance, from which the upload form keeps an outcome (the `Cost:` line,
"Neutral" when there is none) and the details. A maps search lists nearby recycling
facilities. The item is stored in the user's collection of a hosted document
store and shown on a searchable, sortable dashboard.

This project models the logic around those hosted services:

- **`NewItemClient`**: the upload form.
  - The form state is a class, `UploadForm`, whose methods are the
    component's handlers: accepting a file, clearing the form,
    classifying, and submitting.
  - The pure steps of a submission are functions: reading the two replies,
    mapping place results to recycling locations, looking up the confidence,
    parsing the `Cost:` / `Details:` guidance, and assembling the item record.
- **`UserDashboard`**: the dashboard's search and sort.
  - The search is a case-insensitive substring filter.
  - The sort is a stable, comparator-driven sort of a copy.
  - Two empty-state conditions decide which message the page shows.
- **`FirebaseDBHelpers`**: the per-user item repository.
  - It is a class over the map `uid -> itemHash -> record`.
  - A write stores a seven-field projection of the item.
- **`FirebaseDBAuth`**: the user-profile store.
  - It is a class over the map `uid -> profile`.
  - A login is a merge write of `lastLogin`.
- **`GeminiRoute`, `PlacesRoute`, `ClassificationRoute`**: the three proxy
  routes.
  - Each is a pure function from its inputs to a status and a JSON body,
    plus the request it forwarded, if any.
  - The outcome of each external call is an input.
- **Shared modules**: `Wrappers` (`Option`, `Result`), `Json` (JavaScript
  values, truthiness, property reads that throw on `null`/`undefined`) and
  `Text` (`trim`, `\s`, `indexOf`/`includes`, line splitting, ASCII
  lower-casing, decimal rendering).

Every external effect is a parameter:

- the hosted classifier, the generative model and the maps search;
- the browser's geolocation answer, the file reader's data URL and the
  joined replies of the two submission requests;
- the item hash generator and the clock.

The document store is an abstract map, and every store call succeeds.

Three points of the code shape the model:

- The guidance text is parsed in the upload component, not in the route. Only
  the `Cost:` and `Details:` parts are read.
- The guidance route reads the user's text from the form field `userText`. The
  upload component sends it as `userDescription`.
- An unset Gemini key is reported as 401 'Invalid API key', because the
  thrown message contains "API key".

The components disagree with each other in several places. The model captures
each place as stated:

- The places route reads a JSON body, but the upload component posts form
  data. `request.json()` then throws before the route's `try`, which the model
  shows as `PlacesRoute.Response.Crash`. A reply that is not JSON gives the
  item no recycling locations (`NewItemClient.NonJsonPlacesHaveNoLocations`).
- The dashboard expects an array of items. `getUserItems` returns an object;
  if that object were passed to the dashboard, `UserDashboard.InitialItems`
  would turn it into the empty list.
- The upload component does not check the guidance route's `success` flag.
  Every request it sends lacks `userText`, so the route answers with an error
  body. The item is then saved as "Neutral" with an empty description
  (`NewItemClient.GuidanceErrorIsNeutral`).

## Model

| member | source | states |
|---|---|---|
| `NewItemClient.CostOf` | src/app/components/NewItemClient.jsx:154-156 | the outcome is absent exactly when the answer has no `Cost:`, and it never spans two lines |
| `NewItemClient.DetailsOf` | src/app/components/NewItemClient.jsx:155-157 | the description is absent exactly when the answer has no `Details:` |
| `NewItemClient.ParseGuidance` | src/app/components/NewItemClient.jsx:151-158 | without `Cost:` the outcome is 'Neutral'; without `Details:` the description is the whole answer; a parsed outcome is one line |
| `NewItemClient.CostLine` | src/app/components/NewItemClient.jsx:154-156 | when a non-blank character follows the first `Cost:` and its blanks (newlines included), the outcome is the rest of that line, trimmed |
| `NewItemClient.CostBlankTail` | src/app/components/NewItemClient.jsx:151-156 | when only blanks (newlines included) follow the first `Cost:` to the end of the answer, the outcome is '', not 'Neutral' |
| `NewItemClient.DetailsRest` | src/app/components/NewItemClient.jsx:155-157 | everything after the first `Details:`, trimmed, is the description |
| `NewItemClient.HeadHasNoDetails` | src/app/components/NewItemClient.jsx:155 | the `Cost:` and `Redemption Value:` sections cannot create a `Details:` occurrence of their own |
| `NewItemClient.GuidanceOutcome` | src/app/components/NewItemClient.jsx:154-156 | a three-section text gives back its outcome line |
| `NewItemClient.GuidanceDetails` | src/app/components/NewItemClient.jsx:155-157 | a three-section text gives back its trimmed details |
| `NewItemClient.GuidanceRoundTrip` | src/app/components/NewItemClient.jsx:151-158 | "Cost: X\n\nRedemption Value: Y\n\nDetails: Z" parses back to outcome X and description trim(Z) |
| `NewItemClient.LocationOf` | src/app/components/NewItemClient.jsx:140-145 | a place maps to a location whose name and address default to '' and whose latitude and longitude default to 0 when falsy; a null or undefined place throws |
| `NewItemClient.MapPlaces` | src/app/components/NewItemClient.jsx:140-145 | the locations match the places element by element, with the same length and order; the error is the first failing element's |
| `NewItemClient.MapLocations` | src/app/components/NewItemClient.jsx:140 | a missing list gives no locations; an array is mapped; any other truthy value throws "is not a function" |
| `NewItemClient.FindLabel` | src/app/components/NewItemClient.jsx:146-148 | the index of the first prediction with the chosen label, or none exactly when no label matches |
| `NewItemClient.ConfidenceFor` | src/app/components/NewItemClient.jsx:146-149 | the score of the first prediction with the chosen label, or 0 when none matches |
| `NewItemClient.TopPredictionConfidence` | src/app/components/NewItemClient.jsx:146-149 | with the first prediction pre-selected, the confidence is its score |
| `NewItemClient.ReadGuidance` | src/app/components/NewItemClient.jsx:126-132 | a JSON reply is read as JSON; any other reply becomes `{answer: text}` |
| `NewItemClient.ReadPlaces` | src/app/components/NewItemClient.jsx:133-138 | a JSON reply is read as JSON; any other reply becomes `{places: []}` |
| `NewItemClient.IsJson` | src/app/components/NewItemClient.jsx:126-134 | a reply is read as JSON exactly when its content type contains `application/json`; a missing header never does |
| `NewItemClient.AnswerText` | src/app/components/NewItemClient.jsx:152-154 | a falsy answer is ''; a string is itself; any other value makes `.match` throw |
| `NewItemClient.BuildItem` | src/app/components/NewItemClient.jsx:124-169 | an item is built exactly when neither reply half throws; otherwise the error is that of the first failing step in reading order (guidance parse, places parse, `places` read, mapping, `answer` read, `.match`); the record has the hash, the chosen label as name, the preview or '' as photo, the clock, the looked-up confidence, the mapped locations and the parsed guidance |
| `NewItemClient.NonJsonPlacesHaveNoLocations` | src/app/components/NewItemClient.jsx:133-145 | a places reply that is not JSON always reads; the item is then built exactly when the guidance half reads, and has no recycling locations |
| `NewItemClient.GuidanceErrorIsNeutral` | src/app/components/NewItemClient.jsx:151-158 | every reply of the guidance route as written to a request without `userText` reads; the item is built exactly when the places half reads, with 'Neutral' and an empty description |
| `NewItemClient.IntendedGuidanceIsParsed` | src/app/components/NewItemClient.jsx:151-158 | with the corrected guidance route, the reply reads; the item is built exactly when the places half reads, with the outcome and description parsed from the model's text |
| `NewItemClient.Classified` | src/app/components/NewItemClient.jsx:69-88 | a non-ok reply alerts "Failed: API error: status"; a rejected fetch or an unparsable body alerts "Failed: " and its message; a parsed body that is not a success with a prediction list alerts "Error: " and its `error`, or "Classification failed" when that is empty; a successful body with a prediction list gives that list |
| `NewItemClient.UploadForm.constructor` | src/app/components/NewItemClient.jsx:13-19 | the form starts with no image or preview, no predictions, empty label and text, and not busy |
| `NewItemClient.CanSubmitMeaning` | src/app/components/NewItemClient.jsx:95 | the submission guard passes exactly when the text has a non-blank character and a label is chosen |
| `NewItemClient.UploadForm.ProcessFile` | src/app/components/NewItemClient.jsx:22-34 | a file is accepted exactly when its type is one of the four allowed types; otherwise it is refused with the alert; no file is a no-op; nothing else changes |
| `NewItemClient.UploadForm.PreviewLoaded` | src/app/components/NewItemClient.jsx:31-32 | the data URL becomes the preview; nothing else changes |
| `NewItemClient.UploadForm.HandleRemove` | src/app/components/NewItemClient.jsx:56-62 | image, preview, predictions, label and text are cleared, the busy flag is kept, and the form can no longer submit |
| `NewItemClient.UploadForm.ClassifyImage` | src/app/components/NewItemClient.jsx:64-92 | without an image nothing happens; otherwise the predictions become the new list with element 0's label selected ('' for an empty list), or are cleared with the alert; the busy flag ends false |
| `NewItemClient.UploadForm.SubmitToGemini` | src/app/components/NewItemClient.jsx:94-198 | nothing happens unless the text is non-blank and a label is chosen; each failure gives its alert and leaves the store unchanged; a saved item is the assembled record plus the position, and the page moves to `/dashboard/uid/items/hash` |
| `UserDashboard.InitialItems` | src/app/components/UserDashboardClient.jsx:12 | the given list when it is an array, else the empty list |
| `UserDashboard.Matches` | src/app/components/UserDashboardClient.jsx:35-38 | an item matches exactly when its lower-cased name or description contains the lower-cased query; a missing field never matches |
| `UserDashboard.FilterByMembers` | src/app/components/UserDashboardClient.jsx:35-38 | `FilterBy` keeps exactly the elements that pass the test, and nothing when none passes |
| `UserDashboard.FilterByAppend` | src/app/components/UserDashboardClient.jsx:35-38 | `FilterBy` distributes over concatenation, so kept items keep their relative order |
| `UserDashboard.Search` | src/app/components/UserDashboardClient.jsx:35-38 | an item is kept exactly when it is listed and matches the query |
| `UserDashboard.SearchMeaning` | src/app/components/UserDashboardClient.jsx:35-38 | an item matches exactly when its lower-cased name or description contains the lower-cased query |
| `UserDashboard.SearchIgnoresQueryCase` | src/app/components/UserDashboardClient.jsx:36-37 | lower-casing the query does not change the result |
| `UserDashboard.EmptyQueryKeepsDescribed` | src/app/components/UserDashboardClient.jsx:35-38 | the empty query keeps exactly the items with a name or a description |
| `UserDashboard.LocaleCompare` | src/app/components/UserDashboardClient.jsx:47-49 | the result is -1, 0 or 1, and 0 exactly for equal names |
| `UserDashboard.LocaleCompareAntisymmetric` | src/app/components/UserDashboardClient.jsx:47-49 | swapping the operands negates the result |
| `UserDashboard.LocaleCompareTransitive` | src/app/components/UserDashboardClient.jsx:47-49 | the name order is transitive |
| `UserDashboard.Compare` | src/app/components/UserDashboardClient.jsx:40-53 | 'newest' puts the later `createdAt` first, 'oldest' the earlier, 'a-z'/'z-a' compare names (0 exactly for equal names), and any other key ties everything |
| `UserDashboard.CompareAntisymmetric` | src/app/components/UserDashboardClient.jsx:40-53 | every comparator of the page is antisymmetric |
| `UserDashboard.CompareTransitive` | src/app/components/UserDashboardClient.jsx:40-53 | every comparator of the page is transitive, strictly so when one step is strict |
| `UserDashboard.InsertPermutes` | src/app/components/UserDashboardClient.jsx:40-53 | `Insert` adds exactly the one item |
| `UserDashboard.InsertSorted` | src/app/components/UserDashboardClient.jsx:40-53 | `Insert` into an ordered list keeps it ordered |
| `UserDashboard.SortByCorrect` | src/app/components/UserDashboardClient.jsx:40-53 | `SortBy` returns a copy ordered by the comparator that is a permutation of the filtered list |
| `UserDashboard.SortByStable` | src/app/components/UserDashboardClient.jsx:40-53 | in `SortBy`'s result, items the comparator ties keep their filtered order |
| `UserDashboard.UnknownKeyKeepsOrder` | src/app/components/UserDashboardClient.jsx:50-51 | an unknown sort key leaves the filtered order unchanged |
| `UserDashboard.SortKeysMeaning` | src/app/components/UserDashboardClient.jsx:42-49 | 'newest' is createdAt descending, 'oldest' ascending, 'a-z' name ascending, 'z-a' descending |
| `UserDashboard.Visible` | src/app/components/UserDashboardClient.jsx:34-53 | the displayed list is ordered and is a permutation of the search result |
| `UserDashboard.EmptyStates` | src/app/components/UserDashboardClient.jsx:246-263 | "No items yet" shows exactly when there are no items; "No items found" exactly when there are items and none matches |
| `FirebaseDBHelpers.Project` | src/app/lib/firebaseFunctions/firebaseDB/firebaseDBHelpers.js:41-49 | the stored record carries the item's seven stored fields unchanged |
| `FirebaseDBHelpers.ProjectionForgetsHashAndLocation` | src/app/lib/firebaseFunctions/firebaseDB/firebaseDBHelpers.js:41-49 | neither the hash nor the user location is stored |
| `FirebaseDBHelpers.PutThenRead` | src/app/lib/firebaseFunctions/firebaseDB/firebaseDBHelpers.js:31-49 | after `Put`, the written key reads back the projection; the user's other keys are untouched |
| `FirebaseDBHelpers.PutOtherUser` | src/app/lib/firebaseFunctions/firebaseDB/firebaseDBHelpers.js:33-39 | a write leaves every other user's collection unchanged |
| `FirebaseDBHelpers.PutOverwrites` | src/app/lib/firebaseFunctions/firebaseDB/firebaseDBHelpers.js:41-49 | a second write to a key replaces the whole record |
| `FirebaseDBHelpers.RemoveThenRead` | src/app/lib/firebaseFunctions/firebaseDB/firebaseDBHelpers.js:109-118 | after `Remove` the key is gone and the other keys and users are unchanged |
| `FirebaseDBHelpers.PutThenRemove` | src/app/lib/firebaseFunctions/firebaseDB/firebaseDBHelpers.js:109-118 | deleting a freshly written key restores the collection |
| `FirebaseDBHelpers.ItemStore.AddItemToUser` | src/app/lib/firebaseFunctions/firebaseDB/firebaseDBHelpers.js:30-50 | the store becomes the upsert of the projection at the item's hash |
| `FirebaseDBHelpers.ItemStore.GetUserItems` | src/app/lib/firebaseFunctions/firebaseDB/firebaseDBHelpers.js:52-80 | one entry per stored key, each holding the stored projection |
| `FirebaseDBHelpers.ItemStore.GetItemByHash` | src/app/lib/firebaseFunctions/firebaseDB/firebaseDBHelpers.js:82-107 | intended behaviour: null exactly when the key is absent, otherwise the single-entry object |
| `FirebaseDBHelpers.ItemStore.DeleteItemFromUser` | src/app/lib/firebaseFunctions/firebaseDB/firebaseDBHelpers.js:109-118 | intended behaviour: the store loses the one key |
| `FirebaseDBHelpers.ItemStore.GetItemByHashAsWritten` | src/app/lib/firebaseFunctions/firebaseDB/firebaseDBHelpers.js:90 | as written, every call rejects with "getDoc is not defined" |
| `FirebaseDBHelpers.ItemStore.DeleteItemFromUserAsWritten` | src/app/lib/firebaseFunctions/firebaseDB/firebaseDBHelpers.js:117 | as written, every call rejects with "deleteDoc is not defined" |
| `FirebaseDBHelpers.AddThenGet` | src/app/lib/firebaseFunctions/firebaseDB/firebaseDBHelpers.js:41-106 | after a write, both readers return the projection of what was written |
| `FirebaseDBAuth.NewProfile` | src/app/lib/firebaseFunctions/firebaseAuth/firebaseDBAuth.js:7-14 | a new profile has the email, `lastLogin` equal to `createdAt`, and no items |
| `FirebaseDBAuth.MergeLastLogin` | src/app/lib/firebaseFunctions/firebaseAuth/firebaseDBAuth.js:33-38 | only `lastLogin` changes; a missing document is created with that field alone; other users are untouched |
| `FirebaseDBAuth.LoginKeepsProfile` | src/app/lib/firebaseFunctions/firebaseAuth/firebaseDBAuth.js:33-38 | a login keeps the created profile's email, creation time and items |
| `FirebaseDBAuth.CreateOverwrites` | src/app/lib/firebaseFunctions/firebaseAuth/firebaseDBAuth.js:16-18 | creating a profile again discards the previous document |
| `FirebaseDBAuth.ProfileStore.CreateUserProfile` | src/app/lib/firebaseFunctions/firebaseAuth/firebaseDBAuth.js:4-19 | the document at the uid is replaced by the new profile |
| `FirebaseDBAuth.ProfileStore.GetUserProfile` | src/app/lib/firebaseFunctions/firebaseAuth/firebaseDBAuth.js:21-31 | the stored profile when the document exists, null otherwise |
| `FirebaseDBAuth.ProfileStore.UpdateUserLastLogin` | src/app/lib/firebaseFunctions/firebaseAuth/firebaseDBAuth.js:33-38 | the store becomes the merge of `lastLogin` |
| `GeminiRoute.BodyJson` | src/app/api/gemini/route.jsx:54-57 | the reply body has `success`, and has `answer` exactly on success |
| `GeminiRoute.Prompt` | src/app/api/gemini/route.jsx:31 | the prompt is the fixed prefix, the label, the separator, the user's text and the fixed suffix, in that order |
| `GeminiRoute.ErrorResponse` | src/app/api/gemini/route.jsx:59-89 | "API key" gives 401; otherwise "quota" or "rate limit" gives 429; otherwise "blocked" or "safety" gives 400; otherwise 500 with the message as details; each status carries its own fixed `error` text |
| `GeminiRoute.AfterCall` | src/app/api/gemini/route.jsx:31-57 | once the prompt is sent: 200 with the text exactly when the model answered; a throw gets the catch block's status and body; a missing response gives 500 'No response from AI model' |
| `GeminiRoute.Post` | src/app/api/gemini/route.jsx:8-91 | as written: an unset key gives 401; no text gives 400; a missing `userText` with a label gives the generic 500; the model is asked exactly when key and `userText` are present; then its answer is returned with 200, a throw goes through the catch block with the prompt recorded, and a missing response gives 500 'No response from AI model' |
| `GeminiRoute.PostIntended` | src/app/api/gemini/route.jsx:8-91 | corrected: a missing `userText` counts as ''; the model is asked whenever key and a label or text are present; its answer, a throw and a missing response are handled as in `Post` |
| `GeminiRoute.ConstAssignMessageMatchesNothing` | src/app/api/gemini/route.jsx:62-89 | the reassignment's TypeError message holds none of the five keywords |
| `GeminiRoute.LabelOnlyRequest` | src/app/api/gemini/route.jsx:17-26 | a label-only request gets the generic 500 and no model call as written, and the model's answer once corrected |
| `PlacesRoute.SearchBodyPaths` | src/app/api/places/route.jsx:32-45 | the upstream body holds the query, page size, ranking and a circle of the radius around the coordinates |
| `PlacesRoute.SearchBody` | src/app/api/places/route.jsx:32-45 | the upstream body has exactly the four top-level keys `textQuery`, `pageSize`, `rankPreference` and `locationBias` |
| `PlacesRoute.ErrorBody` | src/app/api/places/route.jsx:61-67 | an error body has `success: false` and the message; `stack` is present exactly in development |
| `PlacesRoute.AfterFetch` | src/app/api/places/route.jsx:49-67 | 200 exactly when the upstream reply is ok and parses, with the parsed JSON; a rejected fetch, a non-ok reply ('Google Places API error: ' and the status text) and an unparsable body each give 500 with that message |
| `PlacesRoute.Post` | src/app/api/places/route.jsx:3-69 | an unreadable or null body crashes with its error; a falsy query or coordinate gives 400; a missing key then gives 500 'API configuration error'; the provider is asked exactly when all three are truthy and the key is set, with defaults applied only to undefined fields, and the reply is then `AfterFetch`'s |
| `PlacesRoute.MissingKeyIsConfigurationError` | src/app/api/places/route.jsx:13-19 | after validation passes, a missing key gives 500 'API configuration error' and no request |
| `PlacesRoute.ExplicitRadiusKept` | src/app/api/places/route.jsx:21 | an explicit radius, even 0 or null, is forwarded as given |
| `PlacesRoute.ZeroCoordinateRefused` | src/app/api/places/route.jsx:6-11 | a coordinate of 0 is refused with 400 and no request |
| `ClassificationRoute.ErrorBody` | src/app/api/classification/route.jsx:41-46 | an error body has `success: false` and the message; `stack` is present exactly in development |
| `ClassificationRoute.UpstreamErrorMessage` | src/app/api/classification/route.jsx:29-31 | the message is 'Hugging Face API error (', the status in decimal, '): ', then the reply text or, when that is empty, the status text, with nothing else in between |
| `ClassificationRoute.Post` | src/app/api/classification/route.jsx:3-48 | no image gives 400 and no request; otherwise the bytes go upstream with the image's type or 'image/jpeg'; a non-ok reply gives 500 with the formatted message, a rejected fetch and an unparsable body 500 with their own messages; success returns the upstream JSON unchanged |
| `ClassificationRoute.StatusReadBack` | src/app/api/classification/route.jsx:31 | the status code can be read back from the error message, between the prefix and the first `)` |
| `Text.TrimMeaning` | src/app/components/NewItemClient.jsx:95 | `Trim` returns a slice that neither starts nor ends with whitespace, and only whitespace is cut off on either side |
| `Text.TrimUnique` | src/app/components/NewItemClient.jsx:156-157 | any slice with those properties is the trimmed text, so the trim is fully characterised by them |
| `Text.SkipWhite` | src/app/components/NewItemClient.jsx:154-155 | `\s*` drops a blank prefix and what is left starts with a non-blank |
| `Text.SkipWhiteOver` | src/app/components/NewItemClient.jsx:154-155 | `\s*` in front of a non-blank consumes exactly the blanks before it |
| `Text.TrimLeadingBlank` | src/app/components/NewItemClient.jsx:155-157 | a blank in front of the captured details does not change their trim |
| `Text.IndexOf` | src/app/components/NewItemClient.jsx:154-155 | the first occurrence, or none exactly when the pattern does not occur |
| `Text.Includes` | src/app/components/UserDashboardClient.jsx:36-37 | true exactly when the pattern occurs |
| `Text.Lower` | src/app/components/UserDashboardClient.jsx:36-37 | `toLowerCase` keeps the length and maps each character by itself: each of A-Z to the letter 32 code points later (a-z), every other character unchanged |
| `Text.TakeLine` | src/app/components/NewItemClient.jsx:154 | `[^\n]*` takes the longest line-free prefix: it stops at the first newline or at the end |
| `Text.NatToString` | src/app/api/classification/route.jsx:31 | a status renders as a non-empty string of decimal digits with no leading zero |
| `Text.NatToStringRoundTrip` | src/app/api/classification/route.jsx:31 | the decimal rendering of a status reads back as the status |

## Left out

- Network and hosted services are not modelled. The fetch calls, the generative-model SDK, and the document store's consistency and failures are all out; their outcomes are inputs.
- Browser APIs are not modelled. `FileReader` appears only as its resulting data URL. `navigator.geolocation` appears only as its answer. The two requests are joined by `Promise.all`, and only the pair of replies or the rejection message is modelled.
- `uuidv4` and `new Date()` are not modelled. The hash and the clock are parameters, and `createdAt` is an integer.
- `handleFileSelect`, `handleDrop`, `handleDragOver` and `handleDragLeave` are left out: they only forward the first file to `processFile` or toggle the presentational `isDragging` flag.
- Rendering is left out, along with the maps route, the item page, the layout, the landing page and the build configuration.
- `UserDashboard.Compare` compares a missing name as '' on both sides. In the source, a missing name on the receiver (`a` under 'a-z', `b` under 'z-a') makes `itemName.localeCompare` throw a TypeError. A missing name only on the argument does not throw: `localeCompare(undefined)` compares against the string "undefined".
- `UserDashboard.Compare` takes `createdAt` as milliseconds. The source subtracts `Date` objects, which gives NaN for store timestamps.
- `UserDashboard.LocaleCompare` is lexicographic order by code point, not locale collation.
- `Text.Lower` folds only ASCII letters.
- `NewItemClient.Classified` reads the classifier route's body as a typed record. An element of `wastePredictions` that is not an object with a string label and a numeric score is not modelled.
- `NewItemClient.UploadForm.SubmitToGemini` treats the store write as always succeeding. A rejected write would end in the "Failed: " alert.
- Messages of thrown TypeErrors and ReferenceErrors follow V8's wording. The upload component shows such a message in its "Failed: " alert, and the Gemini route returns it as `details` of its generic 500. The places route's TypeError for a null body is thrown outside its `try`, so no reply of the route carries it.
- `GeminiRoute.Post` does not model `request.formData()` failing before the field checks.
- `ClassificationRoute.Post` does not model `image.arrayBuffer()` failing outside the `try`, or an `image` entry that is a string rather than a file.
- `PlacesRoute.Post` does not model the framework's reply to a crash, which happens outside the `try`.
- Numbers are opaque reals. No arithmetic is done on scores or coordinates, and NaN does not arise from parsed JSON.

## Findings

| source | as written | input that shows it | evidently intended | confidence | as-written member | corrected member |
|---|---|---|---|---|---|---|
| src/app/api/gemini/route.jsx:26 | `userText` is a `const` (line 17). Assigning "" to it when it is falsy throws a TypeError, which ends in the generic 500 without any model call | key set, `huggingfaceText` = "plastic bottle", no `userText` (the upload component never sends one) | a missing `userText` is taken as "" and the model is asked with the label | not executed | GeminiRoute.Post | GeminiRoute.PostIntended |
| src/app/lib/firebaseFunctions/firebaseDB/firebaseDBHelpers.js:90 | `getDoc` is called but not imported (line 2), so every call rejects with a ReferenceError | any user id and hash | null for an absent key, else the single-entry object | not executed | FirebaseDBHelpers.ItemStore.GetItemByHashAsWritten | FirebaseDBHelpers.ItemStore.GetItemByHash |
| src/app/lib/firebaseFunctions/firebaseDB/firebaseDBHelpers.js:117 | `deleteDoc` is called but not imported (line 2), so every call rejects with a ReferenceError and nothing is deleted | any user id and hash | the key is removed from the user's collection | not executed | FirebaseDBHelpers.ItemStore.DeleteItemFromUserAsWritten | FirebaseDBHelpers.ItemStore.DeleteItemFromUser |
