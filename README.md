# DNCL Receive App — a Dafny model of the intake core

The app is a mobile photo-intake form. An operator first confirms their
name in a modal. They then enter a tracking number, take a front photo, a
back photo and up to five optional detail photos with notes, and submit.
Two receivers exist:

- the Next.js route `POST /api/session`, which the form posts to;
- a standalone Express server (`backend/index.js`), which stores the photos
  in S3 and appends a metadata record to a list it writes to a JSON file.

The model covers the logic under the markup, one module per source file:

- `JsText` (js_text.dfy): the JavaScript string behaviour the code relies on.
  This is `trim` (the ECMAScript whitespace and line-terminator set) and
  the decimal rendering of `Date.now()`.
- `Multipart` (multipart.dfy): `FormData` as an ordered list of named
  fields, with `get` (first match) and `getAll`.
- `Storage` (storage.dfy, app/utils/storage.ts): `localStorage` as a
  `map<string, string>` held by a `LocalStorage` object whose `available`
  flag says whether every access throws.
- `OperatorGate` (operator_gate.dfy, app/components/OperatorModal.tsx): the
  modal as a class with its handlers. Beside it sits a pure transition
  function `Step` over the rendered modal, used for the multi-event
  properties (blocked is terminal, the date is fixed, a confirmed name is
  trimmed and non-empty).
- `SessionRoute` (session_route.dfy, app/api/session/route.ts): the route
  as a pure function over the parsed body and the clock.
- `IntakeForm` (intake_form.dfy, app/page.tsx): the `Home` component as a
  class `FormPage` whose fields are its state hooks. The detail-list
  updates and `validateForm` are pure functions. The payload is built by a
  loop method proved against the `Payload` function.
- `IntakeServer` (intake_server.dfy, backend/index.js): the server as a
  class holding the in-memory list, the metadata file and the bucket's
  keys. The handler's upload loop is proved against the upload plan.
- `EndToEnd` (end_to_end.dfy): how the form's payload meets both receivers.

What the proofs show about the receivers:

- A payload from a validated form with acceptable photos passes every route
  guard.
- The form itself checks neither type nor size; only the route does.
- The Express server pairs the i-th uploaded detail photo with the i-th
  note it reads under the key `detailsNotes[]`. The form sends no image
  field for a detail without a photo, so a detail without a photo placed
  before one with a photo shifts the notes
  (`EndToEnd.PairingShiftsNotesPastDetailsWithoutPhoto`). When every detail
  has a photo and the notes arrive under that key, the pairing is exact.
  Whether they do depends on the multipart parser, which is not modelled
  (see "Left out").
- The route enforces the 5 MiB limit and the MIME allow-list.
- The form checks neither before sending.
- The validation messages are those of app/page.tsx:88-96.

I/O is turned into parameters:

- the `fetch` outcome is the boolean `fetchOk`;
- `Date.now()`, `Math.random()` and `new Date().toISOString()` are fields
  of `RequestEnv` or plain arguments;
- each S3 put's success is `RequestEnv.putOk`, indexed by upload number;
- the metadata file write's success is `RequestEnv.writeOk`;
- the metadata file at start-up is a `StoredMetadata` value;
- `getToday()` is the page constructor's `today` argument.

## Model

| member | source | states |
|---|---|---|
| JsText.TrimStart | app/page.tsx:87 | the result is the suffix of the input left after dropping leading whitespace; it does not start with whitespace |
| JsText.TrimEnd | app/page.tsx:87 | the result is the prefix of the input left after dropping trailing whitespace; it does not end with whitespace |
| JsText.Trim | app/components/OperatorModal.tsx:29 | `trim` returns a slice of its input with blank text on both sides, starting and ending with non-whitespace |
| JsText.TrimEmptyIffBlank | app/page.tsx:87 | a string trims to '' exactly when all of its characters are whitespace |
| JsText.TrimIdempotent | app/components/OperatorModal.tsx:33 | trimming an already trimmed name changes nothing |
| JsText.DecimalString | app/api/session/route.ts:54 | a clock reading renders as a non-empty run of decimal digits with no leading zero |
| JsText.DecimalRoundTrip | backend/index.js:61 | reading back the decimal rendering of a number gives the number |
| Multipart.FirstIndex | app/api/session/route.ts:8-12 | the index found is the first field with the name, or the length when there is none |
| Multipart.Get | app/api/session/route.ts:8-12 | `formData.get` is null exactly when no field has the name |
| Multipart.GetAt | app/api/session/route.ts:8-12 | `get` returns a field's value when no earlier field has that name |
| Multipart.GetAllAbsent | app/page.tsx:109-118 | `getAll` is empty when no field has the name |
| Multipart.GetAllAppend | app/page.tsx:115-118 | appending fields appends what `getAll` finds |
| Multipart.GetPrefix | app/page.tsx:110-114 | fields appended after a name's first field do not change what `get` returns for it |
| Storage.ItemOrEmpty | app/utils/storage.ts:26-27 | a missing key reads as ''; a present key reads as its value |
| Storage.SaveOperatorData | app/utils/storage.ts:13-19 | both keys are written with the given name and date; a throwing store is left unchanged and nothing propagates |
| Storage.LoadOperatorData | app/utils/storage.ts:23-32 | reads both keys, '' for a missing key, and {'', ''} when the store throws |
| Storage.ClearOperatorData | app/utils/storage.ts:36-42 | both keys are removed; a throwing store is left unchanged |
| Storage.KeysDiffer | app/utils/storage.ts:1-4 | the two namespaced keys are distinct |
| Storage.SaveWritesOnlyOperatorKeys | app/utils/storage.ts:13-16 | a save adds exactly the two operator keys, with the given values, and keeps every other key |
| Storage.LoadAfterSave | app/utils/storage.ts:13-28 | loading after saving {name, date} gives {name, date} |
| Storage.LoadAfterClear | app/utils/storage.ts:23-40 | loading after a clear gives {'', ''}; a clear keeps every other key |
| OperatorGate.Initial | app/components/OperatorModal.tsx:12-15 | a new modal holds initialName and initialDate, with no error, unblocked |
| OperatorGate.Confirm | app/components/OperatorModal.tsx:28-34 | a name that trims to '' sets 'Please enter your name' and confirms nothing; otherwise onConfirm gets the trimmed name and the date |
| OperatorGate.Step | app/components/OperatorModal.tsx:18-85 | one event keeps the date; it blocks exactly on Escape or a backdrop click; it never unblocks; it confirms exactly on Ready when unblocked with a non-blank name |
| OperatorGate.BlockedIsTerminal | app/components/OperatorModal.tsx:50-85 | from a blocked modal no event sequence confirms or unblocks |
| OperatorGate.Run | app/components/OperatorModal.tsx:13 | no event sequence changes the date |
| OperatorGate.ConfirmationIsFinal | app/page.tsx:141-147 | once the modal has confirmed, the page stops rendering it, so later events change neither its state nor the confirmation |
| OperatorGate.ConfirmedIdentityIsTrimmed | app/components/OperatorModal.tsx:28-34 | whatever the events, a confirmed name is non-empty and already trimmed, and the date is the initial one |
| OperatorGate.DismissalBlocks | app/components/OperatorModal.tsx:19-23 | Escape and a backdrop click block an unconfirmed modal; a card click does not |
| OperatorGate.ReadyConfirmsTrimmedName | app/components/OperatorModal.tsx:33 | a fresh modal with a non-blank name confirms the trimmed name and the initial date on Ready |
| OperatorGate.OperatorModal.constructor | app/components/OperatorModal.tsx:11-15 | the state hooks start as Initial(initialName, initialDate) |
| OperatorGate.OperatorModal.HandleKeyDown | app/components/OperatorModal.tsx:18-26 | Escape sets blocked; other keys change nothing |
| OperatorGate.OperatorModal.HandleBackdropClick | app/components/OperatorModal.tsx:37-39 | a backdrop click sets blocked |
| OperatorGate.OperatorModal.HandleNameChange | app/components/OperatorModal.tsx:61 | typing sets the name |
| OperatorGate.OperatorModal.HandleConfirm | app/components/OperatorModal.tsx:28-34 | the handler acts as Confirm on the modal's state |
| OperatorGate.OperatorModal.Deliver | app/components/OperatorModal.tsx:42-85 | delivering an event through the rendered modal acts as Step |
| SessionRoute.Post | app/api/session/route.ts:3-78 | the guards run in order (fields, images, types, sizes) and the first failure gives its 400; an unparseable body gives 500; 200 exactly when all pass, with session_id 'session_' + the clock |
| SessionRoute.AllowedTypesAreExactly | app/api/session/route.ts:30-31 | a file's type passes exactly when it is image/jpeg, image/png or image/jpg |
| SessionRoute.SizeLimitIsStrict | app/api/session/route.ts:39-40 | an image of exactly 5 MiB passes; one byte more fails |
| SessionRoute.SessionIdEncodesClock | app/api/session/route.ts:54 | a success's session_id is 'session_' followed by digits that read back as the clock |
| IntakeForm.AddDetail | app/page.tsx:71-75 | with MAX_DETAILS = 5 (app/page.tsx:23): below five entries one {image: null, note: ''} is appended; at five the list is unchanged; the length never exceeds five |
| IntakeForm.WithDetailImage | app/page.tsx:76-81 | only entry idx changes, only its image; the length and all other entries are kept |
| IntakeForm.WithDetailNote | app/page.tsx:82-84 | only entry idx changes, only its note; the length and all other entries are kept |
| IntakeForm.MessagesDiffer | app/page.tsx:88-96 | the three validation messages are distinct |
| IntakeForm.Validate | app/page.tsx:86-100 | passes exactly when the trimmed tracking number is non-empty and both photos are present; otherwise gives the first failing check's message, in the fixed order |
| IntakeForm.IsFormValid | app/page.tsx:137 | isFormValid tests the tracking number untrimmed; when it holds, validateForm fails at most on the tracking-number check |
| IntakeForm.ValidatedFormIsSubmittable | app/page.tsx:137 | a form that validates has isFormValid true |
| IntakeForm.BlankTrackingEnablesButNotValidates | app/page.tsx:87 | the converse fails: a tracking number of spaces passes isFormValid but not validateForm |
| IntakeForm.ImagesOf | app/page.tsx:116 | at most one photo per detail; one per detail exactly when every detail has one, then in the same order |
| IntakeForm.EntryFieldsCarry | app/page.tsx:115-118 | one detail contributes one note field, and a photo field exactly when it has a photo |
| IntakeForm.DetailNotesCarried | app/page.tsx:115-118 | the detail fields hold every detail's note, in order |
| IntakeForm.DetailImagesCarried | app/page.tsx:115-118 | the detail fields hold the photos of the details that have one, in order |
| IntakeForm.RequiredFieldsFound | app/page.tsx:110-114 | `get` finds each of the five required fields with the value the form put there |
| IntakeForm.RequiredFieldsHoldNoDetails | app/page.tsx:110-114 | the five required fields hold no detail field |
| IntakeForm.Payload | app/page.tsx:109-118 | the FormData's first five fields are name, date, trackingNumber, image1 and image2, with the form's values |
| IntakeForm.PayloadShape | app/page.tsx:109-118 | the payload starts with name, date, trackingNumber, image1, image2; it has one detailsNotes[] per detail and one detailsImages[] per detail with a photo |
| IntakeForm.BuildPayload | app/page.tsx:109-118 | the forEach loop builds exactly the Payload |
| IntakeForm.FormPage.constructor | app/page.tsx:27-40 | the page starts unconfirmed, with an empty name, today's date, an empty form, idle status and no error |
| IntakeForm.FormPage.LoadSavedOperator | app/page.tsx:43-47 | a saved name or date replaces the current one only when it is non-empty |
| IntakeForm.FormPage.Mount | app/page.tsx:43-47 | the modal starts with the page's values from before the mount effect; the page then adopts the saved identity |
| IntakeForm.FormPage.MountPrefilled | app/page.tsx:141-147 | with the load done first, a saved name is the modal's initial name |
| IntakeForm.FormPage.HandleOperatorConfirm | app/page.tsx:50-55 | the identity is adopted and saved, and the page becomes confirmed |
| IntakeForm.FormPage.DeliverToModal | app/page.tsx:141-147 | the page confirms exactly when the modal does; it then holds the trimmed name and the modal's date, which load back from the store |
| IntakeForm.FormPage.HandleInputChange | app/page.tsx:57-59 | typing sets the tracking number |
| IntakeForm.FormPage.HandleImageCapture | app/page.tsx:61-64 | a capture fills its own slot and leaves the other unchanged |
| IntakeForm.FormPage.HandleImageRemove | app/page.tsx:65-68 | a removal empties its own slot and leaves the other unchanged |
| IntakeForm.FormPage.HandleAddDetail | app/page.tsx:71-75 | the list becomes AddDetail of itself and stays within five |
| IntakeForm.FormPage.HandleDetailImage | app/page.tsx:76-78 | the list becomes WithDetailImage with the file |
| IntakeForm.FormPage.HandleDetailRemoveImage | app/page.tsx:79-81 | the list becomes WithDetailImage with null |
| IntakeForm.FormPage.HandleDetailNote | app/page.tsx:82-84 | the list becomes WithDetailNote |
| IntakeForm.FormPage.ValidateForm | app/page.tsx:86-100 | returns whether Validate passes; on failure errorMessage is the first failing message |
| IntakeForm.FormPage.Send | app/page.tsx:105-134 | posts the Payload. On success the form is reset, status is success and the error is cleared. On failure the form is kept, status is error with the retry message. isSubmitting ends false |
| IntakeForm.FormPage.HandleSubmit | app/page.tsx:102-135 | a form that fails validation sends nothing and only the error message changes; otherwise it acts as Send, and the operator is never touched |
| IntakeForm.SavedNameNeverPrefills | app/page.tsx:43-47 | on a fresh page with a saved name, the modal's name stays '' while the page holds the saved name |
| IntakeForm.SavedNamePrefillsWhenLoadedFirst | app/page.tsx:141-147 | with the intended order, the modal's name is the saved name |
| IntakeServer.NormaliseNotes | backend/index.js:89 | an array stays as it is; a truthy single value becomes a one-element list; absent or '' becomes [] |
| IntakeServer.PairDetails | backend/index.js:125-128 | one entry per detail photo URL, in order; entry i has notes[i], or '' when there is no such note; extra notes are dropped |
| IntakeServer.HasClient | backend/index.js:29 | a client exists exactly when the access key, the secret and the region are all non-empty |
| IntakeServer.UploadsEnabled | backend/index.js:99 | photos are uploaded exactly when there is a client, a bucket and a region |
| IntakeServer.RequiredPresent | backend/index.js:91 | the request is complete exactly when name, date and trackingNumber are non-empty and both photos arrived |
| IntakeServer.S3Key | backend/index.js:61 | the key starts with its prefix, and the rest splits back into the clock reading and the original name |
| IntakeServer.PublicUrl | backend/index.js:73-76 | the key can be read back from the public URL of a given bucket and region |
| IntakeServer.SplitStampRoundTrip | backend/index.js:61 | the part of a key after its prefix splits back into the clock reading and the original name |
| IntakeServer.KeysDetermineStampAndName | backend/index.js:61 | under one prefix, equal keys mean the same clock reading and the same file name |
| IntakeServer.PrimaryAndDetailKeysDiffer | backend/index.js:100-105 | a primary photo's key never equals a detail photo's key |
| IntakeServer.PlannedUrlsGiveKeys | backend/index.js:102-106 | each recorded URL reads back as the key of its upload |
| IntakeServer.FirstFailedPut | backend/index.js:100-106 | every upload before the first failing one succeeds, and that one fails |
| IntakeServer.SessionId | backend/index.js:119 | the record id splits back into the clock reading and the random suffix |
| IntakeServer.BuildRecord | backend/index.js:118-130 | the record carries the request's name, date and tracking number, the two photo URLs, and the paired details |
| IntakeServer.DegradedRecordHasNoDetails | backend/index.js:96-98 | in degraded mode the URLs are 'S3_NOT_CONFIGURED' and details is [] |
| IntakeServer.InitialMetadata | backend/index.js:43-50 | a missing or unparseable metadata file gives an empty list |
| IntakeServer.SessionServer.constructor | backend/index.js:43-50 | the in-memory list starts as InitialMetadata of the file |
| IntakeServer.SessionServer.UploadToS3 | backend/index.js:56-71 | gives null without a client or bucket; otherwise stores the object under prefix + clock + '_' + name and returns that key; a failed put stores nothing |
| IntakeServer.SessionServer.UploadAll | backend/index.js:99-107 | uploads run in order up to the first failed put and stay in the bucket; on success it gives every upload's public URL |
| IntakeServer.SessionServer.HandleSession | backend/index.js:79-139 | a missing required field gives 400 and changes nothing; a failed S3 put gives 500, appends no record and leaves the earlier uploads in the bucket; otherwise exactly one record is appended (with placeholder URLs and no details in degraded mode), the file is rewritten with the whole list and the reply carries the record, or, when the write fails, 500 with the record kept in memory |
| EndToEnd.PayloadAcceptedByRoute | app/page.tsx:109-122 | the route accepts a form payload with a non-empty name, date and tracking number and two photos of allowed type and size |
| EndToEnd.OversizedPhotoRefusedOnlyByRoute | app/api/session/route.ts:39-45 | a validated form with an oversized photo is still sent; the route answers 400 'File size too large' |
| EndToEnd.PairingKeepsNotesWhenEveryDetailHasPhoto | backend/index.js:125-128 | when every detail has a photo, each photo URL gets the note typed beside it |
| EndToEnd.PairingShiftsNotesPastDetailsWithoutPhoto | backend/index.js:125-128 | a detail without a photo placed before one with a photo gives that photo the earlier detail's note |

## Findings

| source | as written | input that shows it | evidently intended | confidence | as-written member | corrected member |
|---|---|---|---|---|---|---|
| app/page.tsx:43-47 | The modal is mounted with `initialName={operatorName}` while that value is still ''. Its `useState(initialName)` reads the prop only at mount. The mount effect then loads the saved name into the page, too late for the modal. | A page load with `dncl_operator_name` = "Ana" in localStorage: the modal's name field is '' | The saved name pre-fills the modal's name field | not executed; follows from React's rule that a state initialiser is read once at mount | IntakeForm.SavedNameNeverPrefills | IntakeForm.FormPage.MountPrefilled |

## Left out

- app/components/CameraCapture.tsx and app/components/ImagePreview.tsx:
  media streams, canvas encoding and rendering, with no state logic beyond
  open and close flags. The photos reach the model as `File` values.
- All JSX, CSS and React effect scheduling. React's batched state updates
  are modelled as the final values the setters leave. The intermediate
  `isSubmitting = true` is set in `Send` but is not visible to any caller.
- The `fetch` call and its response body: only success or failure is modelled.
- How multer parses the multipart body. The Express handler's input is the
  `req.body` and `req.files` values as the handler reads them. Repeated
  `name`, `date` or `trackingNumber` fields, which would arrive as arrays,
  are not modelled.
- Temporary-file handling (`fs.unlinkSync`, `fs.readFileSync`) and its
  failures, the S3 object body, content type and ACL, dotenv, express
  routing, `app.listen`, CORS, and all console logging.
- The route's `sessionData` fields other than `session_id`: they are only
  logged.
- A metadata file that parses to something other than a list.
- The random id suffix's shape (up to six base-36 characters): it is an
  opaque string input.
- The lost-update race between concurrent requests rewriting the metadata
  file: a concurrency hazard outside a sequential model.
- A store that accepts the first `setItem` and throws on the second (quota):
  the model's store either works for every call or throws on every call.
- EndToEnd.PairingKeepsNotesWhenEveryDetailHasPhoto and
  EndToEnd.PairingShiftsNotesPastDetailsWithoutPhoto assume that the notes
  reach the handler under the literal key `detailsNotes[]`. multer parses
  field names with append-field, which reads `detailsNotes[]` as the array
  `detailsNotes`. In that case backend/index.js:89 reads no notes, and every
  detail record's note is ''. The parser is not modelled.
- IntakeForm.FormPage.Send: the submission is atomic. Events that arrive
  while the `await fetch` at app/page.tsx:119 is pending are not modelled.
  In the page, typing, captures and added details still apply then. A
  success then discards those edits (app/page.tsx:125-128). A failure keeps
  them, not the values the form had when it was sent.
- `clearOperatorData` has no caller in the page; it is modelled on its own.
