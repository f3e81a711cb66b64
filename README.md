# Pet store dashboard: client and form logic

A Dafny model of the logic inside a browser admin console for the Swagger
"Petstore" REST service. The console lists pets by status, and it creates,
edits and deletes them through modal dialogs. The model covers four parts:

- the Pet record and the request each client operation sends (`PetApi`);
- the flat form both modals edit, with its two conversions: form → Pet on
  submit and Pet → form when a pet is opened for editing (`PetForm`);
- the create and update modals as classes whose handlers update the form and
  the busy flags (`CreatePetModal`, `UpdatePetModal`);
- the pet list page as a class holding its ten state fields, one handler per
  event (`PetList`).

Two helper modules model the JavaScript built-ins the forms use. `Text`
covers `trim`, `split(',')` and `join`. `Numbers` covers decimal rendering
and `Number(field)`.

Nothing performs I/O. A client operation is a function, or a method, that
returns a `Request` value (verb, path, query, body). A handler that would
await a request takes what the request settles to as a `Result` parameter.
It returns the requests it issued.

Main results:

- The photo URLs loaded into the update form build back to the same list
  when they are canonical (`PetForm.PhotoUrlsRoundTrip`). A whole canonical
  pet also survives loading and rebuilding (`PetForm.LoadThenBuild`).
- Re-saving a saved pet without edits sends it unchanged
  (`PetForm.ResubmitIsStable`). The one exception is a URL field that is
  non-empty but blank (`PetForm.BlankUrlFieldIsNotStable`).
- Every id that is a safe integer (below 2^53) survives the form's
  `toString`/`Number` round trip (`Numbers.NumberRoundTrip`), and every
  `/pet/{petId}` path for such an id names its pet
  (`PetApi.TargetOfPetPath`).
- The page's handlers keep its invariant. `Page.Valid()` says: the only error
  message is the load failure, no pet is selected under id 0, and no delete
  is left running. Each handler states the page's whole new state.

## Model

| member | source | states |
|---|---|---|
| `Text.TrimStart` | src/components/create-pet-modal.tsx:56 | `trim` drops leading whitespace only: the result is a suffix, everything cut is whitespace, and it does not start with whitespace |
| `Text.TrimEnd` | src/components/create-pet-modal.tsx:71 | `trim` drops trailing whitespace only: the result is a prefix, everything cut is whitespace, and it does not end with whitespace |
| `Text.BlankIffAllSpace` | src/components/create-pet-modal.tsx:56 | the name check `!name.trim()` fails exactly when every character of the name is whitespace |
| `Text.Trim` | src/components/create-pet-modal.tsx:56 | `trim()` (also at line 71) is no longer than its input and neither starts nor ends with whitespace; `Text.TrimIsFramed` and `Text.TrimIdempotent` are its partners |
| `Text.TrimIsFramed` | src/components/create-pet-modal.tsx:56 | `trim()` keeps one substring of its input and everything it cuts before and after that substring is whitespace |
| `Text.TrimIdempotent` | src/components/create-pet-modal.tsx:71 | a trimmed URL is unchanged by trimming again |
| `Text.Split` | src/components/create-pet-modal.tsx:71 | `split(',')` yields one piece more than there are commas, and no piece holds a comma |
| `Text.JoinSplit` | src/components/create-pet-modal.tsx:71 | splitting on commas loses nothing: re-joining the pieces with a comma gives back the field |
| `Text.SplitJoin` | src/components/create-pet-modal.tsx:71 | `split(',')` inverts a comma-join: splitting a comma-join of comma-free parts gives back the parts |
| `Text.Join` | src/components/update-pet-modal.tsx:54 | `join(', ')` starts with the first URL, and the empty list joins to `''`; `Text.JoinSeparates`, `Text.SplitJoin` and `PetForm.SplitCommaSpaceJoin` are its partners |
| `Text.JoinSeparates` | src/components/update-pet-modal.tsx:54 | with two or more URLs, the separator `", "` follows the first one |
| `Numbers.NatToString` | src/api/pet-api.ts:57 | an id in a path is a non-empty run of digits with no leading zero |
| `Numbers.ParseNatToString` | src/api/pet-api.ts:57 | the digits written for an id read back as that id |
| `Numbers.NatToStringInjective` | src/api/pet-api.ts:66 | different ids are written differently |
| `Numbers.ToNumber` | src/components/create-pet-modal.tsx:77 | `Number(field)` is 0 for blank text, the value of the digits when the trimmed text is a run of decimal digits (so `" 007 "` reads as 7), and NaN exactly when the trimmed text is not blank and not all digits |
| `Numbers.NonNumericIsNaN` | src/components/create-pet-modal.tsx:77 | in this model's digit-only `Number`, trimmed text starting with a non-digit reads as NaN (JavaScript reads signs and fractions as numbers; see "Left out") |
| `Numbers.NumberToString` | src/components/update-pet-modal.tsx:52 | `id.toString()` (also at line 55) is non-empty, all digits for a whole id and `"NaN"` for NaN; `Numbers.NumberRoundTrip` is its partner |
| `Numbers.NumberRoundTrip` | src/components/update-pet-modal.tsx:52 | every id (and NaN) written into a form field by `toString` reads back as itself under `Number` |
| `PetApi.StatusName` | src/api/pet-api.ts:26 | each of the three statuses has a wire name that reads back as that status |
| `PetApi.TargetOfPetPath` | src/api/pet-api.ts:57 | the path `/pet/{petId}` addresses exactly the pet `petId` |
| `PetApi.CreatePet` | src/api/pet-api.ts:35-43 | `POST /pet`, with the pet unchanged as the JSON body and no single pet addressed |
| `PetApi.UpdatePet` | src/api/pet-api.ts:45-53 | `PUT /pet`, with the pet unchanged as the JSON body |
| `PetApi.DeletePet` | src/api/pet-api.ts:55-62 | `DELETE` addressed to exactly the given pet, with no body or query |
| `PetApi.FetchPetById` | src/api/pet-api.ts:64-72 | `GET` addressed to exactly the given pet, with no body or query |
| `PetApi.FindPetsByStatus` | src/api/pet-api.ts:74-86 | `GET /pet/findByStatus` with one `status` parameter naming the given status, or `available` when none is given |
| `PetApi.FindPetsByTags` | src/api/pet-api.ts:88-101 | `GET /pet/findByTags` with one repeated `tags` parameter per tag, in order |
| `PetApi.UpdatePetWithForm` | src/api/pet-api.ts:103-122 | a URL-encoded `POST` to that pet; the body has `name` iff a non-empty name is given and `status` iff a non-empty status is given, `name` first, and nothing else |
| `PetApi.UploadPetImage` | src/api/pet-api.ts:124-146 | a multipart `POST` to `/pet/{petId}/uploadImage`; the first part is always the file, and `additionalMetadata` follows iff a non-empty one is given |
| `PetApi.FindByStatusDefault` | src/api/pet-api.ts:75 | calling `findPetsByStatus` without an argument sends the same request as asking for `available` |
| `PetApi.DeleteAndFetchShareTarget` | src/api/pet-api.ts:57-66 | delete and fetch-by-id of one pet use the same path, and different ids give different paths |
| `PetForm.WithField` | src/components/create-pet-modal.tsx:36-38 | `handleFormChange(field, value)` sets that field to `value` and leaves every other field and the status unchanged |
| `PetForm.WithStatus` | src/components/create-pet-modal.tsx:141-157 | a status button changes the status and no text field |
| `PetForm.CanSubmit` | src/components/create-pet-modal.tsx:56 | the name gate (also update-pet-modal.tsx:90) lets a form through exactly when its name holds a non-whitespace character |
| `PetForm.BuildPhotoUrls` | src/components/create-pet-modal.tsx:71 | an empty field gives `[]`; otherwise one URL per comma-separated piece (commas + 1), each the trimmed piece, so no URL holds a comma or has surrounding whitespace |
| `PetForm.BuildCategory` | src/components/create-pet-modal.tsx:75-80 | a category is attached iff its id or name was typed; it has an id iff an id was typed (read by `Number`) and a name iff a name was typed |
| `PetForm.BuildTags` | src/components/create-pet-modal.tsx:82-89 | tags are attached iff a tag id or name was typed, and then exactly one tag, with id and name under the same conditions as the category's |
| `PetForm.BuildPet` | src/components/create-pet-modal.tsx:68-73 | the built pet carries the given id, the name as typed (untrimmed), the form's status, the built URLs, the category and tags built from the form's category and tag fields, and at most one tag |
| `PetForm.LoadPet` | src/components/update-pet-modal.tsx:50-58 | loading keeps the name, joins the URLs with `", "`, writes the category's id and name and the first tag's id and name as text, defaults a missing status to `available`, and leaves the URL, category and tag fields empty when the pet has none |
| `PetForm.LoadReadsFirstTagOnly` | src/components/update-pet-modal.tsx:55-56 | tags after the first have no effect on the loaded form |
| `PetForm.SplitCommaSpaceJoin` | src/components/update-pet-modal.tsx:54 | splitting a `", "`-join of comma-free URLs on commas gives the first URL and then each later URL with one leading space |
| `PetForm.PhotoUrlsRoundTrip` | src/components/update-pet-modal.tsx:54 | URLs that are comma-free and trimmed (and not the single empty URL), joined with ", " and built back, give the same list |
| `PetForm.EntryRoundTrip` | src/components/update-pet-modal.tsx:52-53 | a category or tag id and name that the form can represent survive loading and building |
| `PetForm.LoadThenBuild` | src/components/update-pet-modal.tsx:104-127 | for a canonical pet, building the loaded form gives back the pet under the modal's id |
| `PetForm.BuildIsCanonical` | src/components/create-pet-modal.tsx:68-89 | every built pet is canonical (one tag at most, no empty names, a status) when the URL field is empty or not blank |
| `PetForm.ResubmitIsStable` | src/components/update-pet-modal.tsx:104-109 | when the URL field is empty or not blank, reopening a saved pet and saving it without edits sends the same pet |
| `PetForm.BlankUrlFieldIsNotStable` | src/components/update-pet-modal.tsx:107 | a URL field of one space builds `[""]`, which reloads as an empty field and then builds `[]` |
| `CreatePetModal.Modal.constructor` | src/components/create-pet-modal.tsx:24-34 | the modal starts with the blank form (status `available`) and not submitting |
| `CreatePetModal.Modal.HandleFormChange` | src/components/create-pet-modal.tsx:36-38 | the form becomes the old form with that one field set |
| `CreatePetModal.Modal.HandleStatusChange` | src/components/create-pet-modal.tsx:141-157 | the form becomes the old form with the new status |
| `CreatePetModal.Modal.HandleClose` | src/components/create-pet-modal.tsx:40-53 | every field is reset to empty and the status to `available` |
| `CreatePetModal.Modal.HandleSubmit` | src/components/create-pet-modal.tsx:55-111 | a blank name sends nothing and changes nothing; otherwise it posts the pet built from the form; success resets the form and signals the page, failure keeps the form; submitting ends false |
| `UpdatePetModal.Modal.constructor` | src/components/update-pet-modal.tsx:25-35 | the modal starts with the blank form, not submitting and not loading |
| `UpdatePetModal.Modal.LoadPetData` | src/components/update-pet-modal.tsx:43-69 | with no usable id (`!petId`, the guard `PetApi.IsUsableId`) nothing happens; otherwise it fetches that pet; success loads it into the form, failure keeps the form; loading ends false |
| `UpdatePetModal.Modal.Refresh` | src/components/update-pet-modal.tsx:37-41 | the pet is loaded exactly when the modal is open with a usable id (`PetApi.IsUsableId`) |
| `UpdatePetModal.Modal.HandleFormChange` | src/components/update-pet-modal.tsx:71-73 | the form becomes the old form with that one field set |
| `UpdatePetModal.Modal.HandleStatusChange` | src/components/update-pet-modal.tsx:182-198 | the form becomes the old form with the new status |
| `UpdatePetModal.Modal.HandleClose` | src/components/update-pet-modal.tsx:75-87 | every field is reset to empty and the status to `available` |
| `UpdatePetModal.Modal.HandleSubmit` | src/components/update-pet-modal.tsx:89-149 | a blank name, or a missing or zero id (the `!petId` guard, `PetApi.IsUsableId`), sends nothing and changes nothing; otherwise it puts the pet built under that id; success resets the form and signals the page; submitting ends false |
| `UpdatePetModal.SaveUnedited` | src/components/update-pet-modal.tsx:37-129 | opening the modal on a canonical pet and saving it unedited sends that pet under the modal's id |
| `PetList.Loaded` | src/pages/pet-list.tsx:18-35 | a settled load ends not loading; success replaces the list and clears the error; failure keeps the list and sets the error; nothing else changes |
| `PetList.FindById` | src/pages/pet-list.tsx:75 | `pets.find` gives the first pet with that id, or none when no pet has it |
| `PetList.SelectedName` | src/pages/pet-list.tsx:75-78 | the selected name is the first matching pet's name, or `''` when none matches |
| `PetList.ExactlyOneView` | src/pages/pet-list.tsx:187-203 | exactly one of spinner, error box and table is shown |
| `PetList.LoadedView` | src/pages/pet-list.tsx:193-203 | after a load settles, the table is shown iff it succeeded and the error box iff it failed |
| `PetList.Page.constructor` | src/pages/pet-list.tsx:13-50 | the page starts loading, filtered on `available`, with nothing selected or open |
| `PetList.Page.FetchPets` | src/pages/pet-list.tsx:18-35 | asks for the pets of that status, and the new state is the settled load |
| `PetList.Page.Mount` | src/pages/pet-list.tsx:37-39 | the first render loads the selected status |
| `PetList.Page.HandleStatusFilter` | src/pages/pet-list.tsx:37-43 | picking a different status selects it and loads it; re-picking the current one changes and fetches nothing |
| `PetList.Page.HandleUpdate` | src/pages/pet-list.tsx:52-63 | an absent or zero id (the `!petId` guard, `PetApi.IsUsableId`) changes nothing; otherwise the id is selected and only the update modal opens |
| `PetList.Page.HandleDelete` | src/pages/pet-list.tsx:65-80 | an absent or zero id (the `!petId` guard, `PetApi.IsUsableId`) changes nothing; otherwise the id and its looked-up name are selected and the delete dialog opens |
| `PetList.Page.HandleDeleteConfirm` | src/pages/pet-list.tsx:82-105 | with no usable selection (the `!selectedPetId` guard, `PetApi.IsUsableId`), nothing happens; a failed delete leaves the state (dialog open) as it was; a successful one closes the dialog and reloads the current status; deleting ends false |
| `PetList.Page.HandleCreatePet` | src/pages/pet-list.tsx:107-109 | only the create modal flag changes, to open |
| `PetList.Page.HandleCloseCreateModal` | src/pages/pet-list.tsx:111-113 | only the create modal flag changes, to closed |
| `PetList.Page.HandleCloseUpdateModal` | src/pages/pet-list.tsx:115-118 | the update modal closes and the selected id is cleared |
| `PetList.Page.HandleCloseDeleteDialog` | src/pages/pet-list.tsx:120-124 | the dialog closes and the selected id and name are cleared |
| `PetList.Page.HandleModalSuccess` | src/pages/pet-list.tsx:126-128 | a modal's success reloads the current status |

The create modal sends `new Date().getTime()` as the new pet's id;
`CreatePetModal.Modal.HandleSubmit` takes that reading as its `now` parameter.

## Left out

- Transport: the axios instance, base URL, JSON headers and 10 s timeout (src/api/pet-api.ts:5-12) are not modelled. Content types follow from the kind of `Body`.
- Error rethrow: every client operation logs the caught error and rethrows it unchanged (src/api/pet-api.ts:39-42 and the same lines in the others). The model has no wrapper for this. Each handler receives the transport's `Result` as a parameter and acts on it directly, so no result is ever fabricated.
- Logging and notifications: `console.error` and the toaster messages are side output and are not modelled.
- Dashboard: the dashboard's three parallel status queries (src/pages/dashboard.tsx) are about concurrency and counting, and are not part of this model.
- Async interleaving: handlers are modelled as running to completion. React's batching of state updates and the unawaited reload after a delete are treated as finishing in order. The update modal's effect is `UpdatePetModal.Modal.Refresh`, which callers invoke only when `isOpen` or `petId` changes (src/components/update-pet-modal.tsx:41), not on every edit.
- Clock: the create modal's `new Date().getTime()` is the `now` parameter.
- Numbers.ToNumber, Numbers.NonNumericIsNaN: JavaScript `Number(text)` is modelled for blank text (0) and decimal digit runs only. Every other text reads as NaN here, although JavaScript reads `"-5"`, `"+5"`, `".5"`, `"1e3"`, `"0x10"` and `"Infinity"` as numbers; the category and tag id inputs are `type="number"` fields that can hold such text. Ids are modelled as non-negative whole numbers.
- Numbers.NatToString, PetApi.TargetOfPetPath: ids are assumed to be safe integers (below 2^53). JavaScript holds ids as doubles (src/api/pet-api.ts:15), so a larger id is not held exactly and `${petId}` writes the shortest decimal that reads back as the same double (2^60 is written `1152921504606847000`); the model's unbounded `nat` and exact paths do not capture this. `JSON.stringify` in `createPet`/`updatePet` writes a NaN category or tag id as `null`; the model's request body keeps it as NaN.
- Whitespace set: `trim` uses a fixed set (ASCII whitespace, no-break space, U+2028, U+2029, U+FEFF). Other Unicode space separators are not included.
- File content: `uploadPetImage`'s `File` is an opaque `FileRef`; its bytes and the `FormData` encoding are not modelled, nor is the `ApiResponse` the server replies with, since no handler reads it.
- Create form `id` field: the create modal's form record holds an `id: ''` entry that no handler reads or sets except the reset. It is left out.
- Dialog plumbing: the dialogs' `onOpenChange`, and the Cancel/close buttons that call the same close handlers, are not modelled separately. Each modal's `handleClose` first calls `onClose()` (src/components/create-pet-modal.tsx:41, src/components/update-pet-modal.tsx:76), which is the page's `PetList.Page.HandleCloseCreateModal` or `PetList.Page.HandleCloseUpdateModal`; the modals' `HandleClose` does not signal that call, and the page handler models it.
- Rendering: `src/components/pet-table.tsx`, `src/components/delete-confirm-dialog.tsx`, `src/components/sidebar.tsx`, `src/App.tsx` and all markup are presentation only.
