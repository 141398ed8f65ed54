# File storage client: upload and listing workflow

A Dafny model of the client side of a small file-storage web app in which
members of an organization upload images, PDFs and CSVs. Two React client
components are modelled:

- the upload dialog (`app/dashboard/_components/upload-button.tsx`): the
  owner-id rule, the form schema (title of 1 to 200 characters, at least
  one file), the content-type table (`image/png`, `application/pdf`,
  `text/csv`), and the submit handler, which requests an upload URL, POSTs
  the first file, reads back a `storageId`, and calls the `createFile`
  mutation, then resets the form and closes the dialog on success;
- the home page (`app/page.tsx`): the same owner-id rule, the `getFiles`
  query that is skipped without an owner, the demo Upload button, and the
  list of file names.

Modules:

- `Wrappers` (`wrappers.dfy`): `Option` (JavaScript `undefined`) and `Result`.
- `FileApi` (`file_api.dfy`): the argument and result shapes of the server
  mutations and queries: `FileType`, `CreateFileArgs`, `FileDoc`.
- `Identity` (`identity.dfy`): the session hooks, the owner-id rule
  (`ResolveOwner`) and JavaScript truthiness of an id (`Truthy`: `undefined`
  and `""` are falsy), which every `!orgId` and `orgId ? … : "skip"` guard
  uses. Both components write this rule out; the
  model defines it once.
- `Upload` (`upload.dfy`): the classifier, the schema, the submit workflow
  as the specification function `Submit`, and the class `UploadButton`.
  The class holds the component state: `dialogOpen`, `formTitle`,
  `formFile`, and a ghost `trace` of external calls in call order.
  `UploadButton.OnSubmit` goes through the steps one at a time. It is proved
  to make exactly the calls `Submit` describes. It also keeps the invariant
  `Sequenced`: every POST follows an upload-URL request, and every
  `createFile` follows a POST, with a non-empty owner and the kind of that
  POST's content type.
- `Page` (`page.dfy`): the page's query guard, click handler and listing.

External calls are inputs. `generateUploadUrl`, `fetch`, `result.json()`
and `createFile` do not run. Their replies are a `Backend` value. A
submission returns which calls it made and how it ended:

- `NoOwner`: the owner guard returned early;
- `Escaped`: an exception outside the `try`, so no toast;
- `Uploaded`: the success toast;
- `UploadFailed`: the destructive toast.

Behaviour worth knowing, as the code has it:

- Content types are matched exactly and case-sensitively. `IMAGE/PNG` has no
  kind, although section 5.1 of RFC 2045 treats type and subtype
  case-insensitively.
- An unmapped content type does not stop the upload. The handler still calls
  `createFile`, with `type` left `undefined` (`Upload.UnmappedTypeIsStillCreated`).
  Any rejection of such a type, if it exists, happens on the
  server. The model follows the client code.
- The owner falls back to the user id only when the organization id is
  absent (`??`). An empty organization id is kept, and every `!orgId` guard
  then blocks (`Identity.EmptyOrganizationIdBlocks`).
- The POST reply's status is never checked. A JSON body without `storageId`
  reaches `createFile` as an `undefined` file id.

## Model

| member | source | states |
|---|---|---|
| Identity.ResolveOwner | app/dashboard/_components/upload-button.tsx:64-67 | the owner is undefined unless both hooks are loaded; once loaded it is the organization id if present, else the user id (both directions) |
| Identity.OrganizationWins | app/dashboard/_components/upload-button.tsx:66 | with an organization id present, the owner is that id whatever user is signed in |
| Identity.EmptyOrganizationIdBlocks | app/dashboard/_components/upload-button.tsx:66-71 | an empty organization id is not replaced by the user id, and the resulting owner is falsy |
| Upload.Classify | app/dashboard/_components/upload-button.tsx:84-88 | `image/png`, `application/pdf` and `text/csv` map to image, pdf and csv, each if and only if the string is exactly that key |
| Upload.ClassifyInvertsMediaType | app/dashboard/_components/upload-button.tsx:84-88 | the table is a bijection between the three keys and the three kinds |
| Upload.UnmappedContentTypes | app/dashboard/_components/upload-button.tsx:84-88 | `application/csv`, `image/jpeg`, the empty string and case variants of the keys have no kind |
| Upload.ParseForm | app/dashboard/_components/upload-button.tsx:37-42 | values pass if and only if the title has 1 to 200 characters and a non-empty file list is chosen; otherwise each violated field is reported |
| Upload.ResetFormIsRejected | app/dashboard/_components/upload-button.tsx:52-55 | the default (reset) form fails the schema on both title and file |
| Upload.Submit | app/dashboard/_components/upload-button.tsx:70-121 | no external call at all, and the quiet early return, exactly when the owner is falsy; at most three calls per submission |
| Upload.CreateFileFollowsUpload | app/dashboard/_components/upload-button.tsx:73-102 | `createFile` is only the third call, after `generateUploadUrl` and the POST to the issued URL with the first file and its own type; it gets the title, the returned `storageId`, the owner, and the kind of the type sent in the POST header |
| Upload.HealthyRunCreatesFile | app/dashboard/_components/upload-button.tsx:73-102 | with an owner, an issued URL and a JSON reply, every content type leads to exactly three calls: the URL request, the POST of the first file with its own type to that URL, and `createFile` with the title, `storageId`, owner and the type's kind |
| Upload.FailuresEscape | app/dashboard/_components/upload-button.tsx:73-82 | with an owner, a failing `generateUploadUrl`, `fetch` or `json()` ends the submission with an exception at exactly that step (both directions), never as the quiet early return, and no call follows the failed one |
| Upload.CallShape | app/dashboard/_components/upload-button.tsx:73-81 | a POST is always the second call, right after the upload URL request |
| Upload.UnmappedTypeIsStillCreated | app/dashboard/_components/upload-button.tsx:84-102 | an unmapped content type still leads to a `createFile` call with the type undefined |
| Upload.OutcomeMatchesCreateFile | app/dashboard/_components/upload-button.tsx:96-120 | the success toast iff `createFile` was called and succeeded, the destructive toast iff it was called and threw; failures before it escape without a toast |
| Upload.SubmitKeepsSequenced | app/dashboard/_components/upload-button.tsx:70-102 | every submission keeps the call trace sequenced (POST after URL request, `createFile` after POST with a non-empty owner and matching kind) |
| Upload.UploadButton.constructor | app/dashboard/_components/upload-button.tsx:50-58 | the dialog starts closed with title `""` and no file, and no calls made |
| Upload.UploadButton.OnOpenChange | app/dashboard/_components/upload-button.tsx:126-129 | every open or close sets the flag and resets the form; no calls |
| Upload.UploadButton.EditTitle | app/dashboard/_components/upload-button.tsx:145-157 | typing changes the title field only |
| Upload.UploadButton.ChooseFiles | app/dashboard/_components/upload-button.tsx:159-171 | choosing files changes the file field only |
| Upload.UploadButton.OnSubmit | app/dashboard/_components/upload-button.tsx:70-121 | appends exactly the calls of `Submit` to the trace and returns its outcome; a successful `createFile` resets the form and closes the dialog, any other outcome (including no owner) leaves form and dialog unchanged; keeps the trace sequenced |
| Upload.UploadButton.HandleSubmit | app/dashboard/_components/upload-button.tsx:144 | values failing the schema are reported and change nothing; valid values run `OnSubmit` |
| Page.Home | app/page.tsx:9-15 | the page's owner is given by the same rule as the dialog's; the query is skipped iff the owner is falsy; nothing is listed when it is skipped or still loading, else one name per served file in order |
| Page.FilesQueryArg | app/page.tsx:15 | `getFiles` is skipped iff the owner is falsy, and otherwise issued with exactly that owner |
| Page.OnUploadClick | app/page.tsx:20-27 | a click with a falsy owner makes no call; otherwise exactly one `createFile` with name `hello world`, that owner, no file id and no type |
| Page.QueryIssuedIffClickCreates | app/page.tsx:15-27 | the query is issued exactly when a click creates a record, with the same owner |
| Page.FileNames | app/page.tsx:32-34 | one entry per file, in query order, each showing that file's name |
| Page.Listing | app/page.tsx:31-35 | nothing is listed while the result is undefined; otherwise one name per returned file, in order |

## Left out

- `app/dashboard/_components/file-actions.tsx`: it only toggles a confirm flag and forwards `deleteFile`. What deletion marking means is decided on the server.
- The server-side file store (`convex/file.ts`) is not part of this model. That covers record insertion, id assignment, scoping by organization, deletion marking, and whether an undefined `type` or file id is rejected.
- Network, storage and session libraries. The upload URL, the POST, the JSON body, the mutation results and the session hooks are inputs to the model. The POST body is modelled as bytes, not transferred.
- Rendering, widget wiring, toast texts, the busy spinner and disabled button, and `console.log`. Toasts appear only as the outcome tag of a submission.
- The resolver machinery of the form library. Only the schema it enforces is modelled (`Upload.ParseForm`). What the form library does with an exception that escapes the submit handler is also not modelled.
- Upload.ParseForm: title length is counted in Dafny characters. JavaScript counts UTF-16 code units, so titles with characters outside the Basic Multilingual Plane may be measured differently.
- Async interleaving and re-entrant submissions. A submission is one sequential step.
- JavaScript prototype keys in the `types` object (a content type such as `constructor`). The table is a map with exactly three keys.
- The `instanceof FileList` test: the file field is either `undefined` or a list of files.
