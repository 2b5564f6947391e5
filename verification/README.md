# LogoQr upload service: a Dafny model

LogoQr is a small Express application. A client uploads a logo image, a QR-code
image and an optional contact reference (`contact_type`, `contact_value`). The
server stores the images under time-stamped names and inserts one `profils`
row. It later serves a public profile page with a contact link, and an admin
list where rows can be deleted. A browser script checks the chosen files'
types before the form is sent.

This project models the decisions those routes and that script make. Database
results, the multipart middleware's outcome and the clock are inputs:

- `records.dfy` (`Records`): shared values. These are nullable columns, query
  outcomes, JSON replies and the two row shapes: the row inserted and the row
  read back.
- `text.dfy` (`Text`): JavaScript's `startsWith`/`endsWith`, and the decimal
  rendering of a number inside a template literal, with its inverse.
- `upload.dfy` (`Upload`): the image filter, the 5 MiB per-file limit, the
  `<timestamp>-<originalname>` naming rule and the middleware as the app
  configures it. It also holds the `POST /upload` route, which produces a reply
  and issues at most one INSERT.
- `profile.dfy` (`ProfilePage`): `GET /profil/:id`. It covers the 404 rule, the
  image sources and the contact link (per-type prefix, the `link` special case,
  the empty fallback). It also holds the as-written prefix lookup; see Findings.
- `admin.dfy` (`Admin`): `GET /admin`. A loop builds one entry per row, in row
  order, with `Non spécifié` fallbacks. It also holds the status mapping of
  `DELETE /profils/:id`.
- `client.dfy` (`ClientForm`): the form script. The page state it touches is the
  message's visibility and text and each input's `input-error` class. That state
  is a value (`FormState`) with one transition function per handler. A class
  (`UploadForm`) holds the same state in fields; its methods are proved equal to
  the transitions. It also holds the cross-file fact that every type the client
  accepts passes the server's filter.

## Model

| member | source | states |
|---|---|---|
| `Upload.FileFilter` | server.js:51-57 | A file is accepted exactly when its mimetype starts with `image/`; otherwise the verdict carries the "type non supporté" error message |
| `Upload.WithinSizeLimit` | server.js:59-63 | The per-file limit lets a file through exactly when it has at most 5242880 bytes (5 × 1024 × 1024) |
| `Upload.StoredFilename` | server.js:46-48 | A stored name starts with the decimal clock reading and ends with `"-" + originalname` |
| `Upload.StoredFilenameRoundTrip` | server.js:46-48 | The clock reading and the original name can be read back from a stored name |
| `Upload.StoredFilenameCollision` | server.js:46-48 | Two uploads get the same stored name if and only if they have the same clock reading and the same original name |
| `Upload.PartError` | server.js:51-67 | The configured middleware keeps a part exactly when its field is `logo` or `qr`, its type is an image and it fits the limit; a declared field with a non-image type fails with the filter's message |
| `Upload.StoredOf` | server.js:42-67 | The files stored for a field are one per named part of that field, in request order; there are none exactly when no named part used the field |
| `Upload.StoredOfStartsWithFirstPart` | server.js:78-79 | The first file stored for a field is the one made from the first named part of that field |
| `Upload.ConfiguredMulter` | server.js:42-67 | Parts without a file name are dropped. The middleware succeeds if and only if every named part is kept, and a failure carries some refused named part's message. On success `req.files.logo` and `req.files.qr` are exactly the files stored for the named `logo` and `qr` parts, in request order |
| `Upload.StoredFilesAreGoodImages` | server.js:42-63 | After a successful run, every stored file is an image within the limit, named by the naming rule |
| `Upload.NonImagePartFails` | server.js:51-57 | A single named non-image part makes the middleware fail |
| `Upload.OrNull` | server.js:80-81 | An absent or empty form field becomes NULL; any other value is kept as is |
| `Upload.DecideUpload` | server.js:66-84 | A middleware error gives 400 with its message. Missing `files`, `logo` or `qr` gives 400 with the "téléverser" message. Otherwise exactly one insert of (first logo's name, first QR's name, type or NULL, value or NULL) |
| `Upload.ReplyAfterInsert` | server.js:84-90 | An insert error gives 500, `success:false` and the server-error message; otherwise 200, `success:true` and `redirectUrl:'/confirmation'` |
| `Upload.HandleUpload` | server.js:66-91 | `success` holds exactly when the status is 200. The status is 200, 400 or 500. It is 400 exactly when no INSERT is issued. An INSERT is issued exactly when the middleware succeeded with both files present. It is 500 exactly when that INSERT fails, and 200 (the row is stored) exactly when it succeeds |
| `Upload.NonImageUploadRejected` | server.js:51-70 | A request with any named non-image file part is answered 400 and issues no INSERT |
| `Upload.InsertedRowReferencesImages` | server.js:42-84 | The issued INSERT names the files stored for the first named logo part and the first named QR part. Both files are images within the limit, named by the naming rule |
| `ProfilePage.ContactPrefix` | server.js:127-134 | The intended prefix table. Instagram, Snapchat, `tel:` and `mailto:` prefixes for the named types. For `link`, `''` when the value starts with `http` and otherwise `https://`. `''` for any other type |
| `ProfilePage.ContactBlock` | server.js:126-142 | A contact block exists exactly when both contact columns are non-empty. It shows the type and the value verbatim. Its href equals the prefix followed by the value, using the corrected prefix table (`ContactPrefix`); for the twelve inherited names the program's own href differs (see Findings) |
| `ProfilePage.ContactHrefScheme` | server.js:128-139 | The href of each named type starts with that type's scheme; a `link` href always starts with `http` |
| `ProfilePage.LookupProfile` | server.js:117-162 | A query error or zero rows gives 404 with "Profil non trouvé."; otherwise the page shows the first row's images and contact block, built with the corrected prefix table (see Findings) |
| `ProfilePage.UploadThenView` | server.js:78-157 | After a successful insert, reading the row back gives a page with the two stored files as images. A contact link appears exactly when both fields were filled in, and its href is the prefix followed by the value |
| `ProfilePage.PhoneUploadShowsTelLink` | server.js:128-139 | An uploaded `phone` contact shows the link `tel:` + number |
| `ProfilePage.ContactPrefixAsWritten` | server.js:128-134 | The lookup as written agrees with the intended table for every type that is not an inherited `Object.prototype` name |
| `ProfilePage.InheritedKeyPrefixCounterexample` | server.js:128-134 | As written, contact type `toString` gets the prefix `function toString() { [native code] }` instead of `''` |
| `ProfilePage.AsWrittenDiffersOnlyOnInheritedKeys` | server.js:128-134 | The as-written lookup differs from the intended table if and only if the type is an inherited name |
| `Admin.OrUnspecified` | server.js:197-198 | A missing or empty contact column is shown as `Non spécifié`, any other value as itself; the label is never blank |
| `Admin.EntryFor` | server.js:189-203 | An entry's element id `profil-<id>` reads back as the row's id. The view link is `/profil/<id>` and the delete button carries the same id. The images are `/uploads/` + each stored path and the creation time is passed through. Each contact label is the column's value when non-empty and `Non spécifié` otherwise |
| `Admin.RenderEntries` | server.js:188-204 | The loop emits exactly one entry per row, in the order the rows arrive |
| `Admin.RenderAdmin` | server.js:166-216 | A query error gives 500 with "Erreur serveur."; otherwise 200 with one entry per row, in row order |
| `Admin.EntryIdsDistinct` | server.js:188-190 | Rows with distinct ids get list items with distinct element ids |
| `Admin.DeleteReply` | server.js:219-233 | Status 500 exactly on a query error, 404 exactly when `affectedRows` is 0, and 200 exactly when a row was removed. `success` holds exactly on 200 |
| `ClientForm.AllowedType` | script.js:7 | The whitelist is exactly `image/jpeg`, `image/png` and `image/gif` |
| `ClientForm.SelectionPasses` | script.js:9-20 | An empty selection passes; otherwise the verdict is whether the first file's type is whitelisted |
| `ClientForm.ClientAcceptsImpliesServerAccepts` | script.js:7-12 | Every file type the client lets through starts with `image/`, so the server's `fileFilter` (server.js:52) accepts it |
| `ClientForm.Validated` | script.js:9-20 | A passing validation changes nothing. A failing one shows the message with the type error text and marks that input. The other input's mark is never touched |
| `ClientForm.Hidden` | script.js:22-26 | Hiding makes the message invisible and unmarks both inputs, and leaves the message text as it was |
| `ClientForm.HiddenIdempotent` | script.js:22-26 | Hiding twice is the same as hiding once |
| `ClientForm.ValidatedIdempotent` | script.js:9-20 | Validating the same input twice is the same as validating once |
| `ClientForm.Changed` | script.js:28-36 | After a change on one input, the other input is unmarked. The changed input is marked, and the message shown, exactly when its new selection fails |
| `ClientForm.SubmitPrevented` | script.js:39-43 | Submission is prevented if and only if the logo or the QR selection fails |
| `ClientForm.Submitted` | script.js:39-43 | If the logo fails, only the logo is validated and the QR mark is unchanged. Otherwise the QR is validated. A prevented submission leaves the message showing; an allowed one changes nothing |
| `ClientForm.StepKeepsConsistent` | script.js:9-43 | Each change or submit keeps the message showing exactly when some input is marked, with the type error text |
| `ClientForm.RunKeepsConsistent` | script.js:28-43 | Any sequence of changes and submissions keeps that invariant |
| `ClientForm.EmptyLogoPassesClientOnly` | script.js:9-20 | An empty logo input passes the client's gate, but a request without a named logo part is answered 400 with no INSERT (server.js:74-75) |
| `ClientForm.UploadForm.constructor` | script.js:3-7 | The page starts with the message hidden and empty, nothing selected and nothing marked |
| `ClientForm.UploadForm.ValidateFile` | script.js:9-20 | Returns whether the input's selection passes; the new page state is `Validated` of the old one |
| `ClientForm.UploadForm.HideError` | script.js:22-26 | Hides the message and unmarks both inputs; the new state is `Hidden` of the old one |
| `ClientForm.UploadForm.OnChange` | script.js:28-36 | Stores the selection, hides, then validates that input; the other input ends unmarked |
| `ClientForm.UploadForm.OnSubmit` | script.js:39-43 | Prevents submission exactly when the logo or the QR fails. The QR is not validated, and its mark is unchanged, when the logo fails |

## Left out

- Express, multer and mysql plumbing is left out: the connection setup,
  middleware registration, static serving, creating the uploads directory and
  `app.listen`. These are library calls and I/O. The model takes query results,
  the middleware's outcome and the uploaded-file records as inputs.
- The database's own behaviour is left out: id generation, the `created_at`
  default and `ORDER BY created_at DESC`. The admin list takes the rows in
  whatever order they arrive. `StoredRow` assumes that a row reads back with the
  columns that were inserted.
- `Date.now()` is a parameter: each file part carries the clock reading taken
  when it is named.
- HTML markup is not modelled. The model gives the values each page interpolates
  (image sources, labels, hrefs, element ids), not the text around them. Values
  are passed on verbatim, as the source does; nothing is escaped.
- The static `/confirmation` page and `public/admin.js` (a fetch client with DOM
  removal and alerts) are left out.
- Login, the `auth` query flag, sessions and ZIP download are not in this
  `server.js`, so they are not modelled. The contact fields are optional, and
  `GET /admin` answers every request without any credential check.
- The size limit is per file (`limits.fileSize`). It is not a per-request total.
  The model follows the code.
- Of the middleware, the model keeps only what the app relies on. It drops file
  parts without a file name, which is what a browser sends for an empty file
  input. It keeps the checks the app configures: the declared fields, the filter
  and the size limit. It does not model stream
  concurrency, removal of files already written when a later part fails, text
  fields sent as arrays, or partial files.
- Upload.ConfiguredMulter: a failure is stated to carry the message of some named
  refused part, not necessarily the first in request order, because the real
  middleware reports whichever stream error fires first.
- Event wiring (`DOMContentLoaded`, `addEventListener`) and the browser's filling
  of `files` are left out. `OnChange` receives the new selection, given as the
  list of the selected files' `type` strings.
- ClientForm.ClientAcceptsImpliesServerAccepts assumes the browser sends a file
  part's Content-Type as the same string it exposes as `file.type`.

## Findings

| source | as written | input that shows it | evidently intended | confidence | as-written member | corrected member |
|---|---|---|---|---|---|---|
| server.js:128-134 | The prefix is the object literal `{ instagram: …, link: … }` indexed by `contact_type`, with `''` as the fallback. Indexing an object literal also finds the members it inherits from `Object.prototype` | `contact_type = "toString"`, `contact_value = "alice"` gives href `function toString() { [native code] }alice`. `constructor` and `__proto__` behave alike | Any type outside the five named ones gets the prefix `''` | high; not executed | `ProfilePage.ContactPrefixAsWritten`, `ProfilePage.InheritedKeyPrefixCounterexample` | `ProfilePage.ContactPrefix` (used by `ContactBlock`) |
