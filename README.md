# Staging, upload and download widgets of the KBase Narrative, in Dafny

This project models the logic inside three browser widgets of the KBase Narrative and proves properties of that model.

- **Staging-area viewer** (`stagingAreaViewer.js`): this is the file browser for a user's staging area. `setPath` turns the widget's path into the `subpath` that the staging service is asked about, by dropping the user-root segment. A click on a folder appends `'/' + name` to the path. `renderPath` builds the breadcrumb trail. A row's detail panel is built once per listing and cached in `fileData.loaded`, and its metadata is requested at most once. The JGI metadata text has every `NaN` rewritten. A decompress button is offered for archive names. `initImportApp` builds the parameter dictionary of an importer app from the importer's configuration and the selected file. The widget is the class `StagingArea.StagingAreaViewer`. Calls to the staging service (`list`, `metadata`) and to the notebook (`addAndPopulateApp`) are appended, in order, to its `requests` log rather than performed.
- **Download button** (`kbaseDownloadFile.js`): `render` shows a button only when both the data and the name are non-null. `downloadFn` base64-encodes the data for a `data:` URI. When `window.btoa` refuses code units above 255, it first splits every UTF-16 code unit into one, two or three single-octet units with the bit layout of section 3 of RFC 3629. The model encodes with the alphabet and padding of section 4 of RFC 4648, gives the matching decoders, and proves that the download payload decodes back to the original data.
- **Upload widget** (`fileUploadWidget.js`): the status line `makeUploadMessage`, and the destination path (`setPath`/`getPath`). Dropzone's uploading and queued file lists are reduced to their lengths.

`PathText` holds the string operations these widgets rely on:
- JavaScript's `split('/')` and `join('/')`, with their round trip and the splitting of a concatenation at a separator;
- the `startsWith('/')` test, and a suffix test (`EndsWith`) that states what a `$`-anchored pattern such as the decompress test requires;
- the two global regular-expression rewrites `/NaN/g` and `/\s/g`.

Behaviour worth knowing, taken from the code:
- **Metadata caching:** the detail row is cached in `fileData.loaded` in the same call that requests the metadata (stagingAreaViewer.js line 455). A failed metadata request therefore still leaves the row cached. The model follows the code.
- **Static parameters:** `app_static_params` are copied into `inputs` last (lines 510-516), so a static parameter overrides an input or output parameter of the same name. The model follows the code.
- **Missing file:** `initImportApp` without a file reads `file.name`, and so throws a TypeError, whenever the subpath is non-empty or an output parameter is configured. The web-upload link passes no file. The model returns `Thrown` in that case.
- **NaN rewrite:** the replacement for `NaN` is two double-quote characters, not the empty string.
- **Latin-1 data:** data whose code units are all at most 255 goes to `btoa` as Latin-1 octets, even when some are 128..255. Such data is not split.
- **Surrogates:** the split works on single UTF-16 code units. A surrogate pair becomes two three-unit groups, not one four-octet UTF-8 sequence. The decoder in the model is the exact inverse of this per-unit split, and it rejects overlong forms.

## Model

| member | source | states |
|---|---|---|
| PathText.JoinSplit | kbase-extension/static/kbase/js/widgets/narrative_core/upload/stagingAreaViewer.js:124-129 | `join('/')` after `split('/')` gives the text back |
| PathText.SplitSegments | kbase-extension/static/kbase/js/widgets/narrative_core/upload/stagingAreaViewer.js:124 | no segment of a split contains '/' |
| PathText.SplitAtSlash | kbase-extension/static/kbase/js/widgets/narrative_core/upload/stagingAreaViewer.js:124 | splitting `a + '/' + b` gives the segments of `a` followed by those of `b` |
| PathText.JoinAppend | kbase-extension/static/kbase/js/widgets/narrative_core/upload/stagingAreaViewer.js:129 | joining one more segment appends '/' and that segment |
| StagingArea.SubpathDropsUserRoot | kbase-extension/static/kbase/js/widgets/narrative_core/upload/stagingAreaViewer.js:121-129 | the subpath is what follows the user root: "" and "/" (and a bare root) give "", and "/u/rest" and "u/rest" give "rest" |
| StagingArea.StagingAreaViewer.constructor | kbase-extension/static/kbase/js/widgets/narrative_core/upload/stagingAreaViewer.js:48-88 | after `init` the path is the given one, `subpath` agrees with it, and exactly one listing of that subpath was requested |
| StagingArea.StagingAreaViewer.UpdateView | kbase-extension/static/kbase/js/widgets/narrative_core/upload/stagingAreaViewer.js:94-95 | one listing request is added, for the subpath derived from the current path |
| StagingArea.StagingAreaViewer.SetPath | kbase-extension/static/kbase/js/widgets/narrative_core/upload/stagingAreaViewer.js:121-131 | the path is replaced, `subpath` is the path without its user-root segment (invariant `Valid`), and a listing of that subpath is requested |
| StagingArea.StagingAreaViewer.ReceiveListing | kbase-extension/static/kbase/js/widgets/narrative_core/upload/stagingAreaViewer.js:96-102 | the entries are the listing's rows in order, files marked imported, none with a cached detail row |
| StagingArea.OpenFolderSubpath | kbase-extension/static/kbase/js/widgets/narrative_core/upload/stagingAreaViewer.js:273 | for a non-empty path, appending '/' + name appends `name` to the subpath's segments; the subpath text gains "/name" (or becomes "name" at the root) |
| StagingArea.StagingAreaViewer.OpenFolder | kbase-extension/static/kbase/js/widgets/narrative_core/upload/stagingAreaViewer.js:272-274 | the path becomes old path + '/' + name, it is listed, and the subpath's segments gain `name` |
| StagingArea.StagingAreaViewer.RenderPath | kbase-extension/static/kbase/js/widgets/narrative_core/upload/stagingAreaViewer.js:158-174 | one breadcrumb per segment of the path without its leading '/'; the first leads to '/' + its segment, each next one to its predecessor's + '/' + its segment, the last to '/' + the stripped path |
| StagingArea.FilePathSegments | kbase-extension/static/kbase/js/widgets/narrative_core/upload/stagingAreaViewer.js:334-339 | the file path is the current directory's segments followed by the file name (the name alone at the top), and it ends with the name |
| StagingArea.StagingAreaViewer.RenderMoreFileInfo | kbase-extension/static/kbase/js/widgets/narrative_core/upload/stagingAreaViewer.js:321-455 | a cached row is returned with no request and no change; otherwise exactly one metadata request is made, for the file's path under the subpath derived from the widget's path, and the new row is cached on the same call |
| StagingArea.ExpandCollapseExpand | kbase-extension/static/kbase/js/widgets/narrative_core/upload/stagingAreaViewer.js:276-296 | expanding a row twice shows the same detail row and requests the file's metadata at most once |
| StagingArea.DecompressibleIffPattern | kbase-extension/static/kbase/js/widgets/narrative_core/upload/stagingAreaViewer.js:217-219 | a decompress button is offered exactly when `/\.(zip\|tar\.gz\|tgz\|tar\.bz\|tar\.bz2\|tar\|gz\|bz2)$/` matches the name |
| PathText.ScrubNaNRemovesAll | kbase-extension/static/kbase/js/widgets/narrative_core/upload/stagingAreaViewer.js:420 | after `replace(/NaN/g, '""')` no "NaN" is left |
| PathText.ScrubNaNKeepsClean | kbase-extension/static/kbase/js/widgets/narrative_core/upload/stagingAreaViewer.js:420 | text without "NaN" is unchanged by the rewrite |
| PathText.ReplaceWhitespace | kbase-extension/static/kbase/js/widgets/narrative_core/upload/stagingAreaViewer.js:508 | `replace(/\s/g, '_')` keeps the length, turns every whitespace character into '_' and leaves every other character |
| StagingArea.BuildImportInputs | kbase-extension/static/kbase/js/widgets/narrative_core/upload/stagingAreaViewer.js:496-516 | fails exactly when `file.name` is read without a file; otherwise the keys are the configured input/output names and the static ones, statics win, the output value is the file name with whitespace as '_' plus the suffix, and the input value is the file path (a one-element list for a list parameter) |
| StagingArea.StagingAreaViewer.InitImportApp | kbase-extension/static/kbase/js/widgets/narrative_core/upload/stagingAreaViewer.js:492-519 | nothing happens for a type without an importer; otherwise the app is added with the importer's app id and the inputs above, built from the subpath derived from the widget's path, unless the call throws |
| DownloadFile.Render | kbase-extension/static/kbase/js/widgets/function_output/kbaseDownloadFile.js:20-22 | a button captioned with the name exists exactly when data and name are both non-null, otherwise the text "Error: file content is empty." |
| DownloadFile.SplitUnit | kbase-extension/static/kbase/js/widgets/function_output/kbaseDownloadFile.js:29-39 | a unit below 128 stays itself; below 2048 it becomes a 192..223 unit and a 128..191 unit; otherwise a 224..239 unit and two 128..191 units; every produced unit is below 256 |
| DownloadFile.SplitShape | kbase-extension/static/kbase/js/widgets/function_output/kbaseDownloadFile.js:27-41 | the split text's length is the sum of the per-unit widths and every unit fits in an octet, so the second `btoa` cannot fail |
| DownloadFile.SplitAppend | kbase-extension/static/kbase/js/widgets/function_output/kbaseDownloadFile.js:28-40 | splitting one more code unit appends that unit's split, so order is kept |
| DownloadFile.SplitWide | kbase-extension/static/kbase/js/widgets/function_output/kbaseDownloadFile.js:27-40 | the loop's accumulator ends as the unit-by-unit split of the whole data |
| DownloadFile.SplitRoundTrip | kbase-extension/static/kbase/js/widgets/function_output/kbaseDownloadFile.js:28-40 | decoding the split text with the RFC 3629 section 3 bit layout gives back the original code units |
| DownloadFile.SextetRoundTrip | kbase-extension/static/kbase/js/widgets/function_output/kbaseDownloadFile.js:25 | every 6-bit value has a base64 character that reads back as that value |
| DownloadFile.Base64Encode | kbase-extension/static/kbase/js/widgets/function_output/kbaseDownloadFile.js:25 | the base64 text has 4 characters per started 3-octet group |
| DownloadFile.Base64RoundTrip | kbase-extension/static/kbase/js/widgets/function_output/kbaseDownloadFile.js:25 | decoding the base64 text of any octets gives those octets back |
| DownloadFile.Btoa | kbase-extension/static/kbase/js/widgets/function_output/kbaseDownloadFile.js:24-26 | `btoa` fails exactly when some code unit is above 255; otherwise its text decodes to the code units as Latin-1 octets |
| DownloadFile.DownloadFn | kbase-extension/static/kbase/js/widgets/function_output/kbaseDownloadFile.js:23-46 | the anchor's download attribute is the file name, its href starts with "data:application/octet-stream;base64,", and the payload decodes to the Latin-1 octets of the data or, when `btoa` refused it, to a split text that decodes back to the data |
| FileUpload.MakeUploadMessage | kbase-extension/static/kbase/js/widgets/narrative_core/upload/fileUploadWidget.js:93-110 | the line is "No files uploading." exactly when there is no Dropzone or both counts are zero; otherwise it is "Uploading u files (q queued) to " followed by the path |
| FileUpload.UploadMessageRoundTrip | kbase-extension/static/kbase/js/widgets/narrative_core/upload/fileUploadWidget.js:102-109 | a busy status line determines its two counts and its path, which can be read back from it |
| FileUpload.ParseNatToString | kbase-extension/static/kbase/js/widgets/narrative_core/upload/fileUploadWidget.js:104-106 | the decimal numeral of a count reads back as that count |
| FileUpload.FileUploadWidget.constructor | kbase-extension/static/kbase/js/widgets/narrative_core/upload/fileUploadWidget.js:26-58 | `init` stores the path and the user id, and `render` creates an empty Dropzone |
| FileUpload.FileUploadWidget.SetPath | kbase-extension/static/kbase/js/widgets/narrative_core/upload/fileUploadWidget.js:112-119 | afterwards `getPath` returns the new path, the destPath field holds it, and the Dropzone state is unchanged |
| FileUpload.FileUploadWidget.OnQueueEvent | kbase-extension/static/kbase/js/widgets/narrative_core/upload/fileUploadWidget.js:62-79 | after an event of a handler registered as `'addedFile'`, `'sending'` or `'success'`, the status line is recomputed from the new counts and the current path |

## Left out

- All DOM, jQuery, DataTables, select2, tooltip, tab and Handlebars rendering, CSS changes and the upload tour. These are presentation only. The detail row is reduced to the metadata path it shows and the file name it deletes.
- The staging service's `list` and `metadata` calls and the notebook's `addAndPopulateApp` are recorded as `ListDir`, `Metadata` and `AddApp` entries of `requests`, not performed. Their responses are not modelled.
- These external calls are not modelled at all:
  - the staging service's follow-up `jgi_metadata`, decompress and delete calls;
  - the workspace's `get_object_info_new` lookup of an imported file's object reference;
  - the auth service's `getCurrentProfile` lookup of the globus identity.
- Promise ordering and callbacks: a listing arrives only through an explicit `ReceiveListing` call.
- `options.updatePathFn`: the model uses its default, `setPath`.
- `getFileFromName`: the model addresses a row by its index, not by its name.
- Breadcrumb clicks are not modelled; the breadcrumbs' targets are.
- `APIUtil.getAppVersionTag`, `Jupyter.narrative.hideOverlay` and `Config.get` are host calls. The importer configuration is a constructor argument.
- JSON parsing and printing of metadata, `readableBytes` and date formatting are library code.
- Dropzone internals (queueing, `removeAllFiles`), the `reset` and progress handlers, the anchor click that starts the download, and `alert`/`confirm` are browser or library side effects. Dropzone's file lists appear only as the two counts given to `OnQueueEvent`.
- FileUpload.FileUploadWidget.OnQueueEvent: models the three handlers under the event names they are registered with. The add handler is registered as `'addedFile'`. Whether Dropzone emits an event by that exact casing is library behaviour, and the Dropzone library is not part of this model.
- FileUpload.FileUploadWidget.SetPath: the destPath field's value before any `setPath` call comes from the page template, which is not part of this model, so it is `None`.
- StagingArea.StagingAreaViewer.OpenFolder: the segment property is stated only for a non-empty old path and a name without '/'. Other folder names split into several segments.
- DownloadFile.Btoa: the error is an absent result. The message of the `InvalidCharacterError` is not modelled.
