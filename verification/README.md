# mail-editor composables, modelled in Dafny

This project models the three composables that hold the logic of the mail
editor. The rest of the editor is Vue wiring around a third-party e-mail
editor widget.

- `useFileName` (`file_name.dfy`, module `FileName`) covers these parts:
  - the file-name sanitiser;
  - the optional date suffix;
  - `validateFileName`;
  - the key filter of the name input;
  - the state cell holding `nameFile` and `isSaveDate`, as the class `FileNameState`.
- `useFileOperations` (`file_operations.dfy`, module `FileOperations`) covers these parts:
  - the upload checks and how the reader's outcome is classified;
  - the argument checks and final download name of `saveDesign` and `exportHtml`;
  - the `{ success, data?, error? }` envelope;
  - the `isLoading`/`error` flags, as the class `FileOperations`.
- `useEditorOperations` (`editor_operations.dfy`, module `EditorOperations`) covers these parts:
  - The module-level editor reference is an `EditorSlot` object, given to each `EditorOperations` facade when it is built. Facades built over one `EditorSlot` share it, as `SharedSlotAcrossFacades` shows. Each facade has its own `isLoading`/`error`.
  - The guarded operations.
  - The image-upload callback.
- `js_values.dfy` (module `JsValues`) holds the JavaScript values they share:
  - UTF-16 text;
  - thrown values;
  - JSON values, and the test `!v || typeof v !== 'object'`;
  - `Pending<T>`, the state of a returned promise.

Text that the code inspects unit by unit is a `seq<Unit>` of UTF-16 code
units (`Unit` is 0..0xFFFF). This covers file names, keys and the locale's
date. Every regular expression involved has no `u` flag, and `length` counts
code units. A character outside the Basic Multilingual Plane is therefore two
units. It becomes `__` in a sanitised name, and a key made of it is never
blocked unless `exclude` lists it. Opaque strings stay `string`: error
messages, data URLs, HTML and the text read from a file.

The editor widget, the file reader and `JSON.parse` are parameters of the
model. A call into the editor is a `CallOutcome`: it returns or throws. An
editor call that answers through a callback is an `AsyncCall`: it throws at
once, has called back, has called back and then thrown, or has not called
back yet. The file reader's events
are a `ReaderEvent`, or a sequence of `ImageReaderEvent`s for the image
callback. The parser is a function `string -> ParseOutcome`. An operation
whose callback has not fired yet returns `Awaiting`, and its `isLoading` is
still true.

Three behaviours of the code are easy to misread. The model follows the code:
- Ё (U+0401) and ё (U+0451) lie outside the class `[a-zA-Zа-яА-Я0-9_-]`,
  because `а-я` and `А-Я` cover only U+0410–U+044F. The sanitiser therefore
  turns them into `_`, although the key filter lets them through
  (`YoAdmittedThenReplaced`).
- The progress percentage is `Math.round(loaded / total * 100)`. The model
  treats it as an opaque number.
- In `saveDesign` and `exportHtml` the `endsWith` branch is never taken. The
  sanitiser has already turned every `.` into `_`, so the final name is
  always the sanitised name followed by the extension
  (`FinalFileNameAppends`). For example, `design.json` is saved as
  `design_json.json`.

The date part of `getFileNameWithDate` and `getFileName` is not sanitised.
Only its `.` become `-`, so a locale that writes `10/11/2026` puts `/` into
the file name.

## Model

| member | source | states |
|---|---|---|
| FileName.ReplaceAll | src/composables/useFileName.ts:42 | a global one-unit replace keeps the length of the text |
| FileName.ReplaceAllAt | src/composables/useFileName.ts:42 | every unit of the class is replaced and every other unit stays in place |
| FileName.Sanitize | src/composables/useFileName.ts:42 | the length is kept; units in A–Z, a–z, U+0410–U+044F, 0–9, `_`, `-` stay in place; every other unit (Ё, ё, `.`, surrogates) becomes `_` |
| FileName.SanitizeOnlyAllowed | src/composables/useFileName.ts:72 | a sanitised name contains only allowed units |
| FileName.SanitizeFixedPoints | src/composables/useFileName.ts:42 | the sanitiser leaves a name unchanged exactly when all its units are allowed |
| FileName.SanitizeIdempotent | src/composables/useFileName.ts:72 | sanitising twice equals sanitising once |
| FileName.SanitizeHasNoDot | src/composables/useFileName.ts:42 | a sanitised name never contains `.` |
| FileName.DashedDate | src/composables/useFileName.ts:19-21 | the date keeps its length, every `.` becomes `-`, no `.` remains, and other units are kept |
| FileName.FileNameWithDate | src/composables/useFileName.ts:36-45 | definition of `getFileNameWithDate`; its properties are stated by `FileNameWithDateShape`, `FileNameWithDateHasNoDot` and `FullNameOfStoredName` |
| FileName.FileNameWithDateShape | src/composables/useFileName.ts:36-45 | the empty name gives `untitled` (with no date); otherwise the result is the sanitised name, followed by `_` and the dashed date exactly when `addDate` is set |
| FileName.FileNameWithDateHasNoDot | src/composables/useFileName.ts:36-45 | no name built by `getFileNameWithDate` contains `.` |
| FileName.FullName | src/composables/useFileName.ts:26-28 | definition of `getFileName` over the stored name and flag; its properties are stated by `FullNameKeepsUnsanitisedName`, `FullNameOfStoredName` and `FileNameState.GetFileName` |
| FileName.FullNameOfStoredName | src/composables/useFileName.ts:26-28 | for a name stored by `setFileName` from a non-empty input, `getFileName` agrees with `getFileNameWithDate` |
| FileName.FullNameOfEmptyInputHasDate | src/composables/useFileName.ts:26-44 | for the empty input they disagree: the stored `untitled` gets `_` and the date from `getFileName` (line 27, after line 73), while `getFileNameWithDate("", true)` is `untitled` alone (lines 37-38) |
| FileName.FullNameKeepsUnsanitisedName | src/composables/useFileName.ts:26-28 | `getFileName` starts with the stored name as it is, so a `.` in it survives |
| FileName.FileNameState.GetFileName | src/composables/useFileName.ts:26-28 | with `isSaveDate` off `getFileName` is exactly the stored `nameFile`; with it on, it is the unsanitised `nameFile`, then `_`, then the locale date with `.` turned into `-` |
| FileName.ContainsReserved | src/composables/useFileName.ts:115-116 | the regex test is true exactly when some unit is one of `<>:"/\|?*` |
| FileName.ValidateFileName | src/composables/useFileName.ts:105-121 | definition of `validateFileName`; its properties are stated by `ValidateFileNameOrder` and `LongNameReportedBeforeReservedChar` |
| FileName.ValidateFileNameOrder | src/composables/useFileName.ts:105-121 | a name is valid iff it is non-empty, at most 255 units and free of reserved units; each error occurs exactly when the earlier checks pass (empty, then too long, then reserved) |
| FileName.LongNameReportedBeforeReservedChar | src/composables/useFileName.ts:110-118 | a 300-unit name containing `<` is reported as too long |
| FileName.IsInvalidKey | src/composables/useFileName.ts:55-58 | definition of the blocking test of `filterInputFileName`; its properties are stated by `KeyFilterExcludeWins`, `DefaultKeyDecisions` and `AdmittedKeysSurviveSanitiser` |
| FileName.KeyFilterExcludeWins | src/composables/useFileName.ts:55-58 | a key in `exclude` is always blocked; a key that is not one unit long is blocked iff `exclude` lists it; a single word unit, Cyrillic letter or included key that is not excluded passes |
| FileName.DefaultKeyDecisions | src/composables/useFileName.ts:10-13 | with the default lists `-`, `_`, `a`, `Ё`, `ж` and "Backspace" pass, and `.`, `,` and `!` are blocked |
| FileName.AdmittedKeysSurviveSanitiser | src/composables/useFileName.ts:55-58 | every single-unit key the default filter admits, other than Ё and ё, is kept by the sanitiser |
| FileName.YoAdmittedThenReplaced | src/composables/useFileName.ts:42 | Ё and ё pass the default key filter but the sanitiser replaces them with `_` |
| FileName.FileNameState.FilterInputFileName | src/composables/useFileName.ts:51-63 | the key event's default is prevented exactly when the key is invalid for the current `include`/`exclude` lists |
| FileName.FileNameState.constructor | src/composables/useFileName.ts:3-13 | a new cell created with an initial name holds that name, the flag off and the default key lists |
| FileName.FileNameState.Default | src/composables/useFileName.ts:3-13 | a new cell created without an argument has the initial name `name`, holds it, has the flag off and the default key lists |
| FileName.DefaultCellResetsToName | src/composables/useFileName.ts:95-98 | a cell created without an argument holds `name` again after any `setFileName` followed by `resetFileName` |
| FileName.FileNameState.SetFileName | src/composables/useFileName.ts:69-75 | stores `untitled` for the empty name and the sanitised name otherwise; the stored name has only allowed units; `isSaveDate` is unchanged |
| FileName.FileNameState.SetSaveDate | src/composables/useFileName.ts:81-83 | the flag becomes exactly the value given; the name is unchanged |
| FileName.FileNameState.ToggleSaveDate | src/composables/useFileName.ts:88-90 | the flag is negated; the name is unchanged |
| FileName.ToggleTwiceRestores | src/composables/useFileName.ts:88-90 | toggling twice restores the flag and leaves the name alone |
| FileName.FileNameState.ResetFileName | src/composables/useFileName.ts:95-98 | the name goes back to the initial name and the flag to false |
| FileOperations.UploadPrecheck | src/composables/useFileOperations.ts:19-27 | definition of the pre-read checks of `uploadFile`; its properties are stated by `UploadPrecheckOrder` |
| FileOperations.UploadPrecheckOrder | src/composables/useFileOperations.ts:19-27 | a name not ending in `.json` is refused whatever the size; a `.json` file is refused for size iff it is larger than 10485760 bytes; exactly 10 MiB passes |
| FileOperations.ClassifyLoad | src/composables/useFileOperations.ts:32-53 | the result of reading is always a well-formed envelope |
| FileOperations.ClassifyLoadOutcomes | src/composables/useFileOperations.ts:32-53 | empty text gives the read error without parsing; a thrown parse `Error` gives its message and any other thrown value gives "Ошибка парсинга JSON"; a parsed value succeeds iff it is an object or array, and the success carries that value; a parsed non-object fails with "Некорректная структура JSON файла" |
| FileOperations.FinalFileName | src/composables/useFileOperations.ts:101-103 | definition of the download name of `saveDesign` (and lines 157-158 of `exportHtml`); its properties are stated by `FinalFileNameAppends` |
| FileOperations.FinalFileNameAppends | src/composables/useFileOperations.ts:101-103 | for an extension starting with `.`, the final name is always the sanitised name followed by the extension, because the `endsWith` branch is never taken |
| FileOperations.SaveDesignCheck | src/composables/useFileOperations.ts:93-99 | definition of the argument checks of `saveDesign`; its properties are stated by `SaveDesignCheckOrder` |
| FileOperations.SaveDesignCheckOrder | src/composables/useFileOperations.ts:92-99 | a design that is not an object is reported before an empty name, and the arguments pass iff both are good |
| FileOperations.ExportHtmlCheck | src/composables/useFileOperations.ts:148-154 | definition of the argument checks of `exportHtml`; its properties are stated by `ExportHtmlCheckOrder` |
| FileOperations.ExportHtmlCheckOrder | src/composables/useFileOperations.ts:147-154 | empty HTML is reported before an empty name, and the arguments pass iff both are good |
| FileOperations.FileOperations.constructor | src/composables/useFileOperations.ts:4-6 | a new instance is not loading and has no error |
| FileOperations.FileOperations.UploadFile | src/composables/useFileOperations.ts:13-79 | `isLoading` is true exactly while the result is awaited; a failed pre-read check is returned and recorded in `error`; once the checks pass, `error` stays null and the result is the reader's classified outcome; every resolved result is well formed |
| FileOperations.FileOperations.SaveDesign | src/composables/useFileOperations.ts:87-134 | it succeeds iff the design and name checks pass; success carries `fileName` = sanitised name + `.json` and leaves `error` null; failure returns and records the first check's message; `isLoading` ends false |
| FileOperations.FileOperations.ExportHtml | src/composables/useFileOperations.ts:142-188 | it succeeds iff the HTML and name checks pass; success carries `fileName` = sanitised name + `.html`; failure returns and records the message; `isLoading` ends false |
| EditorOperations.EditorSlot.constructor | src/composables/useEditorOperations.ts:5 | the module-level editor reference starts as `null` |
| EditorOperations.EditorOperations.constructor | src/composables/useEditorOperations.ts:8-9 | a new facade over a slot is not loading and has no error |
| EditorOperations.EditorOperations.EditorInstance | src/composables/useEditorOperations.ts:11 | definition of `editorInstance`, a read of the shared slot; `SharedSlotAcrossFacades` shows a setting made through one facade read through another |
| EditorOperations.EditorOperations.SetEditorInstance | src/composables/useEditorOperations.ts:17-19 | the shared slot holds exactly the given instance, and no facade's flags change |
| EditorOperations.CallError | src/composables/useEditorOperations.ts:35-51 | definition of the `error` a guarded call leaves once an editor is set; its properties are stated by `GuardedCall`, `LoadDesign` and `SetBodyValues` |
| EditorOperations.EditorOperations.GuardedCall | src/composables/useEditorOperations.ts:26-52 | without an editor: false, `error` = "not initialized", `isLoading` unchanged; with one: `isLoading` ends false, `error` is the argument's, the thrown or no message, and the result is true iff no error was recorded |
| EditorOperations.EditorOperations.LoadDesign | src/composables/useEditorOperations.ts:26-52 | true iff an editor is set, the design is an object and the editor returns; the not-initialized guard leaves `isLoading` alone; a throw records its message or "Неизвестная ошибка"; `isLoading` ends false once an editor is set |
| EditorOperations.EditorOperations.SetBodyValues | src/composables/useEditorOperations.ts:59-85 | as `LoadDesign`, with the body-values message |
| EditorOperations.EditorOperations.RegisterImageCallback | src/composables/useEditorOperations.ts:91-155 | true, with `isLoading` false and no error, iff an editor is set and registration returns; a throwing registration records its message |
| EditorOperations.EditorOperations.SaveDesign | src/composables/useEditorOperations.ts:161-183 | null without an editor (`isLoading` untouched); a throw before the callback resolves null and records the message; a callback resolves with the design; a callback followed by a throw still resolves with the design (the first resolution wins) while `error` records the message; `isLoading` is true exactly while the result is awaited |
| EditorOperations.EditorOperations.ExportHtml | src/composables/useEditorOperations.ts:189-211 | as `SaveDesign`, resolving with the callback data's `html`, also when the editor throws after calling back |
| EditorOperations.EditorOperations.ImageCallback | src/composables/useEditorOperations.ts:102-142 | the `done` payloads emitted and the new `error` are exactly those of the callback's specification for the upload and the reader's events |
| EditorOperations.FirstAttachment | src/composables/useEditorOperations.ts:104 | definition of `file.attachments?.[0]`; used by `ImageDones`/`ImageError` and stated by `ImageCallbackEarlyExits` |
| EditorOperations.EventDones | src/composables/useEditorOperations.ts:121-138 | definition of the `done` calls one reader event's handler makes; stated by `ProgressNotDeduplicated` and `ProgressDonesHaveNoUrl` |
| EditorOperations.ReaderDones | src/composables/useEditorOperations.ts:121-138 | definition of the `done` calls of a run of reader events; its properties are stated by `ReaderDonesAppend`, `ProgressDonesHaveNoUrl` and `TerminalDoneIsUniqueAndLast` |
| EditorOperations.ErrorAfterEvents | src/composables/useEditorOperations.ts:135-138 | definition of `error` after a run of reader events; its properties are stated by `ErrorAfterEventsSpec` |
| EditorOperations.ImageDones | src/composables/useEditorOperations.ts:102-142 | definition of the `done` calls of the whole image callback; stated by `ImageCallbackEarlyExits` and `ImageCallback` |
| EditorOperations.ImageError | src/composables/useEditorOperations.ts:102-142 | definition of `error` after the whole image callback; stated by `ImageCallbackEarlyExits` and `ImageCallback` |
| EditorOperations.ImageCallbackEarlyExits | src/composables/useEditorOperations.ts:104-116 | with no attachment there is one `done({progress:100,url:''})` and `error` is untouched; over 5242880 bytes the same single `done` comes with the size error; exactly 5 MiB is read |
| EditorOperations.ReaderDonesAppend | src/composables/useEditorOperations.ts:121-138 | the reader's handlers keep no state: the `done` calls of concatenated events are those of each part in turn |
| EditorOperations.ProgressNotDeduplicated | src/composables/useEditorOperations.ts:121-126 | two equal length-computable progress events produce two equal `done` calls |
| EditorOperations.ProgressDonesHaveNoUrl | src/composables/useEditorOperations.ts:121-126 | progress events never produce a `done` with a `url` |
| EditorOperations.TerminalDoneIsUniqueAndLast | src/composables/useEditorOperations.ts:121-138 | for progress events followed by one load or error, exactly one `done` carries a `url`, and it is the last |
| EditorOperations.ErrorAfterEventsSpec | src/composables/useEditorOperations.ts:135-138 | `error` becomes "Ошибка чтения файла" iff the reader reported an error, and otherwise keeps its earlier value |

`EditorOperations.SharedSlotAcrossFacades` is a client of two facades over
one slot. When an editor is set through one facade, the other facade sees it
at once, and the flags stay per facade.

## Left out

- Download plumbing: `Blob`, `URL.createObjectURL`/`revokeObjectURL` and the anchor click are browser I/O. The model keeps only the returned result and the final file name, and assumes this plumbing does not throw.
- `JSON.stringify` of the design is left out for the same reason. A design that `JSON.stringify` rejects (cyclic, or holding a `BigInt`) would take the `catch` path, and the model does not capture that.
- `FileReader` and `JSON.parse` are parameters: the reader's event and a parse function. `readAsText` throwing synchronously inside the promise executor would reject the promise. The model leaves that out.
- `toLocaleDateString()` depends on the locale. The date string is a parameter, and only the `.`→`-` replacement is modelled.
- The progress percentage `Math.round(loaded / total * 100)` is floating point. It is an opaque number carried by each progress event.
- Vue reactivity (`ref`, `computed`) is left out. `editorInstance` is a direct read of the shared slot (`EditorOperations.EditorInstance`), so the caching of a `computed` over a non-reactive variable is not modelled.
- `event.preventDefault()` is the boolean that `FilterInputFileName` returns.
- Promise interleaving is left out: each operation runs alone. Concurrent calls that share one instance's `isLoading`/`error` flags are concurrency and are not modelled.
- The file reader's `abort` event has no handler in the source. The model's reader events do not include it.
- `typeof` checks on arguments declared as `string` are not modelled. Names, keys and HTML are always strings in the model, so only emptiness is checked. `undefined` and functions would take the same branch of the object test as `null`, and `Json` does not list them.
- The `'Неизвестная ошибка'` fallbacks of `saveDesign` and `exportHtml` in `useFileOperations` apply only to non-`Error` throws. Their argument checks always throw `Error`s, and the download plumbing is not modelled, so no such throw arises in the model.
- `FileName.ValidateFileNameOrder` covers only string arguments. The `typeof name !== 'string'` branch cannot be reached with a `Text`.
- `EditorOperations.EditorOperations.ImageCallback`: `done` is a sequence of payloads. The callback itself is a method of the facade and is not a closure handed to the editor.
