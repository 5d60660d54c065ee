# Recently-opened history plugin, modelled in Dafny

This project models the uTools plugin that lists and opens the editor's recently opened
folders, files and workspaces (`plugins/vscode/src`). It also models the `String.format`
placeholder formatter that two other plugins install.

The parts modelled are:

- **History store** (`history.dfy`). This is what `files.ts` does:
  - the editor's state database is a map from file path to the key/value rows of its `ItemTable`;
  - the history row `history.recentlyOpenedPathsList` holds the decoded list of entries;
  - `GetFiles` lists the canonical path of every entry (`fileUri || folderUri || workspace.configPath`);
  - `DeleteFiles` and `DeleteMultipleFiles` filter the entries and write the file back only when something was removed.
- **Configuration** (`setting.dfy`). This is what `setting.ts` does:
  - the default record of an IDE feature code;
  - the defaulting `GetConfig` applies to a record it loads;
  - storage under `nativeId + "." + code` in the host's key-value store;
  - the check the settings form makes before saving.
- **Search and selection** (`vscode.dfy`, class `VSCodePlugin.VSCode`). This is what `vscode.ts` does:
  - the `-rm` marker switches a query to remove mode;
  - keywords filter the decoded, lower-cased paths;
  - the surviving paths become list items with titles and icons;
  - selecting an item either builds and launches the editor command line, or deletes the history record after confirmation.
- **String.format** (`string_format.dfy`). One left-to-right pass of `/{(\d+)}/g` over the template. Each placeholder is replaced by the argument its canonical index names, or kept when that argument is undefined. The "yiyan" subtitle is built from it.
- **Shared helpers.** `js_string.dfy` and `node_path.dfy` state the JavaScript and Node.js built-ins these use:
  - `trim`, `\s`, `includes`, `replace(/…/g, "")`, `split(/\s+/)` and `parseInt`;
  - `decodeURIComponent`, `path.basename`, `path.extname` and `path.join`.

Everything the plugin gets from its host is a parameter:

- the platform name;
- the `appData` directory;
- the native id;
- the icon directory listing;
- the user's answer to the confirmation dialog;
- the error and output streams of the launched process.

State the source changes in place is modelled in classes:

- a `History.Disk` holds the database files and the record of writes;
- a `Setting.ConfigStore` is the host's key-value store;
- a `VSCodePlugin.VSCode` has its `code`, `config` and `isRemoveMode` fields.

## Model

| member | source | states |
|---|---|---|
| History.Load | plugins/vscode/src/files.ts:28-33 | an undefined or missing database file is unreadable; loading succeeds exactly when the file has the history row and that row decodes to a recent-list value, and then yields its entries |
| History.Without | plugins/vscode/src/files.ts:65-72 | the single-path filter is never longer than the history and keeps no entry whose path is the target |
| History.WithoutAny | plugins/vscode/src/files.ts:124-131 | the batch filter is never longer than the history and keeps no entry whose path is among the targets |
| History.CanonicalPathPriority | plugins/vscode/src/files.ts:34-37 | a string entry is its own path; for a record, a non-empty `fileUri` wins, then a non-empty `folderUri`, then the workspace's `configPath`; with none of them the path is undefined |
| History.Paths | plugins/vscode/src/files.ts:34-38 | listing succeeds exactly when every entry has a path; the result has one path per entry, in order, each the entry's canonical path |
| History.GetFiles | plugins/vscode/src/files.ts:22-39 | a history that cannot be read fails with that error; otherwise it lists one canonical path per entry, in order, and fails only when some entry has no path |
| History.WithoutKeepsExactly | plugins/vscode/src/files.ts:65-72 | the single-path filter keeps, in their order and as often as before, exactly the entries whose path is not the target |
| History.WithoutShrinks | plugins/vscode/src/files.ts:64-77 | the filtered history is shorter exactly when some entry matches the target; otherwise it is the history itself |
| History.WithoutAnyKeepsExactly | plugins/vscode/src/files.ts:124-131 | the batch filter keeps, in their order and as often as before, exactly the entries whose path is not among the targets |
| History.WithoutAnyShrinks | plugins/vscode/src/files.ts:123-135 | the batch count of deleted entries is positive exactly when some entry matches a target; a zero count means the history is unchanged |
| History.WithoutAnySingleton | plugins/vscode/src/files.ts:124-131 | deleting a one-element list of paths is the same as deleting that one path |
| History.WithoutAnyIsDeleteEach | plugins/vscode/src/files.ts:124-131 | deleting a list of paths at once gives the same history as deleting them one after the other |
| History.WithoutAnyNoTargets | plugins/vscode/src/files.ts:124-133 | an empty list of targets deletes nothing |
| History.ListedPathIsDeletable | plugins/vscode/src/files.ts:65-72 | every path GetFiles lists matches an entry, so deleting it from the same history removes something |
| History.DeleteFiles | plugins/vscode/src/files.ts:47-98 | a history that cannot be read fails with that error and nothing is written; otherwise the result is true exactly when some entry matches; then the row holds the filtered entries and the file is written once; when false, nothing changes |
| History.DeleteMultipleFiles | plugins/vscode/src/files.ts:106-156 | a history that cannot be read fails and nothing is written; otherwise the count is the number of entries removed; it is positive exactly when some entry matches; the file is written once when it is positive and never otherwise |
| Setting.ShellFor | plugins/vscode/src/setting.ts:23-27 | `""` on win32, `zsh -l -c` on darwin, `bash -l -c` on linux, undefined on any other platform |
| Setting.Capitalize | plugins/vscode/src/setting.ts:37 | same length; the first character is upper-cased and the rest is unchanged |
| Setting.NewConfig | plugins/vscode/src/setting.ts:22-46 | code and command are the lower-cased code; the IDE directory is its capitalised form; the database path is under that directory; icon, auto-detect flag "1", timeout "3000" and the platform's shell |
| Setting.CompleteConfig | plugins/vscode/src/setting.ts:56-72 | a missing flag becomes "0"; a missing IDE directory becomes the code; with flag "1" the database is recomputed from the directory; every other field is unchanged |
| Setting.CompleteConfigIdempotent | plugins/vscode/src/setting.ts:56-72 | defaulting a configuration a second time changes nothing |
| Setting.NewConfigIsComplete | plugins/vscode/src/setting.ts:51-72 | a new default configuration already has every field GetConfig fills in |
| Setting.SaveKeyOfNewConfig | plugins/vscode/src/setting.ts:49-54 | the key the new default is saved under equals the key it is looked up under exactly when the code has no upper-case letter |
| Setting.LoadedIdeDirOnlyEmptyForEmptyCode | plugins/vscode/src/setting.ts:59-61 | after loading, the IDE directory can be empty only when the feature code is empty |
| Setting.SaveConfig | plugins/vscode/src/setting.ts:76-83 | the store maps `nativeId + "." + code` to the configuration and is otherwise unchanged |
| Setting.GetConfig | plugins/vscode/src/setting.ts:48-74 | returns the stored record after defaulting, and leaves the store as it was; when no record is stored it returns the new default and saves it under its own key |
| Setting.SubmitSettings | plugins/vscode/src/setting.ts:182-194 | an icon without "png" is refused and nothing is saved; an undefined icon aborts and nothing is saved; otherwise the configuration is saved |
| Setting.SettingPage.constructor | plugins/vscode/src/setting.ts:89-96 | the page's code is `code-setting`; its configuration is the loaded one with an empty IDE directory replaced by "Code"; the store is unchanged when a record exists, and otherwise gains the new default under its own key |
| JsString.Includes | plugins/vscode/src/vscode.ts:39 | true exactly when the pattern occurs at some offset |
| JsString.RemoveAll | plugins/vscode/src/vscode.ts:44 | never longer than the input; a text without the pattern is unchanged |
| JsString.Split | plugins/vscode/src/vscode.ts:49 | at least one piece; no piece contains white space |
| JsString.RemoveAllLeadingPattern | plugins/vscode/src/vscode.ts:44 | an occurrence of the pattern at the start is removed and the scan resumes after it |
| JsString.RemoveAllLiteralPrefix | plugins/vscode/src/vscode.ts:44 | text in which the pattern's first character does not occur is kept in front of what the rest becomes |
| JsString.RemoveAllNoMatchPrefix | plugins/vscode/src/vscode.ts:44 | a prefix at none of whose positions the pattern starts is kept in front of what the rest becomes |
| JsString.SplitPieceThen | plugins/vscode/src/vscode.ts:49 | a piece without white space followed by a run of white space and then text not starting with white space splits as that piece followed by the pieces of the text |
| JsString.SplitWordThen | plugins/vscode/src/vscode.ts:49 | a word, one space and text not starting with white space split as the word followed by the pieces of the text |
| JsString.JoinWordsCons | plugins/vscode/src/vscode.ts:116 | joining a word in front of other words puts one separator between it and their join |
| JsString.SplitJoinWords | plugins/vscode/src/vscode.ts:49 | splitting non-empty words without white space joined by single spaces gives back the same words, in order |
| JsString.TrimIdempotent | plugins/vscode/src/vscode.ts:44 | trimming a trimmed text changes nothing |
| JsString.ParseIntNatToString | plugins/vscode/src/vscode.ts:121 | `parseInt` reads back every decimal numeral as its value |
| NodePath.DecodeUriWithoutEscape | plugins/vscode/src/vscode.ts:63 | a path without `%` decodes to itself |
| NodePath.Basename | plugins/vscode/src/vscode.ts:64 | the base name contains no `/` |
| NodePath.Extname | plugins/vscode/src/vscode.ts:72 | the extension is empty or one `.` followed by text without `.` |
| VSCodePlugin.RemoveModeIffMarker | plugins/vscode/src/vscode.ts:39-45 | remove mode is on exactly when the query contains `-rm`; outside remove mode the query is searched as typed |
| VSCodePlugin.StripMarkerIdempotent | plugins/vscode/src/vscode.ts:44 | stripping the marker again changes nothing once no marker is left |
| VSCodePlugin.StripMarkerNotIdempotent | plugins/vscode/src/vscode.ts:44 | `--rmrm` strips to `-rm`, which strips to the empty text: the removal can create a new marker |
| VSCodePlugin.HasAllKeywordsMeaning | plugins/vscode/src/vscode.ts:49-57 | a path passes the keyword test exactly when it contains, case-insensitively after decoding, every keyword that is not blank |
| VSCodePlugin.HasAllKeywordsSound | plugins/vscode/src/vscode.ts:49-57 | a path that passes the keyword test contains every keyword that is not blank |
| VSCodePlugin.HasAllKeywordsComplete | plugins/vscode/src/vscode.ts:49-57 | a path containing every keyword that is not blank passes the keyword test |
| VSCodePlugin.HasAllKeywordsSnoc | plugins/vscode/src/vscode.ts:49-57 | one more keyword adds exactly one more condition: the path contains it, or it is blank |
| VSCodePlugin.KeepWithKeywordStep | plugins/vscode/src/vscode.ts:49-57 | filtering the kept paths by one more keyword that is not blank equals the conjunctive filter by the longer keyword list |
| VSCodePlugin.KeepWithBlankKeywordStep | plugins/vscode/src/vscode.ts:49-57 | a blank keyword added to the list changes nothing the filter keeps |
| VSCodePlugin.KeepWithAllKeywordsExactly | plugins/vscode/src/vscode.ts:49-57 | the search keeps, in their order and each as often as it is listed, exactly the paths whose decoded, lower-cased text contains every keyword; the others are dropped |
| VSCodePlugin.KeepWithBlankKeywords | plugins/vscode/src/vscode.ts:48-50 | when every keyword is blank, no path is filtered out |
| VSCodePlugin.FilterByKeywords | plugins/vscode/src/vscode.ts:48-58 | the sequential keyword filtering equals the one-pass filter by all keywords of the search text |
| VSCodePlugin.IconStem | plugins/vscode/src/vscode.ts:211 | the stem is the icon name's prefix without `.`, ending just before its first `.` |
| VSCodePlugin.FindIcon | plugins/vscode/src/vscode.ts:210-212 | the first icon whose stem is the lower-cased extension, or none when no icon fits |
| VSCodePlugin.GetIcon | plugins/vscode/src/vscode.ts:208-216 | `icon/` + the first fitting icon; otherwise `icon/folder.svg` for a path without extension and `icon/file.svg` for one with an extension |
| VSCodePlugin.IconExtension | plugins/vscode/src/vscode.ts:72 | `.remote` for any path containing "remote", its extension otherwise |
| VSCodePlugin.Project | plugins/vscode/src/vscode.ts:60-78 | one item per path, in order |
| VSCodePlugin.ItemForShape | plugins/vscode/src/vscode.ts:61-76 | an item carries the raw path as payload, the decoded path as description, and the title "删除: " or "打开: " followed by the decoded path's base name |
| VSCodePlugin.ProjectedItem | plugins/vscode/src/vscode.ts:61-76 | each item carries the raw path as payload and the decoded path as description; its title is the mode's label and the decoded path's base name |
| VSCodePlugin.ExecOutcome | plugins/vscode/src/vscode.ts:88-95 | the launch succeeds exactly when the process reports no error and no error output; a failure carries the error message, or else the error output, followed by the output |
| VSCodePlugin.QuotedCommand | plugins/vscode/src/vscode.ts:108 | the editor command is quoted exactly when its trimmed text contains a space |
| VSCodePlugin.UriFlag | plugins/vscode/src/vscode.ts:111-112 | `--file-uri` exactly when the payload names a `.code-workspace` file, `--folder-uri` otherwise |
| JsString.JoinThreeWords | plugins/vscode/src/vscode.ts:116 | joining three words puts the separator between neighbours only |
| VSCodePlugin.OpenArguments | plugins/vscode/src/vscode.ts:107-114 | the pushed arguments are the editor command, quoted when its trimmed text has a space, the URI flag and the quoted payload |
| VSCodePlugin.BuildOpenCommand | plugins/vscode/src/vscode.ts:107-118 | the joined and shell-wrapped command line is the open command of the editor, the shell and the payload |
| VSCodePlugin.OpenCommand | plugins/vscode/src/vscode.ts:107-118 | the command line is the quoted editor, the flag and the quoted payload separated by single spaces, wrapped as `shell "env; …"` unless the shell is blank |
| VSCodePlugin.EffectiveTimeout | plugins/vscode/src/vscode.ts:121-122 | at least 3000; any other value is the parsed timeout itself; a parsed timeout of 3000 or more is kept |
| VSCodePlugin.EffectiveTimeoutOfNumeral | plugins/vscode/src/vscode.ts:121-122 | a decimal timeout below 3000 becomes 3000 and any other is kept |
| VSCodePlugin.OpenOutcomeCases | plugins/vscode/src/vscode.ts:107-132 | opening fails exactly when the command or the shell is undefined; otherwise the open command runs with a timeout of at least 3000 and hides the window exactly when the process succeeds |
| VSCodePlugin.StickyRemoveMode | plugins/vscode/src/vscode.ts:195 | the sub-input `-rm` set after a deletion is a remove-mode query with no keyword |
| VSCodePlugin.KeptIsListed | plugins/vscode/src/vscode.ts:49-58 | every path the search keeps is one of the listed paths |
| VSCodePlugin.ListedItemIsDeletable | plugins/vscode/src/vscode.ts:159-196 | an item listed by a search names a record that deleting it from the same history removes, so the notice is "deleted" |
| VSCodePlugin.VSCode.constructor | plugins/vscode/src/vscode.ts:17-20 | the object holds its code and the configuration GetConfig loads, with remove mode off; the store is unchanged when a record exists, and otherwise gains the new default under its own key |
| VSCodePlugin.VSCode.Search | plugins/vscode/src/vscode.ts:35-81 | a history that cannot be read fails and leaves the mode; otherwise the mode follows the marker and the items are the projection of the keyword-filtered paths |
| VSCodePlugin.VSCode.PerformDelete | plugins/vscode/src/vscode.ts:177-196 | the notice says deleted, not found or failed, as DeleteFiles reports; the disk changes as DeleteFiles states; the sub-input becomes `-rm` |
| VSCodePlugin.VSCode.Select | plugins/vscode/src/vscode.ts:99-133 | in remove mode a declined confirmation changes nothing, and a confirmed one performs the delete; otherwise the outcome is the open outcome and the disk is untouched |
| VSCodePlugin.VSCode.Open | plugins/vscode/src/vscode.ts:106-132 | the open branch of select: an undefined command or shell fails; otherwise the open command for the item is launched with the effective timeout, and the window is hidden exactly when the process succeeds |
| StringFormat.Format | plugins/mytool/preload.js:12-15 | a template without `{` comes back unchanged |
| StringFormat.PlaceholderLen | plugins/mytool/preload.js:12 | the length of the one match of `{digits}` at the start of the text, or 0 when no prefix is such a match |
| StringFormat.Lookup | plugins/mytool/preload.js:13-15 | a defined argument is found only under the canonical spelling of an index below the argument count |
| StringFormat.FormatWithoutPlaceholder | plugins/mytool/preload.js:12 | a template with no `{digits}` match anywhere comes back unchanged |
| StringFormat.FormatWithoutArguments | plugins/CustomTool/preload.js:4-7 | when no argument is defined, every placeholder is kept and the template comes back unchanged |
| StringFormat.FormatLiteralPrefix | plugins/mytool/preload.js:12 | text without `{` is copied through in front of whatever follows |
| StringFormat.FormatPlaceholderThen | plugins/mytool/preload.js:12-15 | a leading `{n}` becomes argument n when defined and stays otherwise; the scan goes on after it without rescanning the substituted text |
| StringFormat.FormatSinglePlaceholder | plugins/CustomTool/preload.js:4-7 | `{n}` alone gives argument n when defined, and stays verbatim for an index at or beyond the argument count |
| StringFormat.LeadingZeroKept | plugins/mytool/preload.js:13-15 | `{01}` names no argument and is kept |
| StringFormat.FormatOnlyArgument | plugins/mytool/preload.js:12 | `format("{0}", s)` is `s` even when `s` holds placeholders |
| StringFormat.FormatPair | plugins/mytool/preload.js:12-15 | two placeholders around literal text are substituted independently |
| StringFormat.FormatBarPair | plugins/mytool/preload.js:242 | `format("{0}\|{1}", a, b)` is the two substitutions around a bar |
| StringFormat.FormatBarUndefinedSecond | plugins/mytool/preload.js:242 | with an undefined second argument the `{1}` placeholder stays |
| StringFormat.Install | plugins/CustomTool/preload.js:1-10 | an existing `String.format` is kept; otherwise this formatter is installed |
| StringFormat.InstallIdempotent | plugins/mytool/preload.js:9-18 | installing a second time changes nothing |
| StringFormat.YiyanDescriptionDefined | plugins/mytool/preload.js:240-243 | the description is `from1` when `from2` is empty and `from1\|from2` otherwise |
| StringFormat.YiyanDescriptionUndefinedFrom2 | plugins/mytool/preload.js:240-243 | an undefined `from2` is not empty, so the description is `from1\|{1}` |

## Left out

- Reading and writing the SQLite file is not modelled, and neither are `sql.js` or the JSON codec. A database is its table of decoded values, and writing records the path. Top-level fields of the JSON value other than `entries` are not represented.
- Database handles are never closed by `GetFiles`, and `DeleteFiles` skips `db.close()` on its no-match return as well as on the error paths; `DeleteMultipleFiles` closes only when it completes. Handles, closing and the atomicity of writes are not modelled, and there is no concurrency.
- Error messages and their texts are not modelled. `StoreError` names the step that fails. In `DeleteFiles` and `DeleteMultipleFiles` (`files.ts:56-61` and `files.ts:115-120`) an empty history value fails at `JSON.parse` rather than at the emptiness test; both are failures here.
- `DecodeUri` decodes only `%XX` escapes below 0x80. It keeps malformed escapes instead of throwing `URIError`, and does not decode multi-byte UTF-8 sequences.
- `Lower`/`Upper` map ASCII letters only, not Unicode case mapping.
- `Basename`/`Extname`/`JoinAll` follow POSIX `path`. `JoinAll` does not normalise `.`, `..` or repeated separators; the Windows flavour is not modelled.
- `ParseInt` reads integers, so a timeout's fraction or exponent is dropped as `parseInt` drops it. Values beyond double precision are not rounded.
- `VSCodePlugin.VSCode.Select`: `exec` and `getShellEnv` are not modelled. Neither are the environment merge, `hideMainWindow`, `alert`, `confirm` and `showNotification`; their observable results are parameters or outcome values.
- `performDelete` runs asynchronously after `select` returns. The model runs it to completion inside `Select`.
- `StripMarker`: stripping `-rm` is not idempotent at the source either (`--rmrm`); idempotence is proved only when no marker is left.
- `Setting.SaveConfig` does not model the `NewIDE` call that re-registers the host features. `SettingPage`'s rendering, form binding and `toggleDatabaseMode`/`updateDatabaseTips` DOM updates are not modelled; only the submit check is (`SubmitSettings`).
- `StringFormat.Format` takes its arguments as the strings `replace` converts them to. `null` and numbers are given in their string form; only `undefined` is distinguished.
- `StringFormat.YiyanDescription` models the loose test `body['from2'] != ""` for strings and `undefined` only. A JSON `0`, `false` or `[]` compares equal to `""` under `!=`, so the source shows `from1` alone, while the model, given the string "0", shows `from1|0`.
- `Setting.Config` has no `collections` field and no `[key: string]` index signature. SaveConfig stores whatever such fields the record carries, so CompleteConfig's "every other field is unchanged" covers only the eight modelled fields.
- The HTTP, clipboard and lifecycle code in both preload.js files is not modelled. The yiyan subtitle is the only composition taken from it.
