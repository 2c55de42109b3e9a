# File actions, Overleaf export/import and permission queries

This project is a Dafny model of the front-end logic in a browser file manager (a CERNBox/ownCloud web client). It covers four parts:

- **The file-actions mixin** (`apps/files/src/fileactions.js`):
  - the ordered list of row actions: one "open in editor" action per registered editor, followed by Display PDF, Download, Favourite, Rename, Copy, Move and Delete, each with its `isEnabled` predicate;
  - the action-in-progress lock and its tooltip;
  - the rename dialog: the five name checks plus the collision check, submitting the rename, and the error title that says whether the file is locked (HTTP 423);
  - toggling a favourite;
  - where `openFileAction` sends the user.
- **Export to Overleaf** (`exportOverleaf.ts`):
  - the `isEnabled` predicate;
  - the `path`/`lang` query of the POST;
  - the three ways a response is handled: open the returned URL, with a warning when the pop-up was blocked; the "already exported" conflict modal, with a readable local date; or the error notification;
  - the retry the conflict modal offers, which adds `&override=true` and never reaches the conflict branch again.
- **Import from Overleaf** (`importOverleaf.ts`):
  - the `isEnabled` predicate (folders only);
  - the overwrite warning, which sends nothing;
  - `makeRequest`, which hides the modal, sends the GET request and shows exactly one notification.
- **The permission manager** (`permissionManager.ts`): `hasSystemManagement`, `hasUserManagement`, `hasSpaceManagement` and `canEditSpaceQuota`. Each is a pure query over the user that the store provides.

Module layout:

- `Wrappers`: `Option`, used where the source has `null`/`undefined`.
- `JsStrings`: the JavaScript string operations the core relies on:
  - `String(n)`
  - `padStart`
  - `replace` with a string pattern, which replaces the first occurrence
  - the `\s` class of `/\s+$/`
- `UrlQuery`: the `key=value&…` shape that `qs.stringify` produces, a parser for it, and the round trip between the two.
- `Resources`: the resource record.
- `Ui`: the UI state the handlers act on, as a class. Its fields are:
  - the current modal;
  - the disabled flag of the confirm button;
  - the modal's input error;
  - an ordered log of effects: modal shown or hidden, request sent, notification shown, window opened.
- `FileActions`, `ExportOverleaf`, `ImportOverleaf`, `Permissions`: one module per core file.

The outside world is passed in as parameters:

- the HTTP responses, and whether a rename or favourite request was rejected;
- whether `window.open` returned a window;
- the local calendar fields of the export time;
- the value encoder that `qs`/`encodeURIComponent` apply (`enc`);
- the `urlJoin` endpoint (`baseUrl`);
- the `canBeMoved` helper.

## Model

| member | source | states |
|---|---|---|
| FileActions.EditorActions | apps/files/src/fileactions.js:24-44 | one editor action per registered editor, in registry order |
| FileActions.Actions | apps/files/src/fileactions.js:23-146 | the action list is the editor actions, in order, followed by exactly the seven fixed actions in declaration order |
| FileActions.EditorActionEnabled | apps/files/src/fileactions.js:31-42 | the i-th action of the list is enabled iff the item's extension is the i-th editor's extension |
| FileActions.RenameAndDeleteFollowParent | apps/files/src/fileactions.js:87-141 | rename and delete are enabled iff the item has the capability and so does the parent, when a parent is given |
| FileActions.ParentOnlyRestricts | apps/files/src/fileactions.js:45-143 | for every action, passing a parent can only disable it; a parent that may rename and delete changes nothing |
| FileActions.ActionInProgress | apps/files/src/fileactions.js:159-161 | an item is locked iff some in-progress entry has its id |
| FileActions.ActionInProgressIgnoresOrder | apps/files/src/fileactions.js:159-161 | the lock does not depend on the order of the in-progress entries |
| FileActions.DisabledActionTooltip | apps/files/src/fileactions.js:163-173 | no tooltip iff no entry has the item's id; otherwise the folder text for folders and the file text for everything else |
| FileActions.TakenError | apps/files/src/fileactions.js:270-274 | the "already taken" text contains the new name verbatim between quotes |
| FileActions.FindCollision | apps/files/src/fileactions.js:263-267 | a hit is a listed resource with the new name and only happens when the name changed; no hit means the name is unchanged or unused |
| FileActions.CheckNewName | apps/files/src/fileactions.js:241-279 | each error (empty name, "/", ".", "..", trailing whitespace, already taken) is shown exactly when the earlier checks pass and its own check fails; the error is cleared exactly when the name is well formed and is either not a collision or the listing is flat; keeping the current name is never "taken" |
| FileActions.RenameDialogCheckNewName | apps/files/src/fileactions.js:241-279 | the modal's input error becomes the check's verdict and nothing else changes |
| FileActions.RenameModal | apps/files/src/fileactions.js:290-306 | the rename dialog has an input pre-filled with the current name, and confirming renames that resource |
| FileActions.DisplayRenameDialog | apps/files/src/fileactions.js:281-309 | the rename modal becomes the open modal and nothing else changes |
| FileActions.RenameErrorTitle | apps/files/src/fileactions.js:223-233 | the title always starts with the generic text and adds " - the file is locked" iff the status code is 423 |
| FileActions.RenameResource | apps/files/src/fileactions.js:209-239 | the confirm button is toggled and the rename request sent; success hides the modal and leaves the button toggled; failure toggles the button back and shows one danger notification with the right title |
| FileActions.ToggleFileFavorite | apps/files/src/fileactions.js:175-187 | the favourite request is sent; a rejection adds one danger notification naming the file |
| FileActions.EditorUrlWithoutPlaceholders | apps/files/src/fileactions.js:344-346 | a template without `{PATH}` and `{FILEID}` is opened unchanged |
| FileActions.FirstPlaceholderAfterBraceFree | apps/files/src/fileactions.js:344-346 | after a brace-free prefix, the first occurrence of a placeholder is right after that prefix |
| FileActions.EditorUrlFillsFirstPlaceholders | apps/files/src/fileactions.js:343-346 | filling `a{PATH}b{FILEID}c` gives `a` + path + `b` + id + `c`, and placeholders later in `c` are left as they are |
| FileActions.OpenFileAction | apps/files/src/fileactions.js:336-379 | version-3 editors open a `_blank` window; every other editor gets the item's path; new-tab editors open their route with the `${routeName}-${filePath}` target, which is `undefined-<path>` without a route name; the rest push `EditorRouteName` |
| FileActions.OpenFileActionAsWrittenLosesPath | apps/files/src/fileactions.js:336-353 | for a version-3 template, the intended URL carries the encoded path and id, while the as-written URL carries the encoding of "undefined" twice; the two differ whenever those encodings start differently |
| JsStrings.NatToString | packages/web-app-files/src/mixins/actions/exportOverleaf.ts:89-97 | `String(n)` is a non-empty digit string with no leading zero; it has one digit iff n < 10 |
| JsStrings.NatToStringRoundTrip | packages/web-app-files/src/mixins/actions/exportOverleaf.ts:89-97 | the digits of `String(n)` read back as n |
| JsStrings.PadStart | packages/web-app-files/src/mixins/actions/exportOverleaf.ts:91-97 | the padded string has length max(len, width), ends with the original and starts with fill characters only |
| JsStrings.IndexOf | apps/files/src/fileactions.js:345-346 | the result is the first position where the pattern occurs, or none iff it occurs nowhere |
| FileActions.ReplaceAfterBraceFree | apps/files/src/fileactions.js:344-346 | replacing a placeholder that follows a brace-free prefix puts the replacement exactly where the placeholder was |
| JsStrings.ReplaceFirstAbsent | apps/files/src/fileactions.js:344-346 | replacing an absent pattern leaves the string unchanged |
| JsStrings.EndsWithWhitespaceIsRegex | apps/files/src/fileactions.js:258 | the last-character test holds iff a non-empty run of `\s` characters ends the name, which is what `/\s+$/` matches |
| UrlQuery.QueryRoundTrip | packages/web-app-files/src/mixins/actions/exportOverleaf.ts:56-60 | parsing a stringified query gives back the same pairs, in order, when no key or value holds a separator |
| UrlQuery.QueryPartOfWithQuery | packages/web-app-files/src/mixins/actions/exportOverleaf.ts:60 | the text after the first '?' of `${baseUrl}?${query}` is the query, when the base has no '?' |
| UrlQuery.QueryAppend | packages/web-app-files/src/mixins/actions/exportOverleaf.ts:132-136 | appending `&` plus a field equals stringifying the pairs with that field added at the end |
| UrlQuery.PathLangUrlFields | packages/web-app-files/src/mixins/actions/importOverleaf.ts:71-75 | the request URL's parameters are exactly `path` then `lang`, carrying the encoded resource path and language |
| Ui.Ui.CreateModal | apps/files/src/fileactions.js:152 | the given modal becomes the open one and the log records that it was shown |
| Ui.Ui.HideModal | apps/files/src/fileactions.js:153 | no modal is open afterwards and the log records the hiding |
| Ui.Ui.SetModalInputErrorMessage | apps/files/src/fileactions.js:154 | the input error becomes the given one and nothing else changes |
| Ui.Ui.ToggleModalConfirmButton | apps/files/src/fileactions.js:210 | the confirm button's disabled flag flips and nothing else changes |
| Ui.Ui.ShowMessage | apps/files/src/fileactions.js:151 | the notification is appended to the log and nothing else changes |
| Ui.Ui.Send | apps/files/src/fileactions.js:149 | the request is appended to the log and nothing else changes |
| Ui.Ui.OpenWindow | packages/web-app-files/src/mixins/actions/exportOverleaf.ts:69 | the window opening is appended to the log and nothing else changes |
| ExportOverleaf.ExportUrlFields | packages/web-app-files/src/mixins/actions/exportOverleaf.ts:56-60 | the export URL's parameters are `path` then `lang`; the retry URL's parameters are those followed by `override=true` and nothing else |
| ExportOverleaf.RetryUrlAppendsOverride | packages/web-app-files/src/mixins/actions/exportOverleaf.ts:132-136 | the retry URL is the export URL whose query has `override=true` appended as its last field |
| ExportOverleaf.TwoDigitsValue | packages/web-app-files/src/mixins/actions/exportOverleaf.ts:91-97 | for 0..99, `String(n).padStart(2, '0')` is two digits that read back as n |
| ExportOverleaf.ReadableDateLayout | packages/web-app-files/src/mixins/actions/exportOverleaf.ts:88-97 | the readable date is the year's digits followed by `-MM-DD at HH:MM`; every group reads back as its calendar field, with the month counted from 1 |
| ExportOverleaf.ConflictTitle | packages/web-app-files/src/mixins/actions/exportOverleaf.ts:86-99 | the title is the plain text when there is no non-zero export time; otherwise it is the "on " text followed by the readable date |
| ExportOverleaf.ExportErrorDescription | packages/web-app-files/src/mixins/actions/exportOverleaf.ts:113-117 | the description starts with "Unable to export project"; it is exactly that iff the server message is empty, and otherwise `": "` + message follows |
| ExportOverleaf.ExportOutcome | packages/web-app-files/src/mixins/actions/exportOverleaf.ts:68-126 | the URL is opened iff `app_url` is non-empty and the status is ok; conflict iff that fails and the code is ALREADY_EXISTS; failure otherwise, with the error description |
| ExportOverleaf.RetryOutcome | packages/web-app-files/src/mixins/actions/exportOverleaf.ts:145-173 | the retry never yields a conflict; it opens the URL under the same condition and otherwise fails with the error description |
| ExportOverleaf.RetryAgreesExceptConflict | packages/web-app-files/src/mixins/actions/exportOverleaf.ts:129-174 | the retry handles every non-conflict response like the first request; a second ALREADY_EXISTS becomes an error notification |
| ExportOverleaf.OutcomeNotifications | packages/web-app-files/src/mixins/actions/exportOverleaf.ts:68-126 | opening shows only the pop-up warning, and only when blocked; a conflict shows its modal and no notification; a failure shows exactly one error notification |
| ExportOverleaf.NoRequestsInOutcome | packages/web-app-files/src/mixins/actions/exportOverleaf.ts:68-126 | handling a response sends no further request |
| ExportOverleaf.ExportToOverleaf | packages/web-app-files/src/mixins/actions/exportOverleaf.ts:45-127 | the POST is sent, then the outcome's effects follow; on a conflict the modal whose confirm retries this URL becomes the open one, and otherwise the modal is unchanged |
| ExportOverleaf.RetryRequest | packages/web-app-files/src/mixins/actions/exportOverleaf.ts:129-174 | the modal is hidden before the override POST is sent, the retry outcome's effects follow, and no modal is open afterwards |
| ExportOverleaf.ExportThenConfirm | packages/web-app-files/src/mixins/actions/exportOverleaf.ts:100-136 | after an ALREADY_EXISTS response and a confirm, exactly two requests were sent (the export and its override retry) and no modal is open |
| ImportOverleaf.ImportEnabled | packages/web-app-files/src/mixins/actions/importOverleaf.ts:21-29 | import is enabled iff exactly one resource is selected and it is a folder; every such selection can also be exported |
| ImportOverleaf.ImportNeedsOneFolder | packages/web-app-files/src/mixins/actions/importOverleaf.ts:21-29 | a single file is never importable, but a single LaTeX file is exportable; a single folder is both; two or more resources are neither |
| ImportOverleaf.ImportModal | packages/web-app-files/src/mixins/actions/importOverleaf.ts:45-54 | the overwrite warning has no input, carries the warning text, and confirming imports that resource |
| ImportOverleaf.ImportFromOverleaf | packages/web-app-files/src/mixins/actions/importOverleaf.ts:44-56 | triggering opens the warning and sends no request |
| ImportOverleaf.ImportUrlFields | packages/web-app-files/src/mixins/actions/importOverleaf.ts:71-75 | the import URL's parameters are exactly `path` then `lang` |
| ImportOverleaf.ImportErrorDesc | packages/web-app-files/src/mixins/actions/importOverleaf.ts:92-95 | the error description is never empty; it is the server's message unless that is empty, in which case it is the default text |
| ImportOverleaf.ImportMessage | packages/web-app-files/src/mixins/actions/importOverleaf.ts:82-103 | a success notification iff the status is 200, otherwise a danger one with the error description; always a description and a 10-second timeout |
| ImportOverleaf.ImportMessageDependsOnBodyOnlyOnError | packages/web-app-files/src/mixins/actions/importOverleaf.ts:82-102 | on status 200 the body is not consulted; between two error responses only the resulting description matters |
| ImportOverleaf.MakeRequest | packages/web-app-files/src/mixins/actions/importOverleaf.ts:58-104 | the modal is hidden before the GET is sent, and then exactly one notification is shown: the log's notifications grow by `ImportMessage(resp)` alone |
| ImportOverleaf.ImportThenConfirm | packages/web-app-files/src/mixins/actions/importOverleaf.ts:44-104 | triggering and confirming sends exactly one request, the import for the resource the warning was opened for, and leaves no modal open |
| Permissions.HasSystemManagement | packages/web-pkg/src/services/permissionManager.ts:37-39 | true iff the user has a role and its name is `admin` |
| Permissions.HasUserManagement | packages/web-pkg/src/services/permissionManager.ts:41-43 | true iff the user has a role and its name is `admin` |
| Permissions.HasSpaceManagement | packages/web-pkg/src/services/permissionManager.ts:45-47 | true iff the user has a role named `admin` or `spaceadmin` |
| Permissions.FindSetting | packages/web-pkg/src/services/permissionManager.ts:50 | finds the first setting with the name, which exists iff some setting has it |
| Permissions.UserManagementIsSystemManagement | packages/web-pkg/src/services/permissionManager.ts:37-43 | user management always equals system management |
| Permissions.SystemImpliesSpaceManagement | packages/web-pkg/src/services/permissionManager.ts:37-47 | system management implies space management; a space admin has space management only; users and guests have neither |
| Permissions.NoRoleNoPermissions | packages/web-pkg/src/services/permissionManager.ts:37-51 | without a role, all four queries are false |
| Permissions.CanEditSpaceQuotaIffSetting | packages/web-pkg/src/services/permissionManager.ts:49-51 | the quota can be edited iff some setting of the role is named `set-space-quota`, whatever the role's name |
| Permissions.CanEditSpaceQuotaIgnoresOrder | packages/web-pkg/src/services/permissionManager.ts:49-51 | the answer does not depend on the order of the settings |
| FileActions.IsEnabled | apps/files/src/fileactions.js:32-142 | the `isEnabled` predicate of each action; its properties are stated by `FileActions.EditorActionEnabled`, `FileActions.RenameAndDeleteFollowParent` and `FileActions.ParentOnlyRestricts` |
| FileActions.EditorUrl | apps/files/src/fileactions.js:344-346 | a version-3 editor's URL with the first `{PATH}` and then the first `{FILEID}` replaced; stated by `FileActions.EditorUrlFillsFirstPlaceholders` and `FileActions.EditorUrlWithoutPlaceholders` |
| FileActions.OpenFileActionAsWritten | apps/files/src/fileactions.js:336-379 | `openFileAction` as written, for the string the handlers pass; `FileActions.OpenFileActionAsWrittenLosesPath` shows that its version-3 URL carries the encoding of "undefined" instead of the item's path and id; new-tab targets render a missing route name as "undefined", as `FileActions.NewTabTargetLayout` states |
| ExportOverleaf.ExportEnabled | packages/web-app-files/src/mixins/actions/exportOverleaf.ts:21-30 | export is offered for exactly one folder or LaTeX file; stated, against import, by `ImportOverleaf.ImportNeedsOneFolder` and `ImportOverleaf.ImportEnabled` |
| ExportOverleaf.ExportUrl | packages/web-app-files/src/mixins/actions/exportOverleaf.ts:46-60 | the export endpoint with the `path`/`lang` query; its parameters are stated by `ExportOverleaf.ExportUrlFields` |
| ExportOverleaf.RetryUrl | packages/web-app-files/src/mixins/actions/exportOverleaf.ts:132-136 | the export URL with `&override=true`; stated by `ExportOverleaf.RetryUrlAppendsOverride` and `ExportOverleaf.ExportUrlFields` |
| ExportOverleaf.ReadableDate | packages/web-app-files/src/mixins/actions/exportOverleaf.ts:89-97 | the readable export date; its layout and read-back are stated by `ExportOverleaf.ReadableDateLayout` |
| ExportOverleaf.OutcomeEffects | packages/web-app-files/src/mixins/actions/exportOverleaf.ts:68-126 | the effects after a response; stated by `ExportOverleaf.OutcomeNotifications` and `ExportOverleaf.NoRequestsInOutcome` |
| ImportOverleaf.ImportUrl | packages/web-app-files/src/mixins/actions/importOverleaf.ts:61-75 | the import endpoint with the `path`/`lang` query; its parameters are stated by `ImportOverleaf.ImportUrlFields` |
| Permissions.CanEditSpaceQuota | packages/web-pkg/src/services/permissionManager.ts:49-51 | `!!role?.settings.find(...)`; stated by `Permissions.CanEditSpaceQuotaIffSetting`, `Permissions.CanEditSpaceQuotaIgnoresOrder` and `Permissions.NoRoleNoPermissions` |
| Ui.RequestsAreSent | apps/files/src/fileactions.js:149 | a request is among the log's requests iff the log records it as sent |
| Ui.NotificationsAreShown | packages/web-app-files/src/mixins/actions/exportOverleaf.ts:74-124 | a message is among the log's notifications iff the log records it as shown |
| FileActions.EditorRouteName | apps/files/src/fileactions.js:369 | the pushed route starts with the app; it is the app alone iff the route name is missing or empty, and otherwise the app, '/' and the route name |
| FileActions.RouteNameText | apps/files/src/fileactions.js:360 | a template literal renders a missing route name as "undefined" and a present one as it is |
| FileActions.NewTabTarget | apps/files/src/fileactions.js:360 | the new-tab window target `${routeName}-${filePath}`; stated by `FileActions.NewTabTargetLayout` |
| FileActions.NewTabTargetLayout | apps/files/src/fileactions.js:360 | the target is the rendered route name, '-', then the path; without a route name it is "undefined-" followed by the path |
| ExportOverleaf.ConflictModal | packages/web-app-files/src/mixins/actions/exportOverleaf.ts:100-109 | the conflict modal is a warning titled with the given title, has no input, and confirming it retries the given URL |
| ExportOverleaf.Succeeded | packages/web-app-files/src/mixins/actions/exportOverleaf.ts:68 | the success test `res.app_url && response.ok`, also used by the retry at line 145; `ExportOverleaf.ExportOutcome` and `ExportOverleaf.RetryOutcome` state that a window is opened iff it holds |
| ExportOverleaf.PopupBlockedMessage | packages/web-app-files/src/mixins/actions/exportOverleaf.ts:74-81 | the blocked pop-up notice, also shown by the retry at lines 151-158, is a warning with the settings hint and a 10-second timeout |
| ExportOverleaf.FailureMessage | packages/web-app-files/src/mixins/actions/exportOverleaf.ts:119-124 | the error notification, also shown by the retry at lines 167-172, is a danger message whose description is the given text, with a 10-second timeout |
| ExportOverleaf.TwoDigits | packages/web-app-files/src/mixins/actions/exportOverleaf.ts:91-97 | `String(n).padStart(2, '0')`; `ExportOverleaf.TwoDigitsValue` states it is two digits that read back as n for 0..99 |
| JsStrings.ReplaceFirst | apps/files/src/fileactions.js:345-346 | `replace` with a string pattern; `JsStrings.ReplaceFirstAbsent` and `FileActions.ReplaceAfterBraceFree` state that an absent pattern changes nothing and that the first occurrence is the one replaced |
| JsStrings.IntToString | packages/web-app-files/src/mixins/actions/exportOverleaf.ts:89 | `String(i)` of an integer; stated by `JsStrings.IntToStringRoundTrip` |
| JsStrings.IntToStringRoundTrip | packages/web-app-files/src/mixins/actions/exportOverleaf.ts:89 | a non-negative integer prints as digits that read back as it; a negative one as '-' and the digits of its magnitude |
| JsStrings.EndsWithWhitespace | apps/files/src/fileactions.js:258 | `/\s+$/.test(newName)`; `JsStrings.EndsWithWhitespaceIsRegex` states it equals a non-empty run of `\s` characters at the end |
| UrlQuery.Query | packages/web-app-files/src/mixins/actions/exportOverleaf.ts:56-59 | `qs.stringify` of already encoded pairs, as for the import query at importOverleaf.ts:71-74 and the override at lines 132-134; `UrlQuery.QueryRoundTrip` and `UrlQuery.QueryAppend` state that the parser recovers the pairs and that appending a field is `&` plus that field |
| UrlQuery.WithQuery | packages/web-app-files/src/mixins/actions/exportOverleaf.ts:60 | `${baseUrl}?${query}`, also at line 136 and importOverleaf.ts:75; `UrlQuery.QueryPartOfWithQuery` states the query is exactly what follows the '?' |
| ImportOverleaf.ImportNotifications | packages/web-app-files/src/mixins/actions/importOverleaf.ts:82-104 | the import's confirm step adds exactly one notification to the log |

## Left out

- I/O is not modelled: `fetch`, headers, the access token and `response.json()`. Responses are inputs, and a response whose body is not JSON (a rejected `json()`) is not modelled.
- Concurrency between several flows in flight is not modelled. Each handler is modelled as one run over its inputs.
- `win.focus()` is not modelled. Only whether `window.open` returned a window is an input.
- The router is not modelled: `$router.resolve`, `$router.push` and `window.location.origin`. `openFileAction` returns where it would go, as an `OpenTarget`.
- `openFile` (the store action called first in `openFileAction`) is not modelled.
- `navigateTo`, `fetchFile` and `openBlobInNewTab` are left out. They are navigation and blob I/O with no logic beyond the calls.
- The copy and move handlers are not modelled. They build a `location-picker` route, which is navigation.
- `$_fileActions_deleteResource` is left out. It only delegates to a mixin that is not part of this model.
- Translation is left out: `$gettext`, `$pgettext`, and the labels, icons and `ariaLabel`s. English texts are used as they are.
- `$gettextInterpolate` is modelled as plain substitution without HTML escaping.
- The trigger handlers (`$_exportToOverleaf_trigger`, `$_importFromOverleaf_trigger`) only pass `resources[0]` on and are not modelled separately.
- `onCancel` (always `hideModal`) is not a modal field. `onInput` of the rename dialog is `FileActions.RenameDialogCheckNewName`.
- The Vuex modal and notification store actions are not part of this model. `Ui` records what the handlers ask of them. It does not model the store's own behaviour, for example resetting the input error when a modal opens.
- `qs.stringify`'s percent-encoding and `urlJoin` are the parameters `enc` and `baseUrl`. The round trip is proved for encodings without `&` and `=`, which percent-encoding guarantees.
- `replace` expands `$&`, `$$`, `` $` `` and `$'` in its replacement string. `JsStrings.ReplaceFirst` inserts the replacement literally. The two agree only when the encoded path and id contain no `$`. `encodeURIComponent` guarantees this, but the parameter `enc` is not constrained to.
- `canBeMoved` and the resource methods `canDownload`, `canRename`, `canBeDeleted` and `canCreate` are a parameter and fields with no internals.
- Converting `export_time` to the user's time zone is left out. The calendar fields are an input, and `ExportOverleaf.ReadableDateLayout` is stated for in-range fields.
- JavaScript's exponent notation for numbers from 10^21 up is not modelled in `String(n)`. Years and two-digit fields never reach it.
- A missing `res.message` (`undefined`) is not modelled; the body's message is always a string. In the code, `undefined != ""` holds, so:
  - on export (`exportOverleaf.ts:115-116` and `163-164`) the description becomes "Unable to export project: undefined";
  - on import (`importOverleaf.ts:93-94`) `error_message` becomes `undefined` and goes to `$gettext`, whose result for it is outside this model.
- Role names are strings. The `UserRoleName` enum does not restrict what the store may hold.

Enablement of the two Overleaf actions differs:

- Import is offered only for exactly one resource with `isFolder === true` (`importOverleaf.ts:21-29`). So a LaTeX file on its own can be exported but not imported; `ImportOverleaf.ImportNeedsOneFolder` states this.
- `importOverleaf.ts` has no force-import retry: every non-200 status shows the error notification.

## Findings

| source | as written | input that shows it | evidently intended | confidence | as-written member | corrected member |
|---|---|---|---|---|---|---|
| apps/files/src/fileactions.js:336-346 | the editor handlers (lines 31 and 41) pass `item.path`, a string, as `filePath`; the version-3 branch then reads `filePath.path` and `filePath.id`, which are undefined, so both placeholders become the encoding of "undefined" | a version-3 editor with URL `https://e/?p={PATH}&id={FILEID}` and an item with path `/a.tex`: the window opens `https://e/?p=undefined&id=undefined` | the URL carries the encoded path and id of the item, e.g. `https://e/?p=%2Fa.tex&id=…` | medium; not executed (the `openFile` store action might in principle compensate, but the URL is built from `filePath` alone) | FileActions.OpenFileActionAsWritten, FileActions.OpenFileActionAsWrittenLosesPath | FileActions.OpenFileAction |
