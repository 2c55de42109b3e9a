/**
 * The file-list actions mixin: the ordered action list with its enablement
 * predicates, the action-in-progress lock, the rename dialog (name
 * validation, submission and its error titles), favourites and the URL an
 * editor action opens.
 */
module FileActions {
  import opened Wrappers
  import opened Seqs
  import opened JsStrings
  import opened Resources
  import opened Ui

  // ---------------------------------------------------------------------------
  // Action list
  // ---------------------------------------------------------------------------

  /**
   * A registered file editor (`apps.fileEditors`). `routeName` is None when
   * the editor has none; `url` is only used by version-3 editors.
   */
  datatype Editor = Editor(version: int, app: string, extension: string, url: string, routeName: Option<string>, newTab: bool)

  datatype Action =
    | OpenInEditor(editor: Editor)
    | DisplayPdf
    | Download
    | ToggleFavorite
    | RenameAction
    | CopyAction
    | MoveAction
    | DeleteAction

  /** The seven actions every file list offers after the editor actions, in declaration order. */
  const FixedActions: seq<Action> :=
    [DisplayPdf, Download, ToggleFavorite, RenameAction, CopyAction, MoveAction, DeleteAction]

  /** One editor action per registered editor, in registry order (the `map` over `fileEditors`). */
  function EditorActions(editors: seq<Editor>): (r: seq<Action>)
    ensures |r| == |editors|
    ensures forall i :: 0 <= i < |editors| ==> r[i] == OpenInEditor(editors[i])
  {
    if editors == [] then [] else [OpenInEditor(editors[0])] + EditorActions(editors[1..])
  }

  /** The `actions` computed property: the editor actions followed by the fixed ones. */
  function Actions(editors: seq<Editor>): (r: seq<Action>)
    ensures |r| == |editors| + 7
    ensures forall i :: 0 <= i < |editors| ==> r[i] == OpenInEditor(editors[i])
    ensures r[|editors|..] == FixedActions
  {
    EditorActions(editors) + FixedActions
  }

  datatype FilesCapabilities = FilesCapabilities(favorites: bool)

  datatype Capabilities = Capabilities(files: Option<FilesCapabilities>)

  /** The store getters the enablement predicates read. */
  datatype ListContext = ListContext(
    isAuthenticated: bool,
    capabilities: Capabilities,
    publicPage: bool,
    currentFolder: Resource)

  /**
   * `isEnabled(item, parent)` of each action. `canBeMoved` is the helper of
   * that name, defined outside the core, passed in as a relation between a
   * resource and the current folder's path.
   */
  function IsEnabled(action: Action, ctx: ListContext, canBeMoved: (Resource, string) -> bool,
                     item: Resource, parent: Option<Resource>): bool
  {
    match action
    case OpenInEditor(editor) => item.extension == editor.extension
    case DisplayPdf => item.extension == "pdf"
    case Download => item.canDownload
    case ToggleFavorite =>
      ctx.isAuthenticated && ctx.capabilities.files.Some? && ctx.capabilities.files.value.favorites
    case RenameAction => if parent.Some? && !parent.value.canRename then false else item.canRename
    case CopyAction => if ctx.publicPage then ctx.currentFolder.canCreate else true
    case MoveAction => canBeMoved(item, ctx.currentFolder.path)
    case DeleteAction => if parent.Some? && !parent.value.canBeDeleted then false else item.canBeDeleted
  }

  /** The i-th editor action of the list is enabled exactly for items with that editor's extension. */
  lemma EditorActionEnabled(editors: seq<Editor>, i: nat, ctx: ListContext, canBeMoved: (Resource, string) -> bool,
                            item: Resource, parent: Option<Resource>)
    requires i < |editors|
    ensures IsEnabled(Actions(editors)[i], ctx, canBeMoved, item, parent) <==> item.extension == editors[i].extension
  {
  }

  /** Rename and delete need the capability on the item and, when a parent is given, on the parent. */
  lemma RenameAndDeleteFollowParent(ctx: ListContext, canBeMoved: (Resource, string) -> bool,
                                    item: Resource, parent: Option<Resource>)
    ensures IsEnabled(RenameAction, ctx, canBeMoved, item, parent)
      <==> item.canRename && (parent.None? || parent.value.canRename)
    ensures IsEnabled(DeleteAction, ctx, canBeMoved, item, parent)
      <==> item.canBeDeleted && (parent.None? || parent.value.canBeDeleted)
  {
  }

  /**
   * A parent can only take actions away: whatever is enabled with a parent
   * is enabled without one, and a parent that may rename and delete changes nothing.
   */
  lemma ParentOnlyRestricts(a: Action, ctx: ListContext, canBeMoved: (Resource, string) -> bool,
                            item: Resource, p: Resource)
    ensures IsEnabled(a, ctx, canBeMoved, item, Some(p)) ==> IsEnabled(a, ctx, canBeMoved, item, None)
    ensures p.canRename && p.canBeDeleted ==>
      IsEnabled(a, ctx, canBeMoved, item, Some(p)) == IsEnabled(a, ctx, canBeMoved, item, None)
  {
  }

  // ---------------------------------------------------------------------------
  // Action-in-progress lock
  // ---------------------------------------------------------------------------

  /** An entry of the store's `actionsInProgress`; only its `id` is read. */
  datatype ActionProgress = ActionProgress(id: string)

  /** `actionsInProgress.some(p => p.id === item.id)` */
  function ActionInProgress(inProgress: seq<ActionProgress>, item: Resource): (r: bool)
    ensures r <==> exists i :: 0 <= i < |inProgress| && inProgress[i].id == item.id
  {
    if inProgress == [] then false
    else inProgress[0].id == item.id || ActionInProgress(inProgress[1..], item)
  }

  const FolderBusyTooltip := "There is currently an action in progress for this folder"
  const FileBusyTooltip := "There is currently an action in progress for this file"

  /** `disabledActionTooltip(item)`; `None` is the source's `null`. */
  function DisabledActionTooltip(inProgress: seq<ActionProgress>, item: Resource): (r: Option<string>)
    ensures r.None? <==> forall i :: 0 <= i < |inProgress| ==> inProgress[i].id != item.id
    ensures r.Some? ==> r.value == (if item.resourceType == "folder" then FolderBusyTooltip else FileBusyTooltip)
  {
    if ActionInProgress(inProgress, item) then
      if item.resourceType == "folder" then Some(FolderBusyTooltip) else Some(FileBusyTooltip)
    else None
  }

  /** Whether an item is locked does not depend on the order of the in-progress entries. */
  lemma ActionInProgressIgnoresOrder(a: seq<ActionProgress>, b: seq<ActionProgress>, item: Resource)
    requires multiset(a) == multiset(b)
    ensures ActionInProgress(a, item) == ActionInProgress(b, item)
  {
    if ActionInProgress(a, item) {
      var i :| 0 <= i < |a| && a[i].id == item.id;
      assert a[i] in multiset(b);
      var j :| 0 <= j < |b| && b[j] == a[i];
    }
    if ActionInProgress(b, item) {
      var j :| 0 <= j < |b| && b[j].id == item.id;
      assert b[j] in multiset(a);
      var i :| 0 <= i < |a| && a[i] == b[j];
    }
  }

  // ---------------------------------------------------------------------------
  // Rename: validating the new name
  // ---------------------------------------------------------------------------

  const EmptyNameError := "The name cannot be empty"
  const SlashError := "The name cannot contain \"/\""
  const DotError := "The name cannot be equal to \".\""
  const DotDotError := "The name cannot be equal to \"..\""
  const TrailingWhitespaceError := "The name cannot end with whitespace"

  /** `The name "%{name}" is already taken`, interpolated without HTML escaping. */
  function TakenError(name: string): (r: string)
    ensures |r| == |name| + 28 && r[10..10 + |name|] == name
    ensures r[9] == '"' && r[10 + |name|] == '"'
  {
    "The name \"" + name + "\" is already taken"
  }

  /** `activeFiles.find(n => n.name === newName && currentName !== newName)` */
  function FindCollision(files: seq<Resource>, currentName: string, newName: string): (r: Option<Resource>)
    ensures r.Some? ==> r.value in files && r.value.name == newName && currentName != newName
    ensures r.None? ==> currentName == newName || forall i :: 0 <= i < |files| ==> files[i].name != newName
  {
    if files == [] then None
    else if files[0].name == newName && currentName != newName then Some(files[0])
    else FindCollision(files[1..], currentName, newName)
  }

  /** The new name differs from the current one and some listed resource already has it. */
  predicate Collides(files: seq<Resource>, currentName: string, newName: string)
  {
    currentName != newName && exists i :: 0 <= i < |files| && files[i].name == newName
  }

  /** The name passes the checks that do not look at the listing. */
  predicate WellFormedName(newName: string)
  {
    newName != "" && '/' !in newName && newName != "." && newName != ".." && !EndsWithWhitespace(newName)
  }

  /**
   * `$_fileActions_renameDialog_checkNewName`: the error the dialog shows for
   * `newName`, or `None` when the error is cleared. The checks run in order
   * and the first failing one decides; the collision check only applies to
   * listings that are not flat.
   */
  function CheckNewName(currentName: string, newName: string, flatFileList: bool, activeFiles: seq<Resource>): (r: Option<string>)
    ensures r == Some(EmptyNameError) <==> newName == ""
    ensures r == Some(SlashError) <==> newName != "" && '/' in newName
    ensures r == Some(DotError) <==> newName == "."
    ensures r == Some(DotDotError) <==> newName == ".."
    ensures r == Some(TrailingWhitespaceError) <==>
      newName != "" && '/' !in newName && newName != "." && newName != ".." && EndsWithWhitespace(newName)
    ensures r == Some(TakenError(newName)) <==>
      WellFormedName(newName) && !flatFileList && Collides(activeFiles, currentName, newName)
    ensures r.None? <==> WellFormedName(newName) && (flatFileList || !Collides(activeFiles, currentName, newName))
    ensures newName == currentName ==> r != Some(TakenError(newName))
  {
    if newName == "" then Some(EmptyNameError)
    else if '/' in newName then Some(SlashError)
    else if newName == "." then Some(DotError)
    else if newName == ".." then Some(DotDotError)
    else if EndsWithWhitespace(newName) then Some(TrailingWhitespaceError)
    else if !flatFileList && FindCollision(activeFiles, currentName, newName).Some? then Some(TakenError(newName))
    else None
  }

  /** The dialog's `onInput`: the check's verdict becomes the modal's input error. */
  method RenameDialogCheckNewName(ui: Ui, currentName: string, newName: string, flatFileList: bool, activeFiles: seq<Resource>)
    modifies ui
    ensures ui.inputError == CheckNewName(currentName, newName, flatFileList, activeFiles)
    ensures ui.modal == old(ui.modal) && ui.confirmDisabled == old(ui.confirmDisabled) && ui.log == old(ui.log)
  {
    ui.SetModalInputErrorMessage(CheckNewName(currentName, newName, flatFileList, activeFiles));
  }

  // ---------------------------------------------------------------------------
  // Rename: the dialog and the submission
  // ---------------------------------------------------------------------------

  /** The modal `$_fileActions_displayRenameDialog` opens, pre-filled with the current name. */
  function RenameModal(resource: Resource): (m: Modal)
    ensures m.input.Some? && m.input.value.value == resource.name
    ensures m.onConfirm == ConfirmRename(resource)
  {
    var isFolder := resource.resourceType == "folder";
    Modal(
      InfoVariation,
      if isFolder then "Rename folder " + resource.name else "Rename file " + resource.name,
      None,
      "Rename",
      "Cancel",
      Some(ModalInput(
        resource.name,
        if isFolder then "Enter new folder name…" else "Enter new file name…",
        if isFolder then "Folder name" else "File name")),
      ConfirmRename(resource))
  }

  method DisplayRenameDialog(ui: Ui, resource: Resource)
    modifies ui
    ensures ui.modal == Some(RenameModal(resource)) && ui.log == old(ui.log) + [ModalShown(RenameModal(resource))]
    ensures ui.confirmDisabled == old(ui.confirmDisabled) && ui.inputError == old(ui.inputError)
  {
    ui.CreateModal(RenameModal(resource));
  }

  /** How the rename request ended: resolved, or rejected with an optional HTTP status code. */
  datatype RenameOutcome = Renamed | RenameFailed(statusCode: Option<int>)

  /** The danger notification's title after a failed rename; status 423 means the file is locked. */
  function RenameErrorTitle(file: string, newName: string, statusCode: Option<int>): (r: string)
    ensures var generic := "Error while renaming \"" + file + "\" to \"" + newName + "\"";
      |r| >= |generic| && r[..|generic|] == generic &&
      (statusCode == Some(423) <==> r == generic + " - the file is locked") &&
      (statusCode != Some(423) <==> r == generic)
  {
    var generic := "Error while renaming \"" + file + "\" to \"" + newName + "\"";
    if statusCode == Some(423) then generic + " - the file is locked" else generic
  }

  /**
   * `$_fileActions_renameResource`: the confirm button is disabled while the
   * rename request runs; success hides the modal, failure re-enables the
   * button and shows a danger notification.
   */
  method RenameResource(ui: Ui, resource: Resource, newName: string, publicPage: bool, outcome: RenameOutcome)
    modifies ui
    ensures ui.log == old(ui.log) + [Sent(RenameFile(resource.path, newName, publicPage))] +
      match outcome
      case Renamed => [ModalHidden]
      case RenameFailed(code) => [Shown(Message(RenameErrorTitle(resource.name, newName, code), Danger, None, None))]
    ensures ui.modal == if outcome.Renamed? then None else old(ui.modal)
    ensures ui.confirmDisabled == if outcome.Renamed? then !old(ui.confirmDisabled) else old(ui.confirmDisabled)
    ensures ui.inputError == old(ui.inputError)
  {
    ui.ToggleModalConfirmButton();
    ui.Send(RenameFile(resource.path, newName, publicPage));
    match outcome
    case Renamed =>
      ui.HideModal();
    case RenameFailed(code) =>
      ui.ToggleModalConfirmButton();
      ui.ShowMessage(Message(RenameErrorTitle(resource.name, newName, code), Danger, None, None));
  }

  // ---------------------------------------------------------------------------
  // Favourites
  // ---------------------------------------------------------------------------

  /** `toggleFileFavorite`: a failed `markFavorite` shows a danger notification naming the file. */
  method ToggleFileFavorite(ui: Ui, file: Resource, failed: bool)
    modifies ui
    ensures ui.log == old(ui.log) + [Sent(MarkFavorite(file.path))] +
      (if failed then [Shown(Message("Error while starring \"" + file.name + "\"", Danger, None, None))] else [])
    ensures ui.modal == old(ui.modal) && ui.confirmDisabled == old(ui.confirmDisabled) && ui.inputError == old(ui.inputError)
  {
    ui.Send(MarkFavorite(file.path));
    if failed {
      ui.ShowMessage(Message("Error while starring \"" + file.name + "\"", Danger, None, None));
    }
  }

  // ---------------------------------------------------------------------------
  // Opening a file in an editor
  // ---------------------------------------------------------------------------

  /** Where `openFileAction` sends the user. */
  datatype OpenTarget =
    | NewWindow(url: string, target: string)
    | RouteInNewWindow(routeName: Option<string>, filePath: string, target: string)
    | RouterPush(route: string, filePath: string)

  /** A version-3 editor's URL: the first `{PATH}` and then the first `{FILEID}` are replaced. */
  function EditorUrl(template: string, encodedPath: string, encodedId: string): string
  {
    ReplaceFirst(ReplaceFirst(template, "{PATH}", encodedPath), "{FILEID}", encodedId)
  }

  /** A template without placeholders is opened as it is. */
  lemma EditorUrlWithoutPlaceholders(template: string, encodedPath: string, encodedId: string)
    requires !Contains(template, "{PATH}") && !Contains(template, "{FILEID}")
    ensures EditorUrl(template, encodedPath, encodedId) == template
  {
    ReplaceFirstAbsent(template, "{PATH}", encodedPath);
    ReplaceFirstAbsent(template, "{FILEID}", encodedId);
  }

  /** In a brace-free prefix no placeholder can start, so the first one is found right after it. */
  lemma FirstPlaceholderAfterBraceFree(a: string, pat: string, b: string)
    requires '{' !in a && |pat| > 0 && pat[0] == '{'
    ensures IndexOf(a + pat + b, pat) == Some(|a|)
  {
    var s := a + pat + b;
    assert s[|a|..|a| + |pat|] == pat;
    assert OccursAt(s, pat, |a|);
    forall j: nat | j < |a| ensures !OccursAt(s, pat, j) {
      assert s[j] == a[j];
    }
  }

  /** Replacing a placeholder that follows a brace-free prefix splices the replacement in right there. */
  lemma ReplaceAfterBraceFree(a: string, pat: string, b: string, rep: string)
    requires '{' !in a && |pat| > 0 && pat[0] == '{'
    ensures ReplaceFirst(a + pat + b, pat, rep) == a + rep + b
  {
    var s := a + pat + b;
    FirstPlaceholderAfterBraceFree(a, pat, b);
    assert s[..|a|] == a;
    assert s[|a| + |pat|..] == b;
  }

  /**
   * Filling a template `a{PATH}b{FILEID}c` whose only braces before `c`
   * are the two placeholders: both are replaced, and any placeholder in `c`
   * is left as it is.
   */
  lemma EditorUrlFillsFirstPlaceholders(a: string, b: string, c: string, encodedPath: string, encodedId: string)
    requires '{' !in a && '{' !in b && '{' !in encodedPath
    ensures EditorUrl(a + "{PATH}" + b + "{FILEID}" + c, encodedPath, encodedId) == a + encodedPath + b + encodedId + c
  {
    var p, f := "{PATH}", "{FILEID}";
    var rest := b + f + c;
    ConcatAssoc(a + p, b + f, c);
    ConcatAssoc(a + p, b, f);
    assert a + p + b + f + c == a + p + rest;
    ReplaceAfterBraceFree(a, p, rest, encodedPath);
    ConcatAssoc(a + encodedPath, b + f, c);
    ConcatAssoc(a + encodedPath, b, f);
    assert a + encodedPath + rest == a + encodedPath + b + f + c;
    assert '{' !in a + encodedPath + b;
    ReplaceAfterBraceFree(a + encodedPath + b, f, c, encodedId);
  }

  /**
   * The route `openFileAction` pushes: `app/routeName` when the route name is
   * truthy, and the app alone when it is missing or empty.
   */
  function EditorRouteName(editor: Editor): (r: string)
    ensures |r| >= |editor.app| && r[..|editor.app|] == editor.app
    ensures |r| == |editor.app| <==> editor.routeName.None? || editor.routeName.value == ""
    ensures editor.routeName.Some? && editor.routeName.value != "" ==>
      r[|editor.app|..] == "/" + editor.routeName.value
  {
    if editor.routeName.Some? && editor.routeName.value != "" then editor.app + "/" + editor.routeName.value
    else editor.app
  }

  /** A route name as a template literal renders it: a missing one becomes "undefined". */
  function RouteNameText(routeName: Option<string>): (r: string)
    ensures routeName.None? ==> r == "undefined"
    ensures routeName.Some? ==> r == routeName.value
  {
    match routeName
    case None => "undefined"
    case Some(name) => name
  }

  /** The window target of a new-tab editor: `${routeName}-${filePath}`. */
  function NewTabTarget(routeName: Option<string>, filePath: string): string
  {
    RouteNameText(routeName) + "-" + filePath
  }

  /**
   * The new-tab window target names the route and then the path after a '-';
   * an editor without a route name gets "undefined-" followed by the path.
   */
  lemma NewTabTargetLayout(routeName: Option<string>, filePath: string)
    ensures var t, n := NewTabTarget(routeName, filePath), |RouteNameText(routeName)|;
      |t| == n + 1 + |filePath| && t[n] == '-' && t[n + 1..] == filePath
    ensures routeName.None? ==> NewTabTarget(routeName, filePath) == "undefined-" + filePath
    ensures routeName.Some? ==> NewTabTarget(routeName, filePath)[..|routeName.value|] == routeName.value
  {
  }

  /**
   * `openFileAction(editor, filePath)` as written, for a string `filePath`
   * (the editor handler passes `item.path`). The version-3 branch reads
   * `filePath.path` and `filePath.id`, which a string does not have, so
   * `encodeURIComponent` receives `undefined` and yields "undefined".
   */
  function OpenFileActionAsWritten(editor: Editor, filePath: string, enc: string -> string): OpenTarget
  {
    if editor.version == 3 then NewWindow(EditorUrl(editor.url, enc("undefined"), enc("undefined")), "_blank")
    else if editor.newTab then RouteInNewWindow(editor.routeName, filePath, NewTabTarget(editor.routeName, filePath))
    else RouterPush(EditorRouteName(editor), filePath)
  }

  /**
   * The evidently intended `openFileAction`: the version-3 URL is filled with
   * the encoded path and id of the item the action was invoked on.
   */
  function OpenFileAction(editor: Editor, item: Resource, enc: string -> string): (t: OpenTarget)
    ensures editor.version == 3 <==> t.NewWindow?
    ensures t.NewWindow? ==> t.target == "_blank"
    ensures !t.NewWindow? ==> t.filePath == item.path
    ensures editor.version != 3 && editor.newTab ==> t == RouteInNewWindow(editor.routeName, item.path, NewTabTarget(editor.routeName, item.path))
    ensures editor.version != 3 && !editor.newTab ==> t == RouterPush(EditorRouteName(editor), item.path)
  {
    if editor.version == 3 then NewWindow(EditorUrl(editor.url, enc(item.path), enc(item.id)), "_blank")
    else if editor.newTab then RouteInNewWindow(editor.routeName, item.path, NewTabTarget(editor.routeName, item.path))
    else RouterPush(EditorRouteName(editor), item.path)
  }

  /**
   * For a version-3 editor with a template `a{PATH}b{FILEID}c`, the intended
   * URL carries the item's encoded path and id, while the URL as written
   * carries the encoding of "undefined" in both places, whatever the item;
   * the two differ as soon as the encoded path starts differently.
   */
  lemma OpenFileActionAsWrittenLosesPath(editor: Editor, item: Resource, enc: string -> string, a: string, b: string, c: string)
    requires editor.version == 3 && editor.url == a + "{PATH}" + b + "{FILEID}" + c
    requires '{' !in a && '{' !in b && '{' !in enc(item.path) && '{' !in enc("undefined")
    ensures OpenFileAction(editor, item, enc) == NewWindow(a + enc(item.path) + b + enc(item.id) + c, "_blank")
    ensures OpenFileActionAsWritten(editor, item.path, enc) ==
      NewWindow(a + enc("undefined") + b + enc("undefined") + c, "_blank")
    ensures enc(item.path) != [] && enc("undefined") != [] && enc(item.path)[0] != enc("undefined")[0] ==>
      OpenFileActionAsWritten(editor, item.path, enc) != OpenFileAction(editor, item, enc)
  {
    var p, u := enc(item.path), enc("undefined");
    EditorUrlFillsFirstPlaceholders(a, b, c, p, enc(item.id));
    EditorUrlFillsFirstPlaceholders(a, b, c, u, u);
    if p != [] && u != [] && p[0] != u[0] {
      assert (a + p + b + enc(item.id) + c)[|a|] == p[0];
      assert (a + u + b + u + c)[|a|] == u[0];
    }
  }
}
