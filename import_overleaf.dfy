/**
 * The "Import from Overleaf" action: which selections offer it, the
 * overwrite warning it opens, and the request and notification that follow
 * once the user confirms.
 *
 * The flow runs Idle -> Confirming (modal shown, nothing sent) and, on
 * confirm, Requesting (modal hidden first) -> {Imported, Failed}.
 */
module ImportOverleaf {
  import opened Wrappers
  import opened UrlQuery
  import opened Resources
  import opened Ui
  import ExportOverleaf

  /**
   * The `isEnabled` predicate: exactly one resource and it is a folder. A
   * LaTeX file on its own can be exported but not imported back.
   */
  function ImportEnabled(resources: seq<Resource>): (r: bool)
    ensures r ==> |resources| == 1 && resources[0].isFolder
    ensures r ==> ExportOverleaf.ExportEnabled(resources)
    ensures |resources| == 1 && resources[0].isFolder ==> r
  {
    |resources| == 1 && resources[0].isFolder
  }

  /** A single file is never importable, whatever its type; a single folder is importable and exportable. */
  lemma ImportNeedsOneFolder(r: Resource, rs: seq<Resource>)
    ensures !r.isFolder ==> !ImportEnabled([r])
    ensures !r.isFolder && r.mimeType == "application/x-tex" ==> ExportOverleaf.ExportEnabled([r])
    ensures r.isFolder ==> ImportEnabled([r]) && ExportOverleaf.ExportEnabled([r])
    ensures |rs| >= 2 ==> !ImportEnabled(rs) && !ExportOverleaf.ExportEnabled(rs)
  {
    assert [r][0] == r;
  }

  // ---------------------------------------------------------------------------
  // The overwrite warning
  // ---------------------------------------------------------------------------

  const ImportTitle := "Import from Overleaf"
  const OverwriteWarning :=
    "Importing this project back from Overleaf will overwrite the current contents of this folder. Would you still like to proceed?"

  /** The modal `importFromOverleaf` opens: a warning without an input whose confirm button runs the import. */
  function ImportModal(resource: Resource): (m: Modal)
    ensures m.variation == WarningVariation && m.input == None
    ensures m.onConfirm == ConfirmImport(resource)
    ensures m.message == Some(OverwriteWarning)
  {
    Modal(WarningVariation, ImportTitle, Some(OverwriteWarning), "Overwrite Project", "Cancel", None,
          ConfirmImport(resource))
  }

  /** `importFromOverleaf(resource)`: opens the overwrite warning and sends nothing. */
  method ImportFromOverleaf(ui: Ui, resource: Resource)
    modifies ui
    ensures ui.modal == Some(ImportModal(resource))
    ensures ui.log == old(ui.log) + [ModalShown(ImportModal(resource))]
    ensures Requests(ui.log) == Requests(old(ui.log))
    ensures ui.confirmDisabled == old(ui.confirmDisabled) && ui.inputError == old(ui.inputError)
  {
    ui.CreateModal(ImportModal(resource));
    RequestsAppend(old(ui.log), [ModalShown(ImportModal(resource))]);
  }

  // ---------------------------------------------------------------------------
  // Request and response
  // ---------------------------------------------------------------------------

  /** The status of the HTTP response and the `message` field of its JSON body. */
  datatype ImportResponse = ImportResponse(status: int, message: string)

  /** `${baseUrl}?${stringify({ path, lang })}`, where `baseUrl` is the server's `overleaf/import` endpoint. */
  function ImportUrl(baseUrl: string, path: string, lang: string, enc: string -> string): string
  {
    WithQuery(baseUrl, PathLangQuery(path, lang, enc))
  }

  /** The import request names the folder and the language, in that order, and nothing else. */
  lemma ImportUrlFields(baseUrl: string, path: string, lang: string, enc: string -> string)
    requires '?' !in baseUrl && '&' !in enc(path) && '&' !in enc(lang)
    ensures Params(QueryPart(ImportUrl(baseUrl, path, lang, enc))) == [("path", enc(path)), ("lang", enc(lang))]
  {
    PathLangUrlFields(baseUrl, path, lang, enc);
  }

  const ImportSuccessDesc := "Overleaf project was imported successfully"
  const ImportErrorDefault := "An error occured when trying to import the project"

  /** The error description: the server's message, or the default text when it is empty. */
  function ImportErrorDesc(message: string): (d: string)
    ensures d != ""
    ensures message != "" ==> d == message
    ensures message == "" ==> d == ImportErrorDefault
  {
    if message != "" then message else ImportErrorDefault
  }

  /** The notification `makeRequest` shows for a response. */
  function ImportMessage(resp: ImportResponse): (m: Message)
    ensures m.status == Success <==> resp.status == 200
    ensures m.status == Success || m.status == Danger
    ensures m.timeout == Some(10) && m.desc.Some?
    ensures resp.status != 200 ==> m.desc == Some(ImportErrorDesc(resp.message))
  {
    if resp.status == 200 then
      Message("Import success", Success, Some(ImportSuccessDesc), Some(10))
    else
      Message("Error importing project from Overleaf", Danger, Some(ImportErrorDesc(resp.message)), Some(10))
  }

  /** On status 200 the body is not consulted; otherwise only its message matters. */
  lemma ImportMessageDependsOnBodyOnlyOnError(a: ImportResponse, b: ImportResponse)
    ensures a.status == 200 && b.status == 200 ==> ImportMessage(a) == ImportMessage(b)
    ensures a.status != 200 && b.status != 200 ==>
      (ImportMessage(a) == ImportMessage(b) <==> ImportErrorDesc(a.message) == ImportErrorDesc(b.message))
  {
  }

  /**
   * `makeRequest(resource)`: hides the warning first, sends the import
   * request, then shows exactly one notification.
   */
  method MakeRequest(ui: Ui, resource: Resource, baseUrl: string, lang: string, enc: string -> string,
                     resp: ImportResponse)
    modifies ui
    ensures ui.log == old(ui.log) +
      [ModalHidden, Sent(Http(Get, ImportUrl(baseUrl, resource.path, lang, enc))), Shown(ImportMessage(resp))]
    ensures ui.modal == None
    ensures ui.confirmDisabled == old(ui.confirmDisabled) && ui.inputError == old(ui.inputError)
    ensures Notifications(ui.log) == Notifications(old(ui.log)) + [ImportMessage(resp)]
  {
    ghost var before := ui.log;
    ui.HideModal();
    var url := ImportUrl(baseUrl, resource.path, lang, enc);
    ui.Send(Http(Get, url));
    if resp.status == 200 {
      ui.ShowMessage(Message("Import success", Success, Some(ImportSuccessDesc), Some(10)));
    } else {
      var errorMessage := ImportErrorDefault;
      if resp.message != "" {
        errorMessage := resp.message;
      }
      ui.ShowMessage(Message("Error importing project from Overleaf", Danger, Some(errorMessage), Some(10)));
    }
    ImportNotifications(before, url, ImportMessage(resp));
  }

  /** The one notification `makeRequest` adds to the effect log. */
  lemma ImportNotifications(before: seq<Effect>, url: string, m: Message)
    ensures Notifications(before + [ModalHidden, Sent(Http(Get, url)), Shown(m)]) == Notifications(before) + [m]
  {
    var steps: seq<Effect> := [ModalHidden, Sent(Http(Get, url)), Shown(m)];
    assert steps == [ModalHidden] + [Sent(Http(Get, url))] + [Shown(m)];
    NotificationsOfOne(ModalHidden);
    NotificationsOfOne(Sent(Http(Get, url)));
    NotificationsOfOne(Shown(m));
    NotificationsAppend([ModalHidden], [Sent(Http(Get, url))]);
    NotificationsAppend([ModalHidden] + [Sent(Http(Get, url))], [Shown(m)]);
    NotificationsAppend(before, steps);
  }

  /**
   * The whole flow: triggering sends nothing, confirming sends exactly the
   * import request for the resource the warning was opened for, and the
   * modal is gone afterwards.
   */
  method ImportThenConfirm(ui: Ui, resource: Resource, baseUrl: string, lang: string, enc: string -> string,
                           resp: ImportResponse)
    modifies ui
    ensures Requests(ui.log) == Requests(old(ui.log)) + [Http(Get, ImportUrl(baseUrl, resource.path, lang, enc))]
    ensures ui.modal == None
  {
    ghost var before := ui.log;
    ImportFromOverleaf(ui, resource);
    var confirm := ui.modal.value.onConfirm;
    MakeRequest(ui, confirm.resource, baseUrl, lang, enc, resp);
    ImportScenarioRequests(before, ImportModal(resource), ImportUrl(baseUrl, resource.path, lang, enc),
                           ImportMessage(resp));
  }

  /** The requests of the import flow's effect log. */
  lemma ImportScenarioRequests(before: seq<Effect>, modal: Modal, url: string, m: Message)
    ensures Requests(before + [ModalShown(modal)] + [ModalHidden, Sent(Http(Get, url)), Shown(m)]) ==
            Requests(before) + [Http(Get, url)]
  {
    var steps: seq<Effect> := [ModalHidden, Sent(Http(Get, url)), Shown(m)];
    assert Requests([ModalShown(modal)]) == [];
    assert Requests(steps) == [Http(Get, url)] by {
      var tail := steps[1..];
      assert tail == [Sent(Http(Get, url)), Shown(m)];
      assert tail[1..] == [Shown(m)];
      assert Requests(tail[1..]) == [] by {
        assert tail[1..][1..] == [];
      }
      assert Requests(tail) == [Http(Get, url)] + Requests(tail[1..]);
      assert Requests(steps) == [] + Requests(tail);
    }
    RequestsAppend(before, [ModalShown(modal)]);
    RequestsAppend(before + [ModalShown(modal)], steps);
  }
}
