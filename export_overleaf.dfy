/**
 * The "Export to Overleaf" action: which selections offer it, the request it
 * sends, the four ways a response is handled (window opened, pop-up blocked
 * warning, "already exported" conflict modal, error notification) and the
 * override retry the conflict modal offers.
 *
 * The flow runs Idle -> Requesting -> {Opened, Conflict, Failed}; confirming
 * a Conflict runs Retrying -> {Opened, Failed} and never a second Conflict.
 */
module ExportOverleaf {
  import opened Wrappers
  import opened Seqs
  import opened JsStrings
  import opened UrlQuery
  import opened Resources
  import opened Ui

  /** The `isEnabled` predicate: exactly one resource, a folder or a LaTeX source. */
  function ExportEnabled(resources: seq<Resource>): bool
  {
    |resources| == 1 && (resources[0].isFolder || resources[0].mimeType == "application/x-tex")
  }

  // ---------------------------------------------------------------------------
  // Request and response
  // ---------------------------------------------------------------------------

  /**
   * The status of the HTTP response and the fields of its JSON body.
   * `appUrl`, `code` and `exportTime` may be missing; `message` is present.
   */
  datatype ExportResponse = ExportResponse(
    ok: bool,
    appUrl: Option<string>,
    code: Option<string>,
    exportTime: Option<int>,
    message: string)

  /** `${baseUrl}?${stringify({ path, lang })}`, where `baseUrl` is the server's `overleaf/export` endpoint. */
  function ExportUrl(baseUrl: string, path: string, lang: string, enc: string -> string): string
  {
    WithQuery(baseUrl, PathLangQuery(path, lang, enc))
  }

  const OverrideParam: Pair := ("override", "true")

  /** The retry URL: the original one with `&override=true` appended. */
  function RetryUrl(url: string): string
  {
    url + "&" + Query([OverrideParam])
  }

  /** The request carries the resource's path and language; the retry adds `override=true` and nothing else. */
  lemma ExportUrlFields(baseUrl: string, path: string, lang: string, enc: string -> string)
    requires '?' !in baseUrl && '&' !in enc(path) && '&' !in enc(lang)
    ensures Params(QueryPart(ExportUrl(baseUrl, path, lang, enc))) == PathLangQuery(path, lang, enc)
    ensures Params(QueryPart(RetryUrl(ExportUrl(baseUrl, path, lang, enc)))) ==
      PathLangQuery(path, lang, enc) + [OverrideParam]
  {
    var pairs := PathLangQuery(path, lang, enc);
    PathLangUrlFields(baseUrl, path, lang, enc);
    PathLangUnambiguous(path, lang, enc);
    RetryUrlAppendsOverride(baseUrl, pairs);
    QueryPartOfWithQuery(baseUrl, pairs + [OverrideParam]);
    OverrideKeepsUnambiguous(pairs);
    QueryRoundTrip(pairs + [OverrideParam]);
  }

  lemma RetryUrlAppendsOverride(baseUrl: string, pairs: seq<Pair>)
    requires pairs != []
    ensures RetryUrl(WithQuery(baseUrl, pairs)) == WithQuery(baseUrl, pairs + [OverrideParam])
  {
    QueryAppend(pairs, OverrideParam);
    var b, q, o := baseUrl + "?", Query(pairs), Field(OverrideParam);
    assert Query([OverrideParam]) == o;
    assert RetryUrl(WithQuery(baseUrl, pairs)) == b + q + "&" + o;
    ConcatAssoc(b, q, "&");
    ConcatAssoc(b, q + "&", o);
  }

  lemma OverrideKeepsUnambiguous(pairs: seq<Pair>)
    requires Unambiguous(pairs)
    ensures Unambiguous(pairs + [OverrideParam])
  {
    assert '&' !in OverrideParam.0 && '=' !in OverrideParam.0 && '&' !in OverrideParam.1;
    var all := pairs + [OverrideParam];
    forall i | 0 <= i < |all| ensures '&' !in all[i].0 && '=' !in all[i].0 && '&' !in all[i].1 {
      if i < |pairs| {
        assert all[i] == pairs[i];
      }
    }
  }

  /** `res.app_url && response.ok`: a non-empty application URL in a successful response. */
  predicate Succeeded(resp: ExportResponse)
  {
    resp.appUrl.Some? && resp.appUrl.value != "" && resp.ok
  }

  // ---------------------------------------------------------------------------
  // Texts
  // ---------------------------------------------------------------------------

  /**
   * The local calendar fields of the export time, as `getFullYear`,
   * `getMonth` (0-based), `getDate`, `getHours` and `getMinutes` return them.
   */
  datatype DateFields = DateFields(fullYear: int, month: int, date: int, hours: int, minutes: int)

  predicate CalendarFields(d: DateFields)
  {
    0 <= d.fullYear && 0 <= d.month <= 11 && 1 <= d.date <= 31 && 0 <= d.hours <= 23 && 0 <= d.minutes <= 59
  }

  /** `String(n).padStart(2, '0')` */
  function TwoDigits(n: int): string
  {
    PadStart(IntToString(n), 2, '0')
  }

  lemma LeadingZeroValue(s: string)
    requires AllDigits(s)
    ensures AllDigits("0" + s) && DecimalValue("0" + s) == DecimalValue(s)
    decreases |s|
  {
    if s != [] {
      var t := "0" + s;
      assert t[..|t| - 1] == "0" + s[..|s| - 1];
      LeadingZeroValue(s[..|s| - 1]);
    }
  }

  /** Two digits that read back as `n`, for `0 <= n < 100`. */
  lemma TwoDigitsValue(n: int)
    requires 0 <= n < 100
    ensures |TwoDigits(n)| == 2 && AllDigits(TwoDigits(n)) && DecimalValue(TwoDigits(n)) == n
  {
    var s := NatToString(n);
    NatToStringRoundTrip(n);
    var r := PadStart(s, 2, '0');
    if |s| == 1 {
      assert r == [r[0]] + r[1..];
      assert r == "0" + s;
      LeadingZeroValue(s);
    }
  }

  /** The readable export date `Y-MM-DD at HH:MM`, with the month counted from 1. */
  function ReadableDate(d: DateFields): string
  {
    IntToString(d.fullYear) + "-" + TwoDigits(d.month + 1) + "-" + TwoDigits(d.date) + " at " +
    TwoDigits(d.hours) + ":" + TwoDigits(d.minutes)
  }

  /** The characters `r[i..j]` are decimal digits denoting `v`. */
  predicate ReadsAs(r: string, i: nat, j: nat, v: int)
  {
    i <= j <= |r| && AllDigits(r[i..j]) && DecimalValue(r[i..j]) == v
  }

  /**
   * For calendar fields the readable date is the year's digits followed by
   * fifteen characters: '-', two month digits, '-', two day digits, " at ",
   * two hour digits, ':' and two minute digits; each group reads back as its
   * field, the month counted from 1.
   */
  lemma ReadableDateLayout(d: DateFields)
    requires CalendarFields(d)
    ensures var r, y := ReadableDate(d), |NatToString(d.fullYear)|;
      |r| == y + 15 && ReadsAs(r, 0, y, d.fullYear) &&
      var t := r[y..];
      t[0] == '-' && ReadsAs(t, 1, 3, d.month + 1) && t[3] == '-' && ReadsAs(t, 4, 6, d.date) &&
      t[6..10] == " at " && ReadsAs(t, 10, 12, d.hours) && t[12] == ':' && ReadsAs(t, 13, 15, d.minutes)
  {
    var ys := NatToString(d.fullYear);
    var mo, da, ho, mi := TwoDigits(d.month + 1), TwoDigits(d.date), TwoDigits(d.hours), TwoDigits(d.minutes);
    NatToStringRoundTrip(d.fullYear);
    TwoDigitsValue(d.month + 1);
    TwoDigitsValue(d.date);
    TwoDigitsValue(d.hours);
    TwoDigitsValue(d.minutes);
    var t := "-" + mo + "-" + da + " at " + ho + ":" + mi;
    var r := ReadableDate(d);
    assert r == ys + "-" + mo + "-" + da + " at " + ho + ":" + mi;
    ConcatAssoc(ys, "-", mo);
    ConcatAssoc(ys, "-" + mo, "-");
    ConcatAssoc(ys, "-" + mo + "-", da);
    ConcatAssoc(ys, "-" + mo + "-" + da, " at ");
    ConcatAssoc(ys, "-" + mo + "-" + da + " at ", ho);
    ConcatAssoc(ys, "-" + mo + "-" + da + " at " + ho, ":");
    ConcatAssoc(ys, "-" + mo + "-" + da + " at " + ho + ":", mi);
    assert r == ys + t;
    assert r[..|ys|] == ys && r[|ys|..] == t;
    SliceReadsAs(r, 0, |ys|, ys, d.fullYear);
    TimeLayout(mo, da, ho, mi);
    SliceReadsAs(t, 1, 3, mo, d.month + 1);
    SliceReadsAs(t, 4, 6, da, d.date);
    SliceReadsAs(t, 10, 12, ho, d.hours);
    SliceReadsAs(t, 13, 15, mi, d.minutes);
  }

  lemma SliceReadsAs(r: string, i: nat, j: nat, s: string, v: int)
    requires i <= j <= |r| && r[i..j] == s && AllDigits(s) && DecimalValue(s) == v
    ensures ReadsAs(r, i, j, v)
  {
  }

  /** Where each two-character group sits in `-mo-da at ho:mi`. */
  lemma TimeLayout(mo: string, da: string, ho: string, mi: string)
    requires |mo| == 2 && |da| == 2 && |ho| == 2 && |mi| == 2
    ensures var t := "-" + mo + "-" + da + " at " + ho + ":" + mi;
      |t| == 15 && t[0] == '-' && t[1..3] == mo && t[3] == '-' && t[4..6] == da &&
      t[6..10] == " at " && t[10..12] == ho && t[12] == ':' && t[13..15] == mi
  {
  }

  const AlreadyExported := "Project already exported."
  const AlreadyExportedOn := "Project already exported on "

  /** The conflict modal's title: with the readable date when the response gives a (non-zero) export time. */
  function ConflictTitle(exportTime: Option<int>, local: DateFields): (r: string)
    ensures exportTime.None? || exportTime.value == 0 ==> r == AlreadyExported
    ensures exportTime.Some? && exportTime.value != 0 ==>
      |r| > |AlreadyExportedOn| && r[..|AlreadyExportedOn|] == AlreadyExportedOn &&
      r[|AlreadyExportedOn|..] == ReadableDate(local)
  {
    if exportTime.Some? && exportTime.value != 0 then AlreadyExportedOn + ReadableDate(local) else AlreadyExported
  }

  const ExportErrorPrefix := "Unable to export project"

  /** The error notification's description; the server's message is appended after ": " unless it is empty. */
  function ExportErrorDescription(message: string): (r: string)
    ensures |r| >= |ExportErrorPrefix| && r[..|ExportErrorPrefix|] == ExportErrorPrefix
    ensures message == "" <==> r == ExportErrorPrefix
    ensures message != "" ==> r[|ExportErrorPrefix|..] == ": " + message
  {
    if message != "" then ExportErrorPrefix + ": " + message else ExportErrorPrefix
  }

  /** The warning shown when `window.open` returned no window; it is never a danger notification. */
  function PopupBlockedMessage(): (m: Message)
    ensures m.status == Warning && m.timeout == Some(10) && m.desc == Some(PopupBlockedHint)
  {
    Message(PopupBlockedTitle, Warning, Some(PopupBlockedHint), Some(10))
  }

  const PopupBlockedTitle := "Blocked pop-ups and redirects"
  const PopupBlockedHint :=
    "Some features might not work correctly. Please enable pop-ups and redirects in Settings > Privacy & Security > Site Settings > Permissions"

  /** The error notification: a danger message whose description is the given text, shown for 10 seconds. */
  function FailureMessage(description: string): (m: Message)
    ensures m.status == Danger && m.desc == Some(description) && m.timeout == Some(10)
  {
    Message("An error occured", Danger, Some(description), Some(10))
  }

  /** The modal offering to export again; confirming it runs the retry with `url`. */
  function ConflictModal(title: string, url: string): (m: Modal)
    ensures m.variation == WarningVariation && m.title == title && m.input == None
    ensures m.onConfirm == RetryExport(url)
  {
    Modal(WarningVariation, title,
      Some("Would you like to export this project again? This will create a new Overleaf project."),
      "Export", "Cancel", None, RetryExport(url))
  }

  // ---------------------------------------------------------------------------
  // Classifying a response
  // ---------------------------------------------------------------------------

  datatype Outcome = Opened(appUrl: string) | Conflict(title: string) | Failed(description: string)

  /** How `exportToOverleaf` handles a response. */
  function ExportOutcome(resp: ExportResponse, local: DateFields): (o: Outcome)
    ensures o.Opened? <==> Succeeded(resp)
    ensures o.Opened? ==> Some(o.appUrl) == resp.appUrl
    ensures o.Conflict? <==> !Succeeded(resp) && resp.code == Some("ALREADY_EXISTS")
    ensures o.Conflict? ==> o.title == ConflictTitle(resp.exportTime, local)
    ensures o.Failed? ==> o.description == ExportErrorDescription(resp.message)
  {
    if Succeeded(resp) then Opened(resp.appUrl.value)
    else if resp.code == Some("ALREADY_EXISTS") then Conflict(ConflictTitle(resp.exportTime, local))
    else Failed(ExportErrorDescription(resp.message))
  }

  /** How `retryRequest` handles a response: like the first request, but with no conflict branch. */
  function RetryOutcome(resp: ExportResponse): (o: Outcome)
    ensures !o.Conflict?
    ensures o.Opened? <==> Succeeded(resp)
    ensures o.Failed? ==> o.description == ExportErrorDescription(resp.message)
  {
    if Succeeded(resp) then Opened(resp.appUrl.value) else Failed(ExportErrorDescription(resp.message))
  }

  /**
   * The retry handles every response the first request does not treat as a
   * conflict the same way; a second ALREADY_EXISTS becomes an error notification.
   */
  lemma RetryAgreesExceptConflict(resp: ExportResponse, local: DateFields)
    ensures !ExportOutcome(resp, local).Conflict? ==> RetryOutcome(resp) == ExportOutcome(resp, local)
    ensures ExportOutcome(resp, local).Conflict? ==> RetryOutcome(resp) == Failed(ExportErrorDescription(resp.message))
  {
  }

  /** The effects that follow the request for an outcome. */
  function OutcomeEffects(o: Outcome, popupOpened: bool, url: string): seq<Effect>
  {
    match o
    case Opened(appUrl) => [WindowOpened(appUrl, "_blank")] + (if popupOpened then [] else [Shown(PopupBlockedMessage())])
    case Conflict(title) => [ModalShown(ConflictModal(title, url))]
    case Failed(description) => [Shown(FailureMessage(description))]
  }

  /**
   * The four outcomes: a blocked pop-up is the only warning, an error
   * notification appears exactly when the outcome failed, and a conflict
   * shows its modal and no notification.
   */
  lemma OutcomeNotifications(o: Outcome, popupOpened: bool, url: string)
    ensures o.Opened? ==> Notifications(OutcomeEffects(o, popupOpened, url)) == (if popupOpened then [] else [PopupBlockedMessage()])
    ensures o.Conflict? ==>
      (Notifications(OutcomeEffects(o, popupOpened, url)) == [] &&
       OutcomeEffects(o, popupOpened, url) == [ModalShown(ConflictModal(o.title, url))])
    ensures o.Failed? ==> Notifications(OutcomeEffects(o, popupOpened, url)) == [FailureMessage(o.description)]
  {
    match o
    case Opened(appUrl) =>
      var tail: seq<Effect> := if popupOpened then [] else [Shown(PopupBlockedMessage())];
      NotificationsOfOne(WindowOpened(appUrl, "_blank"));
      if !popupOpened {
        NotificationsOfOne(Shown(PopupBlockedMessage()));
      }
      NotificationsAppend([WindowOpened(appUrl, "_blank")], tail);
    case Conflict(title) =>
      NotificationsOfOne(ModalShown(ConflictModal(title, url)));
    case Failed(description) =>
      NotificationsOfOne(Shown(FailureMessage(description)));
  }

  // ---------------------------------------------------------------------------
  // The handlers
  // ---------------------------------------------------------------------------

  /**
   * `exportToOverleaf(resource)`: sends the export request, then opens the
   * project, warns about a blocked pop-up, offers the override retry, or
   * reports the error. `popupOpened` is whether `window.open` returned a
   * window; `local` holds the calendar fields of `export_time` in the
   * user's time zone.
   */
  method ExportToOverleaf(ui: Ui, resource: Resource, baseUrl: string, lang: string, enc: string -> string,
                          resp: ExportResponse, local: DateFields, popupOpened: bool)
    modifies ui
    ensures var url := ExportUrl(baseUrl, resource.path, lang, enc);
      var o := ExportOutcome(resp, local);
      ui.log == old(ui.log) + [Sent(Http(Post, url))] + OutcomeEffects(o, popupOpened, url) &&
      ui.modal == (if o.Conflict? then Some(ConflictModal(o.title, url)) else old(ui.modal))
    ensures ui.confirmDisabled == old(ui.confirmDisabled) && ui.inputError == old(ui.inputError)
  {
    var url := ExportUrl(baseUrl, resource.path, lang, enc);
    ui.Send(Http(Post, url));
    if Succeeded(resp) {
      ui.OpenWindow(resp.appUrl.value, "_blank");
      if !popupOpened {
        ui.ShowMessage(PopupBlockedMessage());
      }
    } else if resp.code == Some("ALREADY_EXISTS") {
      var message := AlreadyExported;
      if resp.exportTime.Some? && resp.exportTime.value != 0 {
        message := AlreadyExportedOn + ReadableDate(local);
      }
      ui.CreateModal(ConflictModal(message, url));
    } else {
      var errorMessage := ExportErrorPrefix;
      if resp.message != "" {
        errorMessage := errorMessage + ": " + resp.message;
      }
      ui.ShowMessage(FailureMessage(errorMessage));
    }
  }

  /**
   * `retryRequest(url)`: hides the conflict modal first, sends the override
   * request, then opens the project or reports the error; it never opens a
   * modal again.
   */
  method RetryRequest(ui: Ui, url: string, resp: ExportResponse, popupOpened: bool)
    modifies ui
    ensures ui.log == old(ui.log) + [ModalHidden, Sent(Http(Post, RetryUrl(url)))] +
      OutcomeEffects(RetryOutcome(resp), popupOpened, RetryUrl(url))
    ensures ui.modal == None
    ensures ui.confirmDisabled == old(ui.confirmDisabled) && ui.inputError == old(ui.inputError)
  {
    ui.HideModal();
    var retryUrl := url + "&" + Query([OverrideParam]);
    ui.Send(Http(Post, retryUrl));
    if Succeeded(resp) {
      ui.OpenWindow(resp.appUrl.value, "_blank");
      if !popupOpened {
        ui.ShowMessage(PopupBlockedMessage());
      }
    } else {
      var errorMessage := ExportErrorPrefix;
      if resp.message != "" {
        errorMessage := errorMessage + ": " + resp.message;
      }
      ui.ShowMessage(FailureMessage(errorMessage));
    }
  }

  /**
   * The conflict scenario end to end: the first response is ALREADY_EXISTS,
   * the user confirms, and whatever the retry's response, the retry request
   * is the override URL and the modal is gone afterwards.
   */
  method ExportThenConfirm(ui: Ui, resource: Resource, baseUrl: string, lang: string, enc: string -> string,
                           first: ExportResponse, local: DateFields, retry: ExportResponse, popupOpened: bool)
    requires first.code == Some("ALREADY_EXISTS") && !Succeeded(first)
    modifies ui
    ensures var url := ExportUrl(baseUrl, resource.path, lang, enc);
      Requests(ui.log) == Requests(old(ui.log)) + [Http(Post, url), Http(Post, RetryUrl(url))]
    ensures ui.modal == None
  {
    ghost var before := ui.log;
    var url := ExportUrl(baseUrl, resource.path, lang, enc);
    ExportToOverleaf(ui, resource, baseUrl, lang, enc, first, local, popupOpened);
    ghost var modal := ConflictModal(ConflictTitle(first.exportTime, local), url);
    assert ui.log == before + [Sent(Http(Post, url))] + [ModalShown(modal)];
    var confirm := ui.modal.value.onConfirm;
    ghost var mid := ui.log;
    RetryRequest(ui, confirm.url, retry, popupOpened);
    ghost var effects := OutcomeEffects(RetryOutcome(retry), popupOpened, RetryUrl(url));
    NoRequestsInOutcome(RetryOutcome(retry), popupOpened, RetryUrl(url));
    ConflictScenarioRequests(before, url, modal, RetryUrl(url), effects);
  }

  /** The requests of the conflict scenario's effect log, in order. */
  lemma ConflictScenarioRequests(before: seq<Effect>, url: string, modal: Modal, retryUrl: string, effects: seq<Effect>)
    requires Requests(effects) == []
    ensures Requests(before + [Sent(Http(Post, url))] + [ModalShown(modal)] +
                     [ModalHidden, Sent(Http(Post, retryUrl))] + effects) ==
            Requests(before) + [Http(Post, url), Http(Post, retryUrl)]
  {
    var first: seq<Effect> := [Sent(Http(Post, url))];
    var shown: seq<Effect> := [ModalShown(modal)];
    var steps: seq<Effect> := [ModalHidden, Sent(Http(Post, retryUrl))];
    RequestsOfOne(Sent(Http(Post, url)));
    RequestsOfOne(ModalShown(modal));
    assert Requests(steps) == [Http(Post, retryUrl)] by {
      RequestsOfOne(ModalHidden);
      RequestsOfOne(Sent(Http(Post, retryUrl)));
      assert steps == [ModalHidden] + [Sent(Http(Post, retryUrl))];
      RequestsAppend([ModalHidden], [Sent(Http(Post, retryUrl))]);
    }
    RequestsAppend(before, first);
    RequestsAppend(before + first, shown);
    RequestsAppend(before + first + shown, steps);
    RequestsAppend(before + first + shown + steps, effects);
  }

  /** Handling a response never sends another request. */
  lemma NoRequestsInOutcome(o: Outcome, popupOpened: bool, url: string)
    ensures Requests(OutcomeEffects(o, popupOpened, url)) == []
  {
    match o
    case Opened(appUrl) =>
      var tail: seq<Effect> := if popupOpened then [] else [Shown(PopupBlockedMessage())];
      RequestsOfOne(WindowOpened(appUrl, "_blank"));
      if !popupOpened {
        RequestsOfOne(Shown(PopupBlockedMessage()));
      }
      RequestsAppend([WindowOpened(appUrl, "_blank")], tail);
    case Conflict(title) =>
      RequestsOfOne(ModalShown(ConflictModal(title, url)));
    case Failed(description) =>
      RequestsOfOne(Shown(FailureMessage(description)));
  }
}
