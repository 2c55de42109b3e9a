/**
 * The UI services the handlers drive: the single confirmation modal, its
 * confirm button and input error, toast notifications, outgoing requests and
 * opened browser windows. Every outward effect is appended to `log`, so the
 * order in which a handler hides a modal, sends a request and notifies the
 * user is part of its contract.
 */
module Ui {
  import opened Wrappers
  import opened Seqs
  import opened Resources

  /** The `status` of a notification. */
  datatype Status = Success | Warning | Danger

  /** A notification as `showMessage` receives it (`desc` and `timeout` may be absent). */
  datatype Message = Message(title: string, status: Status, desc: Option<string>, timeout: Option<nat>)

  datatype HttpMethod = Get | Post

  datatype Request =
    | Http(verb: HttpMethod, url: string)
    | RenameFile(path: string, newName: string, publicPage: bool)
    | MarkFavorite(path: string)

  datatype Variation = InfoVariation | WarningVariation

  /** The text input of a modal that has one (`hasInput: true`); `caption` is its `inputLabel`. */
  datatype ModalInput = ModalInput(value: string, placeholder: string, caption: string)

  /**
   * What the modal's confirm button runs. Cancelling always runs `hideModal`;
   * a rename modal also checks each input against the resource's current name.
   */
  datatype ConfirmAction =
    | ConfirmRename(resource: Resource)
    | RetryExport(url: string)
    | ConfirmImport(resource: Resource)

  datatype Modal = Modal(
    variation: Variation,
    title: string,
    message: Option<string>,
    confirmText: string,
    cancelText: string,
    input: Option<ModalInput>,
    onConfirm: ConfirmAction)

  datatype Effect =
    | ModalShown(modal: Modal)
    | ModalHidden
    | Sent(request: Request)
    | Shown(message: Message)
    | WindowOpened(url: string, target: string)

  /** The requests in an effect log, in the order they were sent. */
  function Requests(log: seq<Effect>): seq<Request>
  {
    if log == [] then []
    else (if log[0].Sent? then [log[0].request] else []) + Requests(log[1..])
  }

  /** Exactly the requests the log records as sent are among its requests. */
  lemma {:induction false} RequestsAreSent(log: seq<Effect>)
    ensures forall q :: q in Requests(log) <==> Sent(q) in log
  {
    if log != [] {
      RequestsAreSent(log[1..]);
      assert forall e :: e in log <==> e == log[0] || e in log[1..];
    }
  }

  lemma RequestsOfOne(e: Effect)
    ensures Requests([e]) == if e.Sent? then [e.request] else []
  {
    assert [e][1..] == [];
  }

  lemma {:induction false} RequestsAppend(a: seq<Effect>, b: seq<Effect>)
    ensures Requests(a + b) == Requests(a) + Requests(b)
  {
    if a == [] {
      assert a + b == b;
    } else {
      var head := if a[0].Sent? then [a[0].request] else [];
      assert (a + b)[0] == a[0];
      assert (a + b)[1..] == a[1..] + b;
      RequestsAppend(a[1..], b);
      assert Requests(a + b) == head + (Requests(a[1..]) + Requests(b));
      ConcatAssoc(head, Requests(a[1..]), Requests(b));
    }
  }

  /** Notifications among some effects. */
  function Notifications(effects: seq<Effect>): seq<Message>
  {
    if effects == [] then [] else (if effects[0].Shown? then [effects[0].message] else []) + Notifications(effects[1..])
  }

  /** Exactly the messages the effects record as shown are among the notifications. */
  lemma {:induction false} NotificationsAreShown(effects: seq<Effect>)
    ensures forall m :: m in Notifications(effects) <==> Shown(m) in effects
  {
    if effects != [] {
      NotificationsAreShown(effects[1..]);
      assert forall e :: e in effects <==> e == effects[0] || e in effects[1..];
    }
  }

  lemma NotificationsOfOne(e: Effect)
    ensures Notifications([e]) == if e.Shown? then [e.message] else []
  {
    assert [e][1..] == [];
  }

  lemma {:induction false} NotificationsAppend(a: seq<Effect>, b: seq<Effect>)
    ensures Notifications(a + b) == Notifications(a) + Notifications(b)
  {
    if a == [] {
      assert a + b == b;
    } else {
      var head := if a[0].Shown? then [a[0].message] else [];
      assert (a + b)[0] == a[0];
      assert (a + b)[1..] == a[1..] + b;
      NotificationsAppend(a[1..], b);
      assert Notifications(a + b) == head + (Notifications(a[1..]) + Notifications(b));
      ConcatAssoc(head, Notifications(a[1..]), Notifications(b));
    }
  }

  class Ui {
    var modal: Option<Modal>
    var confirmDisabled: bool
    var inputError: Option<string>
    var log: seq<Effect>

    constructor ()
      ensures modal == None && !confirmDisabled && inputError == None && log == []
    {
      modal := None;
      confirmDisabled := false;
      inputError := None;
      log := [];
    }

    method CreateModal(m: Modal)
      modifies this
      ensures modal == Some(m) && log == old(log) + [ModalShown(m)]
      ensures confirmDisabled == old(confirmDisabled) && inputError == old(inputError)
    {
      modal := Some(m);
      log := log + [ModalShown(m)];
    }

    method HideModal()
      modifies this
      ensures modal == None && log == old(log) + [ModalHidden]
      ensures confirmDisabled == old(confirmDisabled) && inputError == old(inputError)
    {
      modal := None;
      log := log + [ModalHidden];
    }

    method SetModalInputErrorMessage(e: Option<string>)
      modifies this
      ensures inputError == e
      ensures modal == old(modal) && confirmDisabled == old(confirmDisabled) && log == old(log)
    {
      inputError := e;
    }

    method ToggleModalConfirmButton()
      modifies this
      ensures confirmDisabled == !old(confirmDisabled)
      ensures modal == old(modal) && inputError == old(inputError) && log == old(log)
    {
      confirmDisabled := !confirmDisabled;
    }

    method ShowMessage(m: Message)
      modifies this
      ensures log == old(log) + [Shown(m)]
      ensures modal == old(modal) && confirmDisabled == old(confirmDisabled) && inputError == old(inputError)
    {
      log := log + [Shown(m)];
    }

    method Send(r: Request)
      modifies this
      ensures log == old(log) + [Sent(r)]
      ensures modal == old(modal) && confirmDisabled == old(confirmDisabled) && inputError == old(inputError)
    {
      log := log + [Sent(r)];
    }

    method OpenWindow(url: string, target: string)
      modifies this
      ensures log == old(log) + [WindowOpened(url, target)]
      ensures modal == old(modal) && confirmDisabled == old(confirmDisabled) && inputError == old(inputError)
    {
      log := log + [WindowOpened(url, target)];
    }
  }
}
