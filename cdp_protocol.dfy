/**
 * `cdpSend`: one DevTools-protocol command over a fresh WebSocket, always
 * with id 1. The promise settles on the first message whose id is 1 (an
 * `error` field rejects it), on a socket error, or after the 8 s timer;
 * every other message is ignored. The socket and the timer are not
 * modelled; their events are the methods of `CdpCall`.
 */
module CdpProtocol {
  import opened Wrappers
  import InjectedScript

  /** Every command is sent with this id: each command has a socket of its own. */
  const CommandId: int := 1

  const TimeoutMs: nat := 8000
  const TimeoutMessage := "CDP timeout after 8s"

  /** The parameters of `Runtime.evaluate` as `injectIntoChat` sends them. */
  datatype EvaluateParams = EvaluateParams(expression: string, awaitPromise: bool, returnByValue: bool)

  /** The frame sent on open: `{ id, method, params }`. */
  datatype Request = Request(id: int, command: string, params: EvaluateParams)

  /**
   * `exceptionDetails` of an evaluation: `exception.description` (absent when
   * the exception object or its description is) and `text`.
   */
  datatype ExceptionDetails = ExceptionDetails(description: Option<string>, text: string)

  /**
   * The `result` of `Runtime.evaluate`: its `exceptionDetails`, and
   * `result.value` (absent when `result`, or its value, is absent or null).
   */
  datatype EvaluateResult = EvaluateResult(exceptionDetails: Option<ExceptionDetails>, value: Option<InjectedScript.ScriptResult>)

  /** The `error` object of a response; `message` may be missing. */
  datatype ErrorObject = ErrorObject(message: Option<string>)

  /** A parsed inbound frame: responses carry an `id`, events do not. */
  datatype Message = Message(id: Option<int>, error: Option<ErrorObject>, result: Option<EvaluateResult>)

  /** How the promise of `cdpSend` settles. */
  datatype Settlement = Resolved(value: Option<EvaluateResult>) | Rejected(reason: string)

  /** `${msg.error.message}`: a missing message prints as `undefined`. */
  function ErrorText(e: ErrorObject): string {
    if e.message.Some? then e.message.value else "undefined"
  }

  /**
   * What one inbound message does to the pending command: `None` when it is
   * ignored, otherwise the settlement it causes.
   */
  function Classify(msg: Message): (s: Option<Settlement>)
    ensures s.Some? <==> msg.id == Some(CommandId)
    ensures s.Some? && msg.error.Some? ==> s.value == Rejected("CDP error: " + ErrorText(msg.error.value))
    ensures s.Some? && msg.error.None? ==> s.value == Resolved(msg.result)
  {
    if msg.id == Some(CommandId) then
      if msg.error.Some? then Some(Rejected("CDP error: " + ErrorText(msg.error.value)))
      else Some(Resolved(msg.result))
    else None
  }

  /** A promise settles once: a later settlement does not replace an earlier one. */
  function Settle(current: Option<Settlement>, s: Settlement): (r: Option<Settlement>)
    ensures current.Some? ==> r == current
    ensures current.None? ==> r == Some(s)
  {
    if current.Some? then current else Some(s)
  }

  /** `Settle` for a message that may be ignored (`None`). */
  function SettleOn(current: Option<Settlement>, s: Option<Settlement>): Option<Settlement> {
    if s.Some? then Settle(current, s.value) else current
  }

  /**
   * The settlement reached by a stream of messages (when no socket error or
   * timeout comes first): that of the first message with id 1, and none when
   * no such message arrives.
   */
  function Correlate(msgs: seq<Message>): (r: Option<Settlement>)
    ensures r.Some? <==> exists i :: 0 <= i < |msgs| && msgs[i].id == Some(CommandId)
    ensures r.Some? ==> exists i :: 0 <= i < |msgs| && Classify(msgs[i]) == r
                                && (forall j :: 0 <= j < i ==> msgs[j].id != Some(CommandId))
    decreases |msgs|
  {
    if |msgs| == 0 then None
    else if Classify(msgs[0]).Some? then Classify(msgs[0])
    else
      var r := Correlate(msgs[1..]);
      assert forall i :: 0 <= i < |msgs| - 1 ==> msgs[1..][i] == msgs[i + 1];
      r
  }

  /** Delivering one more message settles the call only if it was still pending. */
  lemma {:induction false} CorrelateSnoc(msgs: seq<Message>, m: Message)
    ensures Correlate(msgs + [m]) == SettleOn(Correlate(msgs), Classify(m))
  {
    if |msgs| > 0 {
      assert (msgs + [m])[1..] == msgs[1..] + [m];
      CorrelateSnoc(msgs[1..], m);
    }
  }

  /** A message with another id can be dropped from the stream without changing the outcome. */
  lemma {:induction false} CorrelateIgnoresOtherIds(a: seq<Message>, m: Message, b: seq<Message>)
    requires m.id != Some(CommandId)
    ensures Correlate(a + [m] + b) == Correlate(a + b)
  {
    if |a| == 0 {
      assert a + [m] + b == [m] + b;
      assert ([m] + b)[1..] == b;
      assert a + b == b;
    } else {
      assert (a + [m] + b)[0] == a[0];
      assert (a + b)[0] == a[0];
      assert (a + [m] + b)[1..] == a[1..] + [m] + b;
      assert (a + b)[1..] == a[1..] + b;
      CorrelateIgnoresOtherIds(a[1..], m, b);
    }
  }

  /**
   * One call of `cdpSend`: the request it sends on open, the frames sent so
   * far, how its promise has settled, whether the socket was told to close and
   * whether the timeout timer is still pending.
   */
  class CdpCall {
    const request: Request
    /** The delay of the timeout timer, in milliseconds. */
    const timeoutMs: nat
    var sent: seq<Request>
    var outcome: Option<Settlement>
    var closeRequested: bool
    var timerArmed: bool

    /** The socket is only ever told to close together with settling the promise. */
    predicate Valid()
      reads this
    {
      closeRequested ==> outcome.Some?
    }

    /** `new WebSocket(wsUrl)` and `setTimeout(..., 8000)` */
    constructor (command: string, params: EvaluateParams)
      ensures request == Request(CommandId, command, params) && timeoutMs == TimeoutMs
      ensures sent == [] && outcome == None && !closeRequested && timerArmed
      ensures Valid()
    {
      request := Request(CommandId, command, params);
      timeoutMs := TimeoutMs;
      sent := [];
      outcome := None;
      closeRequested := false;
      timerArmed := true;
    }

    /** `ws.on('open')`: the one request frame is sent. */
    method OnOpen()
      requires Valid()
      modifies this
      ensures Valid()
      ensures sent == old(sent) + [request]
      ensures outcome == old(outcome) && closeRequested == old(closeRequested) && timerArmed == old(timerArmed)
    {
      sent := sent + [request];
    }

    /** `ws.on('message')`: only id 1 counts; it closes the socket and settles the promise. */
    method OnMessage(msg: Message)
      requires Valid()
      modifies this
      ensures Valid()
      ensures Classify(msg).None? ==> outcome == old(outcome) && closeRequested == old(closeRequested)
      ensures Classify(msg).Some? ==> closeRequested && outcome == Settle(old(outcome), Classify(msg).value)
      ensures sent == old(sent) && timerArmed == old(timerArmed)
    {
      if msg.id == Some(CommandId) {
        closeRequested := true;
        if msg.error.Some? {
          outcome := Settle(outcome, Rejected("CDP error: " + ErrorText(msg.error.value)));
        } else {
          outcome := Settle(outcome, Resolved(msg.result));
        }
      }
    }

    /**
     * A stream of messages delivered to a pending call, one `OnMessage` at a
     * time: the call settles as `Correlate` says, and the socket is told to
     * close once a reply with id 1 has come.
     */
    method OnMessages(msgs: seq<Message>)
      requires Valid() && outcome.None?
      modifies this
      ensures Valid()
      ensures outcome == Correlate(msgs)
      ensures closeRequested == Correlate(msgs).Some?
      ensures sent == old(sent) && timerArmed == old(timerArmed)
    {
      var i := 0;
      while i < |msgs|
        invariant 0 <= i <= |msgs|
        invariant outcome == Correlate(msgs[..i])
        invariant Valid()
        invariant closeRequested == Correlate(msgs[..i]).Some?
        invariant sent == old(sent) && timerArmed == old(timerArmed)
      {
        CorrelateSnoc(msgs[..i], msgs[i]);
        assert msgs[..i + 1] == msgs[..i] + [msgs[i]];
        OnMessage(msgs[i]);
        i := i + 1;
      }
      assert msgs[..i] == msgs;
    }

    /** `ws.on('error')`: close and reject with the socket's error. */
    method OnSocketError(reason: string)
      requires Valid()
      modifies this
      ensures Valid()
      ensures closeRequested && outcome == Settle(old(outcome), Rejected(reason))
      ensures sent == old(sent) && timerArmed == old(timerArmed)
    {
      closeRequested := true;
      outcome := Settle(outcome, Rejected(reason));
    }

    /** The timer fires (it can only while still armed): close and reject with the timeout error. */
    method OnTimeout()
      requires Valid() && timerArmed
      modifies this
      ensures Valid()
      ensures closeRequested && !timerArmed && outcome == Settle(old(outcome), Rejected(TimeoutMessage))
      ensures sent == old(sent)
    {
      closeRequested := true;
      timerArmed := false;
      outcome := Settle(outcome, Rejected(TimeoutMessage));
    }

    /**
     * `ws.on('close')`: the timer is cleared. The promise is not settled here,
     * so a socket that closes before any id-1 reply (and without an error
     * event) leaves the call pending with no timer left to reject it.
     */
    method OnClose()
      requires Valid()
      modifies this
      ensures Valid()
      ensures !timerArmed
      ensures sent == old(sent) && outcome == old(outcome) && closeRequested == old(closeRequested)
    {
      timerArmed := false;
    }
  }

  /**
   * A socket that opens and then closes without replying: the request was
   * sent, the timer is gone and the call is still pending. `OnTimeout` can no
   * longer fire, and a closed socket delivers no further message.
   */
  method PendingAfterEarlyClose(command: string, params: EvaluateParams) returns (call: CdpCall)
    ensures fresh(call)
    ensures call.sent == [call.request] && call.outcome.None? && !call.timerArmed
    ensures call.Valid() && !call.closeRequested
  {
    call := new CdpCall(command, params);
    call.OnOpen();
    call.OnClose();
  }
}
