/**
 * `sendViaCDP`: pick the IDE's workbench window from the debugging
 * endpoint's `/json` target list, evaluate the injection script in it, and
 * turn the evaluation's answer into success or a descriptive error. The HTTP
 * request and JSON parsing are not modelled: the target list arrives parsed,
 * and the settlement of the one `cdpSend` call is a parameter.
 */
module CdpChat {
  import opened Wrappers
  import opened Text
  import opened InjectedScript
  import opened CdpProtocol

  /** One entry of the `/json` list. */
  datatype Target = Target(id: string, kind: string, title: string, url: string, wsUrl: Option<string>)

  const DevHostMarker := "Extension Development Host"
  const NoWorkbenchPrefix := "No workbench page found.\nAvailable targets: "
  const MissingSocketMessage := "Target has no webSocketDebuggerUrl"
  const ChatNotFoundPrefix := "CDP: ô chat không tìm thấy (method="
  const DebugPrefix := "\nDebug: "

  /** The filter of `findWorkbenchTarget`: a page, on `workbench.html`, with a debugger socket URL. */
  predicate IsWorkbenchPage(t: Target) {
    t.kind == "page" && Contains(t.url, "workbench.html") && Truthy(t.wsUrl)
  }

  predicate IsDevHost(t: Target) {
    Contains(t.title, DevHostMarker)
  }

  /** `targets.filter(...)`: the workbench pages, in the list's order. */
  function WorkbenchPages(ts: seq<Target>): (r: seq<Target>)
    ensures forall t :: t in r <==> t in ts && IsWorkbenchPage(t)
    ensures |r| <= |ts|
    decreases |ts|
  {
    if |ts| == 0 then []
    else
      var rest := WorkbenchPages(ts[1..]);
      assert forall t :: t in ts <==> t == ts[0] || t in ts[1..];
      if IsWorkbenchPage(ts[0]) then [ts[0]] + rest else rest
  }

  /** `filter` keeps the list's order: filtering a concatenation filters each part. */
  lemma {:induction false} WorkbenchPagesAppend(a: seq<Target>, b: seq<Target>)
    ensures WorkbenchPages(a + b) == WorkbenchPages(a) + WorkbenchPages(b)
    decreases |a|
  {
    if |a| == 0 {
      assert a + b == b;
    } else {
      assert (a + b)[0] == a[0];
      assert (a + b)[1..] == a[1..] + b;
      WorkbenchPagesAppend(a[1..], b);
    }
  }

  /** A single target is kept exactly when it is a workbench page. */
  lemma WorkbenchPagesSingle(t: Target)
    ensures WorkbenchPages([t]) == if IsWorkbenchPage(t) then [t] else []
  {
    assert [t][1..] == [];
  }

  /** `${t.title} (${t.type})` */
  function Label(t: Target): string {
    t.title + " (" + t.kind + ")"
  }

  /** Every target of the list, labelled and joined with ", ". */
  function TargetListing(ts: seq<Target>): string {
    Join(seq(|ts|, i requires 0 <= i < |ts| => Label(ts[i])), ", ")
  }

  /** The error for an empty selection names every target of the list. */
  lemma ListingNamesEveryTarget(ts: seq<Target>, i: nat)
    requires i < |ts|
    ensures Contains(TargetListing(ts), Label(ts[i]))
  {
    JoinContainsEach(seq(|ts|, i requires 0 <= i < |ts| => Label(ts[i])), ", ", i);
  }

  /** `pages.find(t => !t.title.includes(...))` as an index. */
  function FirstNonDevHost(pages: seq<Target>): (r: Option<nat>)
    ensures r.Some? ==> r.value < |pages| && !IsDevHost(pages[r.value])
                        && (forall j :: 0 <= j < r.value ==> IsDevHost(pages[j]))
    ensures r.None? ==> forall j :: 0 <= j < |pages| ==> IsDevHost(pages[j])
    decreases |pages|
  {
    if |pages| == 0 then None
    else if !IsDevHost(pages[0]) then Some(0)
    else
      var r := FirstNonDevHost(pages[1..]);
      assert forall j :: 1 <= j < |pages| ==> pages[j] == pages[1..][j - 1];
      if r.Some? then Some(r.value + 1) else None
  }

  /**
   * `t` is `pages[k]`, every earlier page is the Extension Development Host,
   * and `t` is itself one only when all pages are and `k` is 0.
   */
  predicate PreferredAt(pages: seq<Target>, k: int, t: Target) {
    && 0 <= k < |pages| && pages[k] == t
    && (forall j :: 0 <= j < k ==> IsDevHost(pages[j]))
    && (IsDevHost(t) ==> k == 0 && forall j :: 0 <= j < |pages| ==> IsDevHost(pages[j]))
  }

  /**
   * `findWorkbenchTarget` after the `/json` list is parsed: an error listing
   * every target when no workbench page exists; otherwise the first workbench
   * page that is not the Extension Development Host, or the first workbench
   * page when all of them are.
   */
  function FindWorkbenchTarget(ts: seq<Target>): (r: Result<Target>)
    ensures r.Err? <==> forall t :: t in ts ==> !IsWorkbenchPage(t)
    ensures r.Err? ==> r.error == NoWorkbenchPrefix + TargetListing(ts)
    ensures r.Ok? ==> IsWorkbenchPage(r.value) && r.value in ts
    ensures r.Ok? ==> exists k :: PreferredAt(WorkbenchPages(ts), k, r.value)
  {
    var pages := WorkbenchPages(ts);
    if |pages| == 0 then
      Err(NoWorkbenchPrefix + TargetListing(ts))
    else
      var i := FirstNonDevHost(pages);
      assert pages[0] in pages;
      if i.Some? then
        assert pages[i.value] in pages && PreferredAt(pages, i.value, pages[i.value]);
        Ok(pages[i.value])
      else
        assert PreferredAt(pages, 0, pages[0]);
        Ok(pages[0])
  }

  /** A failed evaluation's message: `exception.description` when non-empty, else `text`. */
  function ExceptionMessage(d: ExceptionDetails): string {
    if Truthy(d.description) then d.description.value else d.text
  }

  const NoResult := ScriptResult(false, "no_result", None)

  /**
   * How `injectIntoChat` reads the `Runtime.evaluate` result: a thrown
   * exception becomes `{ok: false, method: 'exception'}`, a missing value
   * `{ok: false, method: 'no_result'}`; otherwise the script's own report.
   */
  function Interpret(resp: Option<EvaluateResult>): (r: ScriptResult)
    ensures resp.Some? && resp.value.exceptionDetails.Some? ==>
              r == ScriptResult(false, "exception", Some(ExceptionMessage(resp.value.exceptionDetails.value)))
    ensures (resp.None? || resp.value.value.None?) && (resp.None? || resp.value.exceptionDetails.None?) ==>
              r == NoResult
    ensures resp.Some? && resp.value.exceptionDetails.None? && resp.value.value.Some? ==>
              r == resp.value.value.value
    ensures r.ok ==> resp.Some? && resp.value.exceptionDetails.None? && resp.value.value == Some(r)
  {
    if resp.Some? && resp.value.exceptionDetails.Some? then
      ScriptResult(false, "exception", Some(ExceptionMessage(resp.value.exceptionDetails.value)))
    else if resp.Some? && resp.value.value.Some? then resp.value.value.value
    else NoResult
  }

  /**
   * `injectIntoChat` starting its one `cdpSend`: a `Runtime.evaluate` of the
   * script, awaiting its promise and returning its result by value.
   */
  method BeginInjection(expression: string) returns (call: CdpCall)
    ensures fresh(call)
    ensures call.request == Request(CommandId, "Runtime.evaluate", EvaluateParams(expression, true, true))
    ensures call.sent == [] && call.outcome.None? && call.timerArmed && call.timeoutMs == TimeoutMs
    ensures call.Valid() && !call.closeRequested
  {
    call := new CdpCall("Runtime.evaluate", EvaluateParams(expression, true, true));
  }

  /** `injectIntoChat` after the `cdpSend` promise settled: a rejection propagates as the thrown error. */
  function InjectIntoChat(reply: Settlement): (r: Result<ScriptResult>)
    ensures reply.Rejected? ==> r == Err(reply.reason)
    ensures reply.Resolved? ==> r == Ok(Interpret(reply.value))
  {
    match reply
    case Rejected(reason) => Err(reason)
    case Resolved(v) => Ok(Interpret(v))
  }

  /** The error `sendViaCDP` throws for `{ok: false}`; the debug line is added only for a non-empty `error`. */
  function FailureMessage(r: ScriptResult): string {
    ChatNotFoundPrefix + r.strategy + ")" + (if Truthy(r.error) then DebugPrefix + r.error.value else "")
  }

  /** `sendViaCDP(text, port)`, with `reply` the settlement of its one `cdpSend` call. */
  function SendViaCdp(targets: seq<Target>, reply: Settlement): Outcome {
    match FindWorkbenchTarget(targets)
    case Err(e) => Fail(e)
    case Ok(t) =>
      if !Truthy(t.wsUrl) then Fail(MissingSocketMessage)
      else
        match InjectIntoChat(reply)
        case Err(e) => Fail(e)
        case Ok(r) => if r.ok then Pass else Fail(FailureMessage(r))
  }

  /**
   * The outcome of `sendViaCDP`: it succeeds exactly when a workbench page
   * exists, the command was answered and the answer reports `ok`; each
   * failure carries the error of the step that failed, and the check for a
   * missing socket URL never fires.
   */
  lemma SendViaCdpOutcome(ts: seq<Target>, reply: Settlement)
    ensures SendViaCdp(ts, reply).Pass? <==>
              (exists t :: t in ts && IsWorkbenchPage(t)) && reply.Resolved? && Interpret(reply.value).ok
    ensures (forall t :: t in ts ==> !IsWorkbenchPage(t)) ==>
              SendViaCdp(ts, reply) == Fail(NoWorkbenchPrefix + TargetListing(ts))
    ensures (exists t :: t in ts && IsWorkbenchPage(t)) && reply.Rejected? ==>
              SendViaCdp(ts, reply) == Fail(reply.reason)
    ensures (exists t :: t in ts && IsWorkbenchPage(t)) && reply.Resolved? && !Interpret(reply.value).ok ==>
              SendViaCdp(ts, reply) == Fail(FailureMessage(Interpret(reply.value)))
    ensures SendViaCdp(ts, reply) != Fail(MissingSocketMessage) || reply == Rejected(MissingSocketMessage)
  {
  }

  /** The answer `Runtime.evaluate` gives when the script ran to completion on `page`. */
  function NormalReply(page: Page): Settlement {
    Resolved(Some(EvaluateResult(None, Some(Search(page)))))
  }

  /**
   * End to end: when the script runs normally on the chosen window's `page`,
   * sending succeeds exactly when one of the selectors yields an input.
   */
  lemma SendSucceedsIffInputFound(ts: seq<Target>, page: Page)
    requires exists t :: t in ts && IsWorkbenchPage(t)
    ensures SendViaCdp(ts, NormalReply(page)).Pass? <==>
              exists i :: 0 <= i < |Selectors| && MethodFor(page, Selectors[i]).Some?
  {
    var r := Search(page);
    assert Interpret(NormalReply(page).value) == r;
    SendViaCdpOutcome(ts, NormalReply(page));
  }

  /** When no selector yields an input, the error names method `none` and lists the page's inputs. */
  lemma NoInputErrorListsInputs(ts: seq<Target>, page: Page)
    requires exists t :: t in ts && IsWorkbenchPage(t)
    requires forall i :: 0 <= i < |Selectors| ==> MethodFor(page, Selectors[i]).None?
    ensures SendViaCdp(ts, NormalReply(page))
            == Fail(ChatNotFoundPrefix + "none" + ")" + (DebugPrefix + (NoMatchPrefix + JsonStringArray(Diagnostics(page)))))
  {
    var r := Search(page);
    assert !r.ok;
    var diag := JsonStringArray(Diagnostics(page));
    assert r == ScriptResult(false, "none", Some(NoMatchPrefix + diag));
    assert Interpret(NormalReply(page).value) == r;
    assert Truthy(r.error) by {
      assert |r.error.value| >= |NoMatchPrefix|;
    }
    assert FailureMessage(r) == ChatNotFoundPrefix + "none" + ")" + (DebugPrefix + (NoMatchPrefix + diag));
    SendViaCdpOutcome(ts, NormalReply(page));
  }

  /** A script that threw is reported as method `exception`, with a debug line only when its message is non-empty. */
  lemma ThrownScriptFails(ts: seq<Target>, d: ExceptionDetails, v: Option<ScriptResult>)
    requires exists t :: t in ts && IsWorkbenchPage(t)
    ensures var o := SendViaCdp(ts, Resolved(Some(EvaluateResult(Some(d), v))));
            o == Fail(ChatNotFoundPrefix + "exception)"
                      + (if ExceptionMessage(d) != "" then DebugPrefix + ExceptionMessage(d) else ""))
  {
  }
}
