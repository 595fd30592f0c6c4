/**
 * The script `injectIntoChat` evaluates in the IDE's page: it walks a fixed,
 * ordered list of CSS selectors, stops at the first one whose first match is
 * a text control or a Monaco `inputarea`, and otherwise reports a diagnostic
 * list of the page's text inputs. Focusing, value setting, event dispatch and
 * the settle delays are side effects on the DOM and are not modelled; the DOM
 * itself is an oracle (`Page`) answering `querySelector` and
 * `querySelectorAll`.
 */
module InjectedScript {
  import opened Wrappers
  import opened Text

  /** What the script reads of an element: its tag, its `class` attribute and its `placeholder` attribute. */
  datatype Element = Element(tagName: string, className: string, placeholder: Option<string>)

  /**
   * The page as the script sees it: `document.querySelector(sel)` for each
   * selector (a selector missing from the map matches nothing), and the result
   * of `querySelectorAll('textarea, input[type=text]')` in document order.
   */
  datatype Page = Page(firstMatch: map<string, Element>, textInputs: seq<Element>)

  /** The `{ ok, method, error? }` object the script returns. */
  datatype ScriptResult = ScriptResult(ok: bool, strategy: string, error: Option<string>)

  /** The selectors, most specific first. */
  const Selectors: seq<string> := [
    ".jetski-chat-input textarea",
    ".jetski-input textarea",
    ".agent-chat-input textarea",
    ".aichat-input textarea",
    ".interactive-input-editor .inputarea",
    ".chat-input-editor .inputarea",
    ".chat-widget .inputarea",
    ".interactive-session .inputarea",
    ".jetski-chat-input input[type=text]",
    ".chat-input input[type=text]"
  ]

  /** At most this many inputs are listed when nothing matched. */
  const DiagnosticCap: nat := 10

  const NoMatchPrefix := "No selector matched. Found inputs: "

  predicate IsTextControl(el: Element) {
    el.tagName == "TEXTAREA" || el.tagName == "INPUT"
  }

  /** `el.classList.contains('inputarea')` */
  predicate IsMonacoInput(el: Element) {
    "inputarea" in Split(el.className, AsciiWhitespace)
  }

  /**
   * The `method` the script reports if it stops at `sel`, or `None` when the
   * selector matches nothing or matches an element that is neither kind of
   * input (the loop then moves on).
   */
  function MethodFor(page: Page, sel: string): Option<string> {
    if sel !in page.firstMatch then None
    else
      var el := page.firstMatch[sel];
      if IsTextControl(el) then Some(sel)
      else if IsMonacoInput(el) then Some("monaco:" + sel)
      else None
  }

  /**
   * A selector yields its own name exactly when its first match is a TEXTAREA
   * or INPUT, and `monaco:` plus its name exactly when the match is an
   * `inputarea` element of any other tag.
   */
  lemma MethodForIff(page: Page, sel: string)
    ensures MethodFor(page, sel) == Some(sel) <==>
              sel in page.firstMatch && IsTextControl(page.firstMatch[sel])
    ensures MethodFor(page, sel) == Some("monaco:" + sel) <==>
              sel in page.firstMatch && !IsTextControl(page.firstMatch[sel]) && IsMonacoInput(page.firstMatch[sel])
  {
    assert |"monaco:" + sel| != |sel|;
  }

  /** The tag test comes first: a `<textarea class="inputarea">` is reported without the `monaco:` prefix. */
  lemma TextareaInputAreaHasNoPrefix(page: Page, sel: string)
    requires sel in page.firstMatch
    requires page.firstMatch[sel].tagName == "TEXTAREA" && IsMonacoInput(page.firstMatch[sel])
    ensures MethodFor(page, sel) == Some(sel)
  {
  }

  /** `className + ' | placeholder=' + getAttribute('placeholder')`; a missing attribute prints as `null`. */
  function Describe(el: Element): string {
    el.className + " | placeholder=" + (if el.placeholder.Some? then el.placeholder.value else "null")
  }

  /** The descriptions of the first `DiagnosticCap` text inputs, in document order. */
  function Diagnostics(page: Page): (r: seq<string>)
    ensures |r| <= DiagnosticCap
    ensures |r| == if |page.textInputs| < DiagnosticCap then |page.textInputs| else DiagnosticCap
    ensures forall k :: 0 <= k < |r| ==> r[k] == Describe(page.textInputs[k])
  {
    var all := seq(|page.textInputs|, k requires 0 <= k < |page.textInputs| => Describe(page.textInputs[k]));
    if |all| <= DiagnosticCap then all else all[..DiagnosticCap]
  }

  /** What the script returns when no selector yields an input. */
  function NoMatch(page: Page): ScriptResult {
    ScriptResult(false, "none", Some(NoMatchPrefix + JsonStringArray(Diagnostics(page))))
  }

  /** The loop's result over the remaining selectors `sels`. */
  function SearchFrom(page: Page, sels: seq<string>): (r: ScriptResult)
    ensures r.ok <==> exists i :: 0 <= i < |sels| && MethodFor(page, sels[i]).Some?
    ensures r.ok ==> r.error.None?
    ensures r.ok ==> exists i :: 0 <= i < |sels| && MethodFor(page, sels[i]) == Some(r.strategy)
                                && (forall j :: 0 <= j < i ==> MethodFor(page, sels[j]).None?)
    ensures !r.ok ==> r == NoMatch(page)
    decreases |sels|
  {
    if |sels| == 0 then NoMatch(page)
    else
      var m := MethodFor(page, sels[0]);
      if m.Some? then ScriptResult(true, m.value, None)
      else
        var r := SearchFrom(page, sels[1..]);
        assert forall i :: 0 <= i < |sels| - 1 ==> sels[1..][i] == sels[i + 1];
        r
  }

  /** The script's result on `page`. */
  function Search(page: Page): ScriptResult {
    SearchFrom(page, Selectors)
  }

  /** When selector `i` is the first to yield an input, the script reports exactly its method. */
  lemma SearchReportsFirstMatch(page: Page, i: nat)
    requires i < |Selectors| && MethodFor(page, Selectors[i]).Some?
    requires forall j :: 0 <= j < i ==> MethodFor(page, Selectors[j]).None?
    ensures Search(page) == ScriptResult(true, MethodFor(page, Selectors[i]).value, None)
  {
    var r := Search(page);
    assert r.ok;
    var k :| 0 <= k < |Selectors| && MethodFor(page, Selectors[k]) == Some(r.strategy)
             && (forall j :: 0 <= j < k ==> MethodFor(page, Selectors[j]).None?);
    assert k == i;
  }

  /**
   * The selector loop as the script runs it. It stops at the first selector
   * that yields an input and reports that selector (prefixed with `monaco:`
   * for an `inputarea`); when none does, it reports `none` with at most ten
   * described inputs.
   */
  method RunSelectorLoop(page: Page) returns (r: ScriptResult)
    ensures r == Search(page)
    ensures r.ok <==> exists i :: 0 <= i < |Selectors| && MethodFor(page, Selectors[i]).Some?
    ensures r.ok ==> r.error.None?
    ensures r.ok ==> exists i :: 0 <= i < |Selectors| && MethodFor(page, Selectors[i]) == Some(r.strategy)
                                && (forall j :: 0 <= j < i ==> MethodFor(page, Selectors[j]).None?)
    ensures !r.ok ==> r.strategy == "none" && r.error == Some(NoMatchPrefix + JsonStringArray(Diagnostics(page)))
  {
    var i := 0;
    while i < |Selectors|
      invariant 0 <= i <= |Selectors|
      invariant SearchFrom(page, Selectors[i..]) == Search(page)
      invariant forall j :: 0 <= j < i ==> MethodFor(page, Selectors[j]).None?
    {
      var sel := Selectors[i];
      assert Selectors[i..][1..] == Selectors[i + 1..];
      if sel in page.firstMatch {
        var el := page.firstMatch[sel];
        if el.tagName == "TEXTAREA" || el.tagName == "INPUT" {
          return ScriptResult(true, sel, None);
        }
        if "inputarea" in Split(el.className, AsciiWhitespace) {
          return ScriptResult(true, "monaco:" + sel, None);
        }
      }
      i := i + 1;
    }
    r := NoMatch(page);
  }
}
