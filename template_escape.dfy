/**
 * How `injectIntoChat` makes user text safe to place between the backticks
 * of the JavaScript template literal it sends to the page: three global
 * `replace` calls, backslash first, then backtick, then dollar sign, each
 * putting a backslash in front of the character.
 */
module TemplateEscape {
  import opened Wrappers

  /** `s.replace(/c/g, '\\' + c)`: a backslash in front of every `c`. */
  function EscapeChar(s: string, c: char): string
    decreases |s|
  {
    if |s| == 0 then ""
    else (if s[0] == c then ['\\', c] else [s[0]]) + EscapeChar(s[1..], c)
  }

  /** The escape chain as the code applies it: `\` first, then `` ` ``, then `$`. */
  function Escape(text: string): string {
    EscapeChar(EscapeChar(EscapeChar(text, '\\'), '`'), '$')
  }

  /** The characters the chain escapes. */
  predicate IsSpecial(ch: char) {
    ch == '\\' || ch == '`' || ch == '$'
  }

  /** Reference definition: one pass that puts a backslash before each special character. */
  function EscapeOnePass(s: string): string
    decreases |s|
  {
    if |s| == 0 then ""
    else (if IsSpecial(s[0]) then ['\\', s[0]] else [s[0]]) + EscapeOnePass(s[1..])
  }

  function CountSpecial(s: string): nat
    decreases |s|
  {
    if |s| == 0 then 0 else (if IsSpecial(s[0]) then 1 else 0) + CountSpecial(s[1..])
  }

  /** Removes one level of backslash escaping: `\x` becomes `x`. */
  function Unescape(s: string): string
    decreases |s|
  {
    if |s| == 0 then ""
    else if s[0] == '\\' && |s| > 1 then [s[1]] + Unescape(s[2..])
    else [s[0]] + Unescape(s[1..])
  }

  lemma {:induction false} EscapeCharAppend(a: string, b: string, c: char)
    ensures EscapeChar(a + b, c) == EscapeChar(a, c) + EscapeChar(b, c)
  {
    if |a| > 0 {
      assert (a + b)[1..] == a[1..] + b;
      EscapeCharAppend(a[1..], b, c);
    } else {
      assert a + b == b;
    }
  }

  /** The chain on a single character. */
  lemma EscapeSingle(x: char)
    ensures Escape([x]) == if IsSpecial(x) then ['\\', x] else [x]
  {
    var one := EscapeChar([x], '\\');
    assert one == if x == '\\' then ['\\', '\\'] else [x] by {
      assert EscapeChar([x][1..], '\\') == "";
    }
    if x == '\\' {
      assert EscapeChar(one, '`') == one by {
        assert one == ['\\'] + ['\\'];
        EscapeCharAppend(['\\'], ['\\'], '`');
      }
      assert EscapeChar(one, '$') == one by {
        EscapeCharAppend(['\\'], ['\\'], '$');
      }
    } else {
      assert EscapeChar([x][1..], '`') == "";
      var two := EscapeChar(one, '`');
      if x == '`' {
        assert two == ['\\', '`'];
        EscapeCharAppend(['\\'], ['`'], '$');
        assert ['\\'] + ['`'] == two;
      } else {
        assert two == [x];
        assert EscapeChar([x][1..], '$') == "";
      }
    }
  }

  /** The three-pass chain, applied in the code's order, escapes each special character exactly once. */
  lemma {:induction false} EscapeIsOnePass(s: string)
    ensures Escape(s) == EscapeOnePass(s)
  {
    if |s| > 0 {
      var x, rest := s[0], s[1..];
      assert s == [x] + rest;
      EscapeCharAppend([x], rest, '\\');
      var e1x, e1r := EscapeChar([x], '\\'), EscapeChar(rest, '\\');
      EscapeCharAppend(e1x, e1r, '`');
      var e2x, e2r := EscapeChar(e1x, '`'), EscapeChar(e1r, '`');
      EscapeCharAppend(e2x, e2r, '$');
      EscapeSingle(x);
      EscapeIsOnePass(rest);
    }
  }

  lemma {:induction false} UnescapeOnePass(s: string)
    ensures Unescape(EscapeOnePass(s)) == s
  {
    if |s| > 0 {
      var e := EscapeOnePass(s);
      var tail := EscapeOnePass(s[1..]);
      UnescapeOnePass(s[1..]);
      if IsSpecial(s[0]) {
        assert e == ['\\', s[0]] + tail;
        assert e[2..] == tail;
      } else {
        assert e == [s[0]] + tail;
        assert e[1..] == tail;
      }
    }
  }

  /** Unescaping the escaped text recovers the original text. */
  lemma EscapeRoundTrip(s: string)
    ensures Unescape(Escape(s)) == s
  {
    EscapeIsOnePass(s);
    UnescapeOnePass(s);
  }

  /** The escaped text is longer by one character for every `\`, `` ` `` and `$` of the input. */
  lemma {:induction false} EscapeLength(s: string)
    ensures |Escape(s)| == |s| + CountSpecial(s)
  {
    EscapeIsOnePass(s);
    OnePassLength(s);
  }

  lemma {:induction false} OnePassLength(s: string)
    ensures |EscapeOnePass(s)| == |s| + CountSpecial(s)
  {
    if |s| > 0 {
      OnePassLength(s[1..]);
    }
  }

  function Prepend(ch: char, r: Option<string>): Option<string> {
    if r.Some? then Some([ch] + r.value) else None
  }

  /**
   * The string value JavaScript gives a template literal whose body (the text
   * between the backticks) is `b`, for the bodies the model handles: raw
   * characters, the escapes `\\`, `` \` `` and `\$`, and the line-terminator
   * normalisation of section 12.9.6 of ECMA-262 (CR LF and lone CR read as LF).
   * `None` when the body is not one whole literal without substitutions: an
   * unescaped backtick closes the literal early, `${` opens a substitution;
   * any other escape sequence is also `None` (outside the model).
   */
  function Cook(b: string): Option<string>
    decreases |b|
  {
    if |b| == 0 then Some("")
    else if b[0] == '`' then None
    else if b[0] == '$' && |b| > 1 && b[1] == '{' then None
    else if b[0] == '\\' then
      if |b| > 1 && IsSpecial(b[1]) then Prepend(b[1], Cook(b[2..])) else None
    else if b[0] == '\r' then
      Prepend('\n', Cook(if |b| > 1 && b[1] == '\n' then b[2..] else b[1..]))
    else Prepend(b[0], Cook(b[1..]))
  }

  /**
   * The line-terminator normalisation of a template literal's value: CR LF
   * and a lone CR both become LF.
   */
  function NormaliseLineEnds(s: string): string
    decreases |s|
  {
    if |s| == 0 then ""
    else if s[0] == '\r' then
      "\n" + NormaliseLineEnds(if |s| > 1 && s[1] == '\n' then s[2..] else s[1..])
    else [s[0]] + NormaliseLineEnds(s[1..])
  }

  lemma {:induction false} CookOnePass(s: string)
    ensures Cook(EscapeOnePass(s)) == Some(NormaliseLineEnds(s))
    decreases |s|
  {
    if |s| > 0 {
      var e := EscapeOnePass(s);
      var tail := EscapeOnePass(s[1..]);
      if IsSpecial(s[0]) {
        CookOnePass(s[1..]);
        assert e == ['\\', s[0]] + tail;
        assert e[2..] == tail;
      } else if s[0] == '\r' && |s| > 1 && s[1] == '\n' {
        CookOnePass(s[2..]);
        assert tail == ['\n'] + EscapeOnePass(s[2..]);
        assert e == ['\r', '\n'] + EscapeOnePass(s[2..]);
        assert e[2..] == EscapeOnePass(s[2..]);
      } else {
        CookOnePass(s[1..]);
        assert e == [s[0]] + tail;
        assert e[1..] == tail;
        if s[0] == '\r' && |s| > 1 {
          assert tail[0] == (if IsSpecial(s[1]) then '\\' else s[1]);
        }
      }
    }
  }

  /** Text without CR is left as it is by the normalisation. */
  lemma {:induction false} NormaliseWithoutCr(s: string)
    requires forall k :: 0 <= k < |s| ==> s[k] != '\r'
    ensures NormaliseLineEnds(s) == s
    decreases |s|
  {
    if |s| > 0 {
      NormaliseWithoutCr(s[1..]);
      assert s == [s[0]] + s[1..];
    }
  }

  /**
   * Any text, escaped and written between backticks, is one template literal
   * whose value is that text with CR LF and lone CR read as LF: a carriage
   * return is not escaped, so the page never sees it.
   */
  lemma EmbeddedTextNormalisesLineEnds(s: string)
    ensures Cook(Escape(s)) == Some(NormaliseLineEnds(s))
  {
    EscapeIsOnePass(s);
    CookOnePass(s);
  }

  /**
   * Text without a carriage return, escaped and written between backticks,
   * is one template literal whose value is that text.
   */
  lemma EmbeddedTextSurvives(s: string)
    requires forall k :: 0 <= k < |s| ==> s[k] != '\r'
    ensures Cook(Escape(s)) == Some(s)
  {
    EmbeddedTextNormalisesLineEnds(s);
    NormaliseWithoutCr(s);
  }

  /** The order matters: doubling backslashes last would undo the backtick's escape. */
  lemma BackslashMustComeFirst()
    ensures Cook(EscapeChar(EscapeChar("`", '`'), '\\')) == None
  {
    assert EscapeChar("`", '`') == "\\`";
    assert EscapeChar("\\`", '\\') == "\\\\`" by {
      assert "\\`"[1..] == "`";
      assert EscapeChar("`", '\\') == "`";
    }
    assert "\\\\`"[2..] == "`";
  }
}
