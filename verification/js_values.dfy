/**
 * JavaScript values and string operations that the web pages rely on:
 * `String(v)`, truthiness, and `String.prototype.trim`.
 */
module JsValues {

  /** A form field or component-state value: `null`, `undefined` or a string. */
  datatype JsValue = Null | Undefined | Str(s: string)

  /** `String(v)`. */
  function ToJsString(v: JsValue): string {
    match v
    case Null => "null"
    case Undefined => "undefined"
    case Str(s) => s
  }

  /** Whether `v` is truthy when used as a condition: only non-empty strings are. */
  predicate Truthy(v: JsValue) {
    v.Str? && v.s != ""
  }

  /**
   * The characters ECMAScript classifies as WhiteSpace or LineTerminator:
   * exactly those `trim` strips and the regular-expression class `\s` matches.
   */
  predicate IsWhitespace(c: char) {
    || c == '\t' || c == '\n' || c == '\U{B}' || c == '\U{C}' || c == '\r' || c == ' '
    || c == '\U{A0}' || c == '\U{1680}' || ('\U{2000}' <= c <= '\U{200A}')
    || c == '\U{2028}' || c == '\U{2029}' || c == '\U{202F}' || c == '\U{205F}'
    || c == '\U{3000}' || c == '\U{FEFF}'
  }

  /** The line terminators, which the regular-expression `.` does not match. */
  predicate IsLineTerminator(c: char) {
    c == '\n' || c == '\r' || c == '\U{2028}' || c == '\U{2029}'
  }

  predicate AllWhitespace(s: string) {
    forall i :: 0 <= i < |s| ==> IsWhitespace(s[i])
  }

  /** How many whitespace characters `s` starts with. */
  function LeadingWhitespace(s: string): (n: nat)
    ensures n <= |s|
    ensures forall i :: 0 <= i < n ==> IsWhitespace(s[i])
    ensures n < |s| ==> !IsWhitespace(s[n])
  {
    if |s| > 0 && IsWhitespace(s[0]) then
      var m := LeadingWhitespace(s[1..]);
      assert forall i :: 1 <= i < m + 1 ==> s[i] == s[1..][i - 1];
      m + 1
    else
      0
  }

  /** `s.trimStart()`: the suffix of `s` left after dropping leading whitespace. */
  function TrimStart(s: string): (r: string)
    ensures |r| <= |s| && r == s[|s| - |r|..]
    ensures AllWhitespace(s[..|s| - |r|])
    ensures r == [] || !IsWhitespace(r[0])
    ensures r == [] <==> AllWhitespace(s)
  {
    var n := LeadingWhitespace(s);
    assert forall i :: 0 <= i < n ==> s[..n][i] == s[i];
    s[n..]
  }

  /** Whitespace in front of a string adds to its leading whitespace. */
  lemma {:induction false} LeadingWhitespaceSkip(w: string, s: string)
    requires AllWhitespace(w)
    ensures LeadingWhitespace(w + s) == |w| + LeadingWhitespace(s)
  {
    if w != [] {
      assert (w + s)[0] == w[0];
      assert (w + s)[1..] == w[1..] + s;
      LeadingWhitespaceSkip(w[1..], s);
    } else {
      assert w + s == s;
    }
  }

  /** Text after a string that is not all whitespace does not change its leading whitespace. */
  lemma {:induction false} LeadingWhitespacePrefix(s: string, b: string)
    requires !AllWhitespace(s)
    ensures LeadingWhitespace(s + b) == LeadingWhitespace(s)
  {
    assert s != [];
    assert (s + b)[0] == s[0];
    if IsWhitespace(s[0]) {
      assert (s + b)[1..] == s[1..] + b;
      AllWhitespaceTail(s);
      LeadingWhitespacePrefix(s[1..], b);
    }
  }

  /** `s.trimEnd()`: the prefix of `s` left after dropping trailing whitespace. */
  function TrimEnd(s: string): (r: string)
    ensures |r| <= |s| && r == s[..|r|]
    ensures AllWhitespace(s[|r|..])
    ensures r == [] || !IsWhitespace(r[|r| - 1])
    ensures r == [] <==> AllWhitespace(s)
  {
    if |s| > 0 && IsWhitespace(s[|s| - 1]) then
      var s' := s[..|s| - 1];
      var r := TrimEnd(s');
      assert s[|r|..] == s'[|r|..] + [s[|s| - 1]];
      assert AllWhitespace(s') ==> AllWhitespace(s) by {
        if AllWhitespace(s') {
          forall i | 0 <= i < |s|
            ensures IsWhitespace(s[i])
          {
            if i < |s| - 1 {
              assert s[i] == s'[i];
            }
          }
        }
      }
      r
    else
      s
  }

  /**
   * `s.trim()`: the part of `s` between its leading and its trailing
   * whitespace.
   */
  function Trim(s: string): (r: string)
    ensures var i := LeadingWhitespace(s);
      && i + |r| <= |s|
      && r == s[i..i + |r|]
      && AllWhitespace(s[..i])
      && AllWhitespace(s[i + |r|..])
    ensures r == [] <==> AllWhitespace(s)
    ensures r != [] ==> !IsWhitespace(r[0]) && !IsWhitespace(r[|r| - 1])
  {
    var i := LeadingWhitespace(s);
    var t := TrimStart(s);
    assert t == s[i..];
    var r := TrimEnd(t);
    assert r == s[i..i + |r|];
    assert t[|r|..] == s[i + |r|..];
    assert r != [] ==> r[0] == t[0];
    r
  }

  /** A string that starts with whitespace is all whitespace exactly when its tail is. */
  lemma AllWhitespaceTail(s: string)
    requires s != [] && IsWhitespace(s[0])
    ensures AllWhitespace(s) <==> AllWhitespace(s[1..])
  {
    if AllWhitespace(s[1..]) {
      forall i | 1 <= i < |s|
        ensures IsWhitespace(s[i])
      {
        assert s[i] == s[1..][i - 1];
      }
    }
  }

  /** Whitespace in front of a string does not survive `trimStart`. */
  lemma TrimStartSkipsWhitespace(w: string, s: string)
    requires AllWhitespace(w)
    ensures TrimStart(w + s) == TrimStart(s)
  {
    LeadingWhitespaceSkip(w, s);
    var n := LeadingWhitespace(s);
    assert (w + s)[|w| + n..] == s[n..];
  }

  /** Whitespace after a string does not survive `trimEnd`. */
  lemma {:induction false} TrimEndSkipsWhitespace(s: string, w: string)
    requires AllWhitespace(w)
    ensures TrimEnd(s + w) == TrimEnd(s)
  {
    if w != [] {
      var w' := w[..|w| - 1];
      assert (s + w)[..|s + w| - 1] == s + w';
      TrimEndSkipsWhitespace(s, w');
    } else {
      assert s + w == s;
    }
  }

  /** Text appended to a string that has non-whitespace survives `trimStart` untouched. */
  lemma TrimStartAppend(s: string, b: string)
    ensures TrimStart(s + b) == if AllWhitespace(s) then TrimStart(b) else TrimStart(s) + b
  {
    if AllWhitespace(s) {
      TrimStartSkipsWhitespace(s, b);
    } else {
      LeadingWhitespacePrefix(s, b);
      var n := LeadingWhitespace(s);
      assert (s + b)[n..] == s[n..] + b;
    }
  }

  /**
   * Surrounding whitespace never changes the result of `trim`: a value
   * typed with extra blanks around it trims to the same string.
   */
  lemma TrimIgnoresSurroundingWhitespace(a: string, s: string, b: string)
    requires AllWhitespace(a) && AllWhitespace(b)
    ensures Trim(a + s + b) == Trim(s)
  {
    assert a + s + b == a + (s + b);
    TrimStartSkipsWhitespace(a, s + b);
    TrimStartAppend(s, b);
    if AllWhitespace(s) {
      assert TrimStart(b) == [];
      assert TrimStart(s) == [];
    } else {
      TrimEndSkipsWhitespace(TrimStart(s), b);
    }
  }
}
