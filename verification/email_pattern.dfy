/**
 * The e-mail pattern of the add-user form, as a language: a local part
 * (dot-separated atoms, or anything quoted), an `@`, and a domain (a
 * bracketed dotted quad, or dot-terminated labels followed by a top-level
 * name of at least two letters), anchored at both ends.
 */
module EmailPattern {
  import opened JsValues
  import opened Decimal

  /** The characters an unquoted atom may hold: anything but `<>()[]\.,;:@"` and white space. */
  predicate AtomChar(c: char) {
    !(c in "<>()[]\\.,;:@\"") && !IsWhitespace(c)
  }

  predicate IsAsciiLetter(c: char) {
    'a' <= c <= 'z' || 'A' <= c <= 'Z'
  }

  predicate LabelChar(c: char) {
    IsAsciiLetter(c) || IsDigit(c) || c == '-'
  }

  /** The first index of `c` in `s`, or -1. */
  function IndexOf(s: string, c: char): (i: int)
    ensures -1 <= i < |s|
    ensures i >= 0 ==> s[i] == c
    ensures forall j :: 0 <= j < |s| && (i == -1 || j < i) ==> s[j] != c
  {
    if |s| == 0 then -1
    else if s[0] == c then 0
    else
      var i := IndexOf(s[1..], c);
      if i == -1 then -1 else i + 1
  }

  /** The last index of `c` in `s`, or -1. */
  function LastIndexOf(s: string, c: char): (i: int)
    ensures -1 <= i < |s|
    ensures i >= 0 ==> s[i] == c
    ensures forall j :: 0 <= j < |s| && i < j ==> s[j] != c
  {
    if |s| == 0 then -1
    else if s[|s| - 1] == c then |s| - 1
    else LastIndexOf(s[..|s| - 1], c)
  }

  // ---------------------------------------------------------------------------
  // Local part: `[^<>()[\]\\.,;:\s@"]+(\.[^<>()[\]\\.,;:\s@"]+)*` or `".+"`

  predicate Atom(s: string) {
    |s| > 0 && forall k :: 0 <= k < |s| ==> AtomChar(s[k])
  }

  /** One atom, then any number of `.atom`. */
  predicate DotAtom(s: string)
    decreases |s|
  {
    var i := IndexOf(s, '.');
    if i < 0 then Atom(s) else Atom(s[..i]) && DotAtom(s[i + 1..])
  }

  /** A double quote, at least one character that is not a line terminator, a double quote. */
  predicate QuotedLocal(s: string) {
    && |s| >= 3 && s[0] == '"' && s[|s| - 1] == '"'
    && forall k :: 1 <= k < |s| - 1 ==> !IsLineTerminator(s[k])
  }

  predicate LocalPart(s: string) {
    DotAtom(s) || QuotedLocal(s)
  }

  // ---------------------------------------------------------------------------
  // Domain: `\[[0-9]{1,3}(\.[0-9]{1,3}){3}\]` or `([a-zA-Z\-0-9]+\.)+[a-zA-Z]{2,}`

  /** One to three ASCII digits. */
  predicate DigitGroup(s: string) {
    1 <= |s| <= 3 && AllDigits(s)
  }

  /** `n` digit groups separated by dots. */
  predicate DigitGroups(s: string, n: nat)
    requires n >= 1
    decreases n
  {
    var i := IndexOf(s, '.');
    if n == 1 then DigitGroup(s) else i >= 0 && DigitGroup(s[..i]) && DigitGroups(s[i + 1..], n - 1)
  }

  predicate DottedQuad(s: string) {
    |s| >= 2 && s[0] == '[' && s[|s| - 1] == ']' && DigitGroups(s[1..|s| - 1], 4)
  }

  predicate Label(s: string) {
    |s| > 0 && forall k :: 0 <= k < |s| ==> LabelChar(s[k])
  }

  predicate TopLevel(s: string) {
    |s| >= 2 && forall k :: 0 <= k < |s| ==> IsAsciiLetter(s[k])
  }

  /** One or more `label.`, then a top-level name. */
  predicate HostName(s: string)
    decreases |s|
  {
    var i := IndexOf(s, '.');
    i >= 0 && Label(s[..i]) && (TopLevel(s[i + 1..]) || HostName(s[i + 1..]))
  }

  predicate Domain(s: string) {
    DottedQuad(s) || HostName(s)
  }

  // ---------------------------------------------------------------------------
  // The whole pattern

  /** The anchored pattern: some `@` of `s` splits it into a local part and a domain. */
  ghost predicate Matches(s: string) {
    exists p :: 0 <= p < |s| && s[p] == '@' && LocalPart(s[..p]) && Domain(s[p + 1..])
  }

  /**
   * A decision procedure for the pattern: split at the last `@`. A quoted
   * local part may itself hold `@`, but a domain never does, so the last
   * `@` is the only split that can succeed.
   */
  function IsEmail(s: string): (r: bool)
    ensures r <==> Matches(s)
  {
    var p := LastIndexOf(s, '@');
    if p >= 0 && LocalPart(s[..p]) && Domain(s[p + 1..]) then true
    else
      NoOtherSplit(s, p);
      false
  }

  lemma NoOtherSplit(s: string, p: int)
    requires p == LastIndexOf(s, '@')
    ensures forall q :: 0 <= q < |s| && s[q] == '@' && q != p ==> !Domain(s[q + 1..])
  {
    forall q | 0 <= q < |s| && s[q] == '@' && q != p
      ensures !Domain(s[q + 1..])
    {
      assert p > q;
      var d := s[q + 1..];
      assert d[p - q - 1] == '@';
      DomainHasNoAt(d);
    }
  }

  lemma DomainHasNoAt(d: string)
    ensures Domain(d) ==> forall k :: 0 <= k < |d| ==> d[k] != '@'
  {
    if DottedQuad(d) {
      DigitGroupsHaveNoAt(d[1..|d| - 1], 4);
      assert forall k :: 1 <= k < |d| - 1 ==> d[k] == d[1..|d| - 1][k - 1];
    }
    if HostName(d) {
      HostNameHasNoAt(d);
    }
  }

  lemma {:induction false} DigitGroupsHaveNoAt(s: string, n: nat)
    requires n >= 1
    ensures DigitGroups(s, n) ==> forall k :: 0 <= k < |s| ==> s[k] != '@'
    decreases n
  {
    var i := IndexOf(s, '.');
    if n > 1 && DigitGroups(s, n) {
      DigitGroupsHaveNoAt(s[i + 1..], n - 1);
      assert forall k :: i < k < |s| ==> s[k] == s[i + 1..][k - i - 1];
      assert forall k :: 0 <= k < i ==> s[k] == s[..i][k];
    }
  }

  lemma {:induction false} HostNameHasNoAt(s: string)
    ensures HostName(s) ==> forall k :: 0 <= k < |s| ==> s[k] != '@'
    decreases |s|
  {
    var i := IndexOf(s, '.');
    if HostName(s) {
      HostNameHasNoAt(s[i + 1..]);
      assert forall k :: i < k < |s| ==> s[k] == s[i + 1..][k - i - 1];
      assert forall k :: 0 <= k < i ==> s[k] == s[..i][k];
    }
  }

  // ---------------------------------------------------------------------------
  // The shape of a dot-atom

  /**
   * Non-empty, only atom characters and dots, no dot at either end and no
   * two dots in a row.
   */
  predicate DotSeparated(s: string) {
    && |s| > 0 && s[0] != '.' && s[|s| - 1] != '.'
    && (forall k :: 0 <= k < |s| ==> AtomChar(s[k]) || s[k] == '.')
    && (forall k :: 0 <= k < |s| - 1 ==> s[k] == '.' ==> s[k + 1] != '.')
  }

  /** An unquoted local part is exactly a dot-separated run of atom characters. */
  lemma DotAtomShape(s: string)
    ensures DotAtom(s) <==> DotSeparated(s)
  {
    if DotAtom(s) {
      DotAtomIsDotSeparated(s);
    }
    if DotSeparated(s) {
      DotSeparatedIsDotAtom(s);
    }
  }

  lemma {:induction false} DotAtomIsDotSeparated(s: string)
    requires DotAtom(s)
    ensures DotSeparated(s)
    decreases |s|
  {
    var i := IndexOf(s, '.');
    if i >= 0 {
      var head, rest := s[..i], s[i + 1..];
      DotAtomIsDotSeparated(rest);
      assert forall k :: 0 <= k < i ==> s[k] == head[k];
      assert forall k :: i < k < |s| ==> s[k] == rest[k - i - 1];
      assert s[0] == head[0] && s[i - 1] == head[i - 1];
      assert s[|s| - 1] == rest[|rest| - 1] && s[i + 1] == rest[0];
      forall k | 0 <= k < |s| - 1 && s[k] == '.'
        ensures s[k + 1] != '.'
      {
        assert k >= i;
        if k > i {
          assert rest[k - i - 1] == '.';
        }
      }
    }
  }

  lemma {:induction false} DotSeparatedIsDotAtom(s: string)
    requires DotSeparated(s)
    ensures DotAtom(s)
    decreases |s|
  {
    var i := IndexOf(s, '.');
    if i >= 0 {
      var head, rest := s[..i], s[i + 1..];
      assert 0 < i < |s| - 1;
      assert forall k :: 0 <= k < |head| ==> head[k] == s[k];
      assert forall k :: 0 <= k < |rest| ==> rest[k] == s[k + i + 1];
      assert Atom(head);
      assert rest[0] == s[i + 1] && rest[|rest| - 1] == s[|s| - 1];
      assert DotSeparated(rest);
      DotSeparatedIsDotAtom(rest);
    }
  }
}
