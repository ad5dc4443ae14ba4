/** The string operations the ledger and environment formats are written in. */
module Text {
  /** The characters at which str.splitlines breaks a line; a carriage return swallows a line feed. */
  predicate IsSeparator(c: char) {
    || c == '\n' || c == '\r' || c == '\U{0B}' || c == '\U{0C}' || '\U{1C}' <= c <= '\U{1E}'
    || c == '\U{85}' || c == '\U{2028}' || c == '\U{2029}'
  }

  /** The characters str.strip removes. */
  predicate IsSpace(c: char) {
    || '\t' <= c <= '\r' || '\U{1C}' <= c <= ' ' || c == '\U{85}' || c == '\U{A0}' || c == '\U{1680}'
    || '\U{2000}' <= c <= '\U{200A}' || c == '\U{2028}' || c == '\U{2029}' || c == '\U{202F}' || c == '\U{205F}'
    || c == '\U{3000}'
  }

  /** The first position at which p holds, or the length. */
  function Find(s: string, p: char -> bool): (i: nat)
    ensures i <= |s|
    ensures forall j :: 0 <= j < i ==> !p(s[j])
    ensures i < |s| ==> p(s[i])
  {
    if s == [] || p(s[0]) then 0 else 1 + Find(s[1..], p)
  }

  predicate Free(s: string, p: char -> bool) {
    forall i :: 0 <= i < |s| ==> !p(s[i])
  }

  lemma FindIs(s: string, p: char -> bool, i: nat)
    requires i <= |s| && Free(s[..i], p) && (i < |s| ==> p(s[i]))
    ensures Find(s, p) == i
  {
    var found := Find(s, p);
    assert forall j :: 0 <= j < i ==> s[..i][j] == s[j];
  }

  /** How many bytes a text has in UTF-8. */
  function Utf8Length(s: string): nat {
    if s == [] then 0
    else
      var c := s[|s| - 1] as int;
      Utf8Length(s[..|s| - 1]) + (if c < 0x80 then 1 else if c < 0x800 then 2 else if c < 0x1_0000 then 3 else 4)
  }

  // ----- Stripping -----

  /** How many characters to strip on the left. */
  function Skip(s: string, p: char -> bool): (i: nat)
    ensures i <= |s| && (forall k :: 0 <= k < i ==> p(s[k])) && (i < |s| ==> !p(s[i]))
  {
    if s != [] && p(s[0]) then 1 + Skip(s[1..], p) else 0
  }

  /** Where stripping on the right stops. */
  function Keep(s: string, p: char -> bool): (j: nat)
    ensures j <= |s| && (forall k :: j <= k < |s| ==> p(s[k])) && (0 < j ==> !p(s[j - 1]))
  {
    if s != [] && p(s[|s| - 1]) then Keep(s[..|s| - 1], p) else |s|
  }

  /** Nothing at either end would be stripped. */
  predicate Trim(s: string, p: char -> bool) {
    s == [] || (!p(s[0]) && !p(s[|s| - 1]))
  }

  /** Only padding goes, and all of it at both ends. */
  function StripBy(s: string, p: char -> bool): (r: string)
    ensures Trim(r, p)
    ensures forall c :: c in r ==> c in s
  {
    var i, j := Skip(s, p), Keep(s, p);
    if i <= j then s[i..j] else []
  }

  function Strip(s: string): string {
    StripBy(s, IsSpace)
  }

  /** Stripping removes exactly the padding around a trimmed text. */
  lemma StripOf(left: string, s: string, right: string, p: char -> bool)
    requires forall i :: 0 <= i < |left| ==> p(left[i])
    requires forall i :: 0 <= i < |right| ==> p(right[i])
    requires s != [] && Trim(s, p)
    ensures StripBy(left + s + right, p) == s
  {
    var whole := left + s + right;
    var i, j := Skip(whole, p), Keep(whole, p);
    assert whole[|left|] == s[0] && whole[|left| + |s| - 1] == s[|s| - 1];
    assert forall k :: 0 <= k < |left| ==> whole[k] == left[k];
    assert forall k :: |left| + |s| <= k < |whole| ==> whole[k] == right[k - |left| - |s|];
    assert whole[i..j] == s;
  }

  lemma StripOfTrimmed(s: string, p: char -> bool)
    requires s != [] && Trim(s, p)
    ensures StripBy(s, p) == s
  {
    assert [] + s + [] == s;
    StripOf([], s, [], p);
  }

  // ----- Splitting -----

  function Split(s: string, p: char -> bool): (parts: seq<string>)
    ensures parts != []
    decreases |s|
  {
    var i := Find(s, p);
    if i == |s| then [s] else [s[..i]] + Split(s[i + 1..], p)
  }

  lemma SplitFirst(x: string, c: char, rest: string, p: char -> bool)
    requires Free(x, p) && p(c)
    ensures Split(x + [c] + rest, p) == [x] + Split(rest, p)
  {
    var s := x + [c] + rest;
    assert s[..|x|] == x && s[|x| + 1..] == rest;
    FindIs(s, p, |x|);
  }

  lemma SplitNone(x: string, p: char -> bool)
    requires Free(x, p)
    ensures Split(x, p) == [x]
  {
    assert x[..|x|] == x;
    FindIs(x, p, |x|);
  }

  predicate IsSlash(c: char) {
    c == '/'
  }

  /** The parts with a slash between each two. */
  function Join(parts: seq<string>): string
    requires parts != []
  {
    if |parts| == 1 then parts[0] else parts[0] + ['/'] + Join(parts[1..])
  }

  lemma {:induction false} SplitOfJoin(parts: seq<string>)
    requires parts != [] && forall i :: 0 <= i < |parts| ==> Free(parts[i], IsSlash)
    ensures Split(Join(parts), IsSlash) == parts
  {
    if |parts| == 1 {
      SplitNone(parts[0], IsSlash);
    } else {
      SplitOfJoin(parts[1..]);
      SplitFirst(parts[0], '/', Join(parts[1..]), IsSlash);
    }
  }

  /** str.splitlines. */
  function SplitLines(s: string): seq<string>
    decreases |s|
  {
    if s == [] then []
    else
      var i := Find(s, IsSeparator);
      if i == |s| then [s]
      else [s[..i]] + SplitLines(s[After(s, i)..])
  }

  function After(s: string, i: nat): (j: nat)
    requires i < |s|
    ensures i < j <= |s|
  {
    if s[i] == '\r' && i + 1 < |s| && s[i + 1] == '\n' then i + 2 else i + 1
  }

  predicate Ended(s: string) {
    s == [] || s[|s| - 1] == '\n'
  }

  /** Text that ends its last line can be split on its own. */
  lemma {:induction false} SplitLinesConcat(a: string, b: string)
    requires Ended(a)
    ensures SplitLines(a + b) == SplitLines(a) + SplitLines(b)
    decreases |a|
  {
    if a == [] {
      assert a + b == b;
    } else {
      var i := Find(a, IsSeparator);
      assert IsSeparator(a[|a| - 1]);
      assert i < |a|;
      LineStays(a, b, i);
      FindIs(a + b, IsSeparator, i);
      var rest := a[After(a, i)..];
      SplitLinesConcat(rest, b);
      Regroup(a[..i], SplitLines(rest), SplitLines(b));
    }
  }

  lemma LineStays(a: string, b: string, i: nat)
    requires Ended(a) && i < |a|
    ensures (a + b)[..i] == a[..i] && (a + b)[i] == a[i] && After(a + b, i) == After(a, i)
    ensures (a + b)[After(a, i)..] == a[After(a, i)..] + b && Ended(a[After(a, i)..])
  {
  }

  lemma Regroup(line: string, some: seq<string>, more: seq<string>)
    ensures [line] + (some + more) == ([line] + some) + more
  {
  }

  lemma SplitLinesOne(line: string)
    requires Free(line, IsSeparator)
    ensures SplitLines(line + "\n") == [line]
  {
    var s := line + "\n";
    assert s[..|line|] == line;
    FindIs(s, IsSeparator, |line|);
    assert s[|line| + 1..] == [];
  }

  /** A separator inside a line ends its first part there. */
  lemma SplitLinesFirst(line: string, i: nat)
    requires i < |line| && IsSeparator(line[i]) && Free(line[..i], IsSeparator)
    ensures SplitLines(line) != [] && SplitLines(line)[0] == line[..i]
  {
    FindIs(line, IsSeparator, i);
  }

  // ----- Numbers -----

  predicate IsDigit(c: char) {
    '0' <= c <= '9'
  }

  function Digit(n: nat): (c: char)
    requires n < 10
    ensures IsDigit(c) && Value(c) == n
  {
    ('0' as int + n) as char
  }

  function Value(c: char): (n: nat)
    requires IsDigit(c)
    ensures n < 10
  {
    c as int - '0' as int
  }

  predicate AllDigits(s: string) {
    s != [] && forall i :: 0 <= i < |s| ==> IsDigit(s[i])
  }

  function Print(n: nat): (s: string)
    ensures AllDigits(s)
  {
    if n < 10 then [Digit(n)] else Print(n / 10) + [Digit(n % 10)]
  }

  function Number(s: string): nat
    requires forall i :: 0 <= i < |s| ==> IsDigit(s[i])
  {
    if s == [] then 0 else Number(s[..|s| - 1]) * 10 + Value(s[|s| - 1])
  }

  lemma {:induction false} NumberOfPrint(n: nat)
    ensures Number(Print(n)) == n
  {
    if n < 10 {
      assert Number([Digit(n)][..0]) == 0;
    } else {
      NumberOfPrint(n / 10);
      assert Print(n)[..|Print(n)| - 1] == Print(n / 10);
    }
  }
}
