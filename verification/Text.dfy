/** Case mapping and ordering of text, on ASCII letters and code points. */
module Text {

  datatype Option<+T> = None | Some(value: T)

  function UpperChar(c: char): char {
    if 'a' <= c <= 'z' then (c as int - 32) as char else c
  }

  function LowerChar(c: char): char {
    if 'A' <= c <= 'Z' then (c as int + 32) as char else c
  }

  function Upper(s: string): (r: string)
    ensures |r| == |s| && forall i :: 0 <= i < |s| ==> r[i] == UpperChar(s[i])
  {
    seq(|s|, i requires 0 <= i < |s| => UpperChar(s[i]))
  }

  function Lower(s: string): (r: string)
    ensures |r| == |s| && forall i :: 0 <= i < |s| ==> r[i] == LowerChar(s[i])
  {
    seq(|s|, i requires 0 <= i < |s| => LowerChar(s[i]))
  }

  predicate EqualFold(a: string, b: string) {
    Lower(a) == Lower(b)
  }

  lemma UpperUpper(s: string)
    ensures Upper(Upper(s)) == Upper(s)
  {}

  lemma LowerUpper(s: string)
    ensures Lower(Upper(s)) == Lower(s)
  {}

  lemma UpperLower(s: string)
    ensures Upper(Lower(s)) == Upper(s)
  {}

  lemma FoldIsUpper(a: string, b: string)
    ensures EqualFold(a, b) <==> Upper(a) == Upper(b)
  {
    UpperLower(a);
    UpperLower(b);
    LowerUpper(a);
    LowerUpper(b);
  }

  /** What strings.TrimSpace strips: Unicode white space. */
  predicate IsSpace(c: char) {
    var n := c as int;
    || 9 <= n <= 13 || n == 0x20 || n == 0x85 || n == 0xA0 || n == 0x1680 || 0x2000 <= n <= 0x200A
    || n == 0x2028 || n == 0x2029 || n == 0x202F || n == 0x205F || n == 0x3000
  }

  function TrimLeft(s: string): string {
    if s != [] && IsSpace(s[0]) then TrimLeft(s[1..]) else s
  }

  function TrimRight(s: string): string {
    if s != [] && IsSpace(s[|s| - 1]) then TrimRight(s[..|s| - 1]) else s
  }

  function Trim(s: string): string {
    TrimRight(TrimLeft(s))
  }

  /** Code-point order: Go's string `<` and SQLite's BINARY collation. */
  predicate Less(a: string, b: string) {
    b != [] && (a == [] || a[0] < b[0] || (a[0] == b[0] && Less(a[1..], b[1..])))
  }

  lemma LessIrreflexive(a: string)
    ensures !Less(a, a)
  {}

  lemma LessTotal(a: string, b: string)
    ensures a == b || Less(a, b) || Less(b, a)
  {
    if a != [] && b != [] && a[0] == b[0] {
      LessTotal(a[1..], b[1..]);
      assert a == [a[0]] + a[1..] && b == [b[0]] + b[1..];
    }
  }

  lemma LessTransitive(a: string, b: string, c: string)
    requires Less(a, b) && Less(b, c)
    ensures Less(a, c)
  {
    if a != [] && a[0] == b[0] && b[0] == c[0] {
      LessTransitive(a[1..], b[1..], c[1..]);
    }
  }

  // ---------- what these functions mean ----------

  const CAPITALS := "ABCDEFGHIJKLMNOPQRSTUVWXYZ"
  const SMALL := "abcdefghijklmnopqrstuvwxyz"

  /** Case mapping exchanges the letters of the two alphabets and leaves every other character alone. */
  lemma CaseOfLetters()
    ensures |CAPITALS| == |SMALL| == 26
    ensures forall i :: 0 <= i < 26 ==> UpperChar(SMALL[i]) == CAPITALS[i] && LowerChar(CAPITALS[i]) == SMALL[i]
    ensures forall c :: c !in SMALL ==> UpperChar(c) == c
    ensures forall c :: c !in CAPITALS ==> LowerChar(c) == c
  {
    forall c: char | 'a' <= c <= 'z' ensures c in SMALL { assert SMALL[c as int - 'a' as int] == c; }
    forall c: char | 'A' <= c <= 'Z' ensures c in CAPITALS { assert CAPITALS[c as int - 'A' as int] == c; }
  }

  /** The same character, or one letter in both cases. */
  predicate SameLetter(c: char, d: char) {
    || c == d
    || ('A' <= c <= 'Z' && d as int == c as int + 32)
    || ('A' <= d <= 'Z' && c as int == d as int + 32)
  }

  lemma FoldMeans(a: string, b: string)
    ensures EqualFold(a, b) <==> |a| == |b| && forall i :: 0 <= i < |a| ==> SameLetter(a[i], b[i])
  {
    if EqualFold(a, b) {
      forall i | 0 <= i < |a| ensures SameLetter(a[i], b[i]) { assert Lower(a)[i] == Lower(b)[i]; }
    }
  }

  /** The texts part at k: the first ends there, or has the smaller character. */
  predicate PartAt(a: string, b: string, k: nat) {
    && k < |b| && k <= |a| && (forall i :: 0 <= i < k ==> a[i] == b[i])
    && (k < |a| ==> a[k] < b[k])
  }

  lemma {:induction false} LessMeans(a: string, b: string)
    ensures Less(a, b) <==> exists k: nat :: PartAt(a, b, k)
  {
    if a == [] || b == [] || a[0] != b[0] {
      if Less(a, b) { assert PartAt(a, b, 0); }
    } else {
      LessMeans(a[1..], b[1..]);
      if Less(a, b) {
        var k: nat :| PartAt(a[1..], b[1..], k);
        assert forall i :: 1 <= i < k + 1 ==> a[i] == a[1..][i - 1] && b[i] == b[1..][i - 1];
        assert PartAt(a, b, k + 1);
      }
      if k: nat :| PartAt(a, b, k) {
        assert PartAt(a[1..], b[1..], k - 1);
      }
    }
  }
}
