/** The first of the elements that qualify, in the order of a list and in a strict order of their own. */
module Selection {
  /** The first that qualifies, or the length of the list. */
  function First<T>(s: seq<T>, hit: T -> bool): (i: nat)
    ensures i <= |s| && (i < |s| ==> hit(s[i]))
    ensures forall j :: 0 <= j < i ==> !hit(s[j])
  {
    if s == [] || hit(s[0]) then 0 else 1 + First(s[1..], hit)
  }

  /** The least that qualifies, or the length of the list. */
  function Least<T>(s: seq<T>, hit: T -> bool, before: (T, T) -> bool): (k: nat)
    ensures k <= |s| && (k < |s| ==> hit(s[k]))
    ensures k == |s| ==> forall j :: 0 <= j < |s| ==> !hit(s[j])
  {
    if s == [] then 0
    else
      var k := Least(s[1..], hit, before);
      if hit(s[0]) && (k == |s| - 1 || before(s[0], s[k + 1])) then 0 else k + 1
  }

  /** Transitive and never both ways round. */
  ghost predicate Strict<T(!new)>(before: (T, T) -> bool) {
    && (forall a, b, c :: before(a, b) && before(b, c) ==> before(a, c))
    && (forall a, b :: before(a, b) ==> !before(b, a))
  }

  predicate Comparable<T>(s: seq<T>, before: (T, T) -> bool) {
    forall i, j :: 0 <= i < j < |s| ==> before(s[i], s[j]) || before(s[j], s[i])
  }

  predicate Chain<T>(s: seq<T>, before: (T, T) -> bool) {
    forall i, j :: 0 <= i < j < |s| ==> before(s[i], s[j])
  }

  lemma {:induction false} LeastIsLeast<T(!new)>(s: seq<T>, hit: T -> bool, before: (T, T) -> bool, j: nat)
    requires Strict(before) && Comparable(s, before) && j < |s| && hit(s[j])
    ensures var k := Least(s, hit, before);
      k < |s| && (j == k || before(s[k], s[j]))
  {
    if j > 0 { LeastIsLeast(s[1..], hit, before, j - 1); }
  }

  lemma FirstMeetsLeast<T(!new)>(s: seq<T>, chain: seq<T>, hit: T -> bool, before: (T, T) -> bool, j: nat, l: nat)
    requires Strict(before) && Comparable(s, before) && Chain(chain, before) && j < |s| && l < |chain|
    requires Least(s, hit, before) < |s| && chain[l] == s[Least(s, hit, before)]
    requires First(chain, hit) < |chain| && s[j] == chain[First(chain, hit)]
    ensures chain[First(chain, hit)] == s[Least(s, hit, before)]
  {
    LeastIsLeast(s, hit, before, j);
    assert First(chain, hit) <= l;
  }

  lemma SomeHit<T>(s: seq<T>, hit: T -> bool, before: (T, T) -> bool, x: T)
    requires x in s && hit(x)
    ensures First(s, hit) < |s| && Least(s, hit, before) < |s|
  {
    var j :| 0 <= j < |s| && s[j] == x;
  }

  /** The first that qualifies in an arrangement as a chain is the least that qualifies in the list. */
  lemma FirstOfChain<T(!new)>(s: seq<T>, chain: seq<T>, hit: T -> bool, before: (T, T) -> bool)
    requires Strict(before) && Comparable(s, before) && Chain(chain, before) && forall x :: x in s <==> x in chain
    ensures var f, k := First(chain, hit), Least(s, hit, before);
      (f < |chain| <==> k < |s|) && (f < |chain| ==> chain[f] == s[k])
  {
    var f, k := First(chain, hit), Least(s, hit, before);
    if f < |chain| { SomeHit(s, hit, before, chain[f]); }
    if k < |s| {
      SomeHit(chain, hit, before, s[k]);
      var l :| 0 <= l < |chain| && chain[l] == s[k];
      var j :| 0 <= j < |s| && s[j] == chain[f];
      FirstMeetsLeast(s, chain, hit, before, j, l);
    }
  }

  /** Lists that qualify alike, entry by entry, have their first in the same place. */
  lemma {:induction false} FirstAlike<T, U>(s: seq<T>, t: seq<U>, hit: T -> bool, hit': U -> bool)
    requires |s| == |t| && forall i :: 0 <= i < |s| ==> hit(s[i]) == hit'(t[i])
    ensures First(s, hit) == First(t, hit')
  {
    if s != [] { FirstAlike(s[1..], t[1..], hit, hit'); }
  }

  /** When all pairs that the order puts the other way round agree, the first and the least that qualify agree. */
  lemma FirstAgreesWithLeast<T(!new), U>(s: seq<T>, hit: T -> bool, before: (T, T) -> bool, says: T -> U)
    requires Strict(before) && Comparable(s, before)
    requires forall i, j :: 0 <= i < j < |s| && before(s[j], s[i]) ==> says(s[i]) == says(s[j])
    ensures var i, k := First(s, hit), Least(s, hit, before);
      i < |s| && k < |s| ==> says(s[i]) == says(s[k])
  {
    var i := First(s, hit);
    if i < |s| { LeastIsLeast(s, hit, before, i); }
  }
}
