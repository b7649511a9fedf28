/** The bounded least-recently-used cache of tenant policies (policy/registry.go: getCached, insert), on values. */
module LruSpec {
  import opened Text

  datatype Slot<+V> = Slot(tenant: int, val: V)

  /** Tenants front to back. */
  function Tenants<V>(s: seq<Slot<V>>): seq<int> {
    seq(|s|, i requires 0 <= i < |s| => s[i].tenant)
  }

  /** Position of a tenant, |s| when it is absent. */
  function Find<V>(s: seq<Slot<V>>, t: int): (k: nat)
    ensures k <= |s|
    ensures k < |s| ==> s[k].tenant == t
    ensures forall i :: 0 <= i < k ==> s[i].tenant != t
  {
    if s == [] || s[0].tenant == t then 0 else 1 + Find(s[1..], t)
  }

  predicate Has<V>(s: seq<Slot<V>>, t: int) {
    Find(s, t) < |s|
  }

  function Without<V>(s: seq<V>, k: nat): seq<V>
    requires k < |s|
  {
    s[..k] + s[k + 1..]
  }

  /** Where the element that ends up at m comes from, when the one at k moves to the front. */
  function From(k: nat, m: nat): nat {
    if m == 0 then k else if m <= k then m - 1 else m
  }

  lemma FrontSlots<V>(s: seq<V>, k: nat, x: V)
    requires k < |s|
    ensures var moved := [x] + Without(s, k);
      |moved| == |s| && moved[0] == x && forall m :: 1 <= m < |s| ==> moved[m] == s[From(k, m)]
  {}

  /** getCached: a hit moves the entry to the front, a miss changes nothing. */
  function Touch<V>(s: seq<Slot<V>>, t: int): seq<Slot<V>> {
    if Has(s, t) then [s[Find(s, t)]] + Without(s, Find(s, t)) else s
  }

  /** insert: overwrite and move to the front, or push to the front and evict from the back. */
  function Put<V>(s: seq<Slot<V>>, t: int, v: V, cap: nat): seq<Slot<V>> {
    if Has(s, t) then [Slot(t, v)] + Without(s, Find(s, t))
    else Truncate([Slot(t, v)] + s, cap)
  }

  function Truncate<V>(s: seq<V>, cap: nat): seq<V> {
    if |s| <= cap then s else s[..cap]
  }

  predicate Distinct<V>(s: seq<Slot<V>>) {
    forall i, j :: 0 <= i < j < |s| ==> s[i].tenant != s[j].tenant
  }

  // ---------- whole runs ----------

  datatype Op<+V> = Get(tenant: int) | Insert(tenant: int, val: V)

  function Apply<V>(s: seq<Slot<V>>, op: Op<V>, cap: nat): seq<Slot<V>> {
    match op
    case Get(t) => Touch(s, t)
    case Insert(t, v) => Put(s, t, v, cap)
  }

  /** The cache after a history of operations, oldest first, starting empty. */
  function Run<V>(ops: seq<Op<V>>, cap: nat): seq<Slot<V>> {
    if ops == [] then [] else Apply(Run(ops[..|ops| - 1], cap), ops[|ops| - 1], cap)
  }

  /** The tenants touched by the hits and the inserts of a history, latest first. */
  function Touched<V>(ops: seq<Op<V>>, cap: nat): seq<int> {
    if ops == [] then []
    else
      var before, op := ops[..|ops| - 1], ops[|ops| - 1];
      (if op.Insert? || Has(Run(before, cap), op.tenant) then [op.tenant] else []) + Touched(before, cap)
  }

  function Remove(ts: seq<int>, t: int): seq<int> {
    if ts == [] then []
    else if ts[0] == t then Remove(ts[1..], t)
    else [ts[0]] + Remove(ts[1..], t)
  }

  /** The distinct tenants of a list, in order of first appearance. */
  function Recent(ts: seq<int>): seq<int> {
    if ts == [] then [] else [ts[0]] + Remove(Recent(ts[1..]), ts[0])
  }

  predicate NoDuplicates(ts: seq<int>) {
    forall i, j :: 0 <= i < j < |ts| ==> ts[i] != ts[j]
  }

  lemma {:induction false} RemoveMembers(ts: seq<int>, t: int)
    ensures forall x :: x in Remove(ts, t) <==> x in ts && x != t
  {
    if ts != [] {
      RemoveMembers(ts[1..], t);
      assert forall x :: x in ts <==> x == ts[0] || x in ts[1..];
    }
  }

  lemma {:induction false} RemoveAbsent(ts: seq<int>, t: int)
    requires t !in ts
    ensures Remove(ts, t) == ts
  {
    if ts != [] { RemoveAbsent(ts[1..], t); }
  }

  lemma {:induction false} RemoveDistinct(ts: seq<int>, t: int)
    requires NoDuplicates(ts)
    ensures NoDuplicates(Remove(ts, t))
  {
    if ts != [] {
      RemoveDistinct(ts[1..], t);
      RemoveMembers(ts[1..], t);
      assert ts[0] !in ts[1..];
    }
  }

  lemma {:induction false} RecentDistinct(ts: seq<int>)
    ensures NoDuplicates(Recent(ts)) && forall x :: x in Recent(ts) <==> x in ts
  {
    if ts != [] {
      RecentDistinct(ts[1..]);
      var rest := Remove(Recent(ts[1..]), ts[0]);
      RemoveDistinct(Recent(ts[1..]), ts[0]);
      RemoveMembers(Recent(ts[1..]), ts[0]);
      assert ts[0] !in rest;
      assert forall x :: x in ts <==> x == ts[0] || x in ts[1..];
    }
  }

  /** Removing the element at k of a list without duplicates. */
  lemma {:induction false} RemoveAt(ts: seq<int>, k: nat)
    requires NoDuplicates(ts) && k < |ts|
    ensures Remove(ts, ts[k]) == Without(ts, k)
  {
    if k == 0 {
      RemoveAbsent(ts[1..], ts[0]);
    } else {
      RemoveAt(ts[1..], k - 1);
      assert ts[1..][k - 1] == ts[k];
      assert Without(ts, k) == [ts[0]] + Without(ts[1..], k - 1);
    }
  }

  /** Moving t to the front and cutting to cap: the same before and after the cut. */
  lemma FrontOfTruncated(ts: seq<int>, t: int, cap: nat)
    requires NoDuplicates(ts) && cap > 0
    ensures var s := Truncate(ts, cap);
      Truncate([t] + Remove(ts, t), cap) ==
      if t in s then [t] + Remove(s, t) else Truncate([t] + s, cap)
  {
    if t in ts {
      var k :| 0 <= k < |ts| && ts[k] == t;
      FrontOfPresent(ts, k, cap);
    } else {
      RemoveAbsent(ts, t);
    }
  }

  lemma FrontOfPresent(ts: seq<int>, k: nat, cap: nat)
    requires NoDuplicates(ts) && cap > 0 && k < |ts|
    ensures var s, t := Truncate(ts, cap), ts[k];
      && (t in s <==> k < |s|)
      && Truncate([t] + Remove(ts, t), cap) == if k < |s| then [t] + Remove(s, t) else Truncate([t] + s, cap)
  {
    var s := Truncate(ts, cap);
    RemoveAt(ts, k);
    if k < |s| {
      assert s[k] == ts[k];
      RemoveAt(s, k);
    }
    WithoutTruncated(ts, k, cap);
  }

  lemma WithoutTruncated(ts: seq<int>, k: nat, cap: nat)
    requires cap > 0 && k < |ts|
    ensures var s := Truncate(ts, cap);
      Truncate([ts[k]] + Without(ts, k), cap) == if k < |s| then [ts[k]] + Without(s, k) else Truncate([ts[k]] + s, cap)
  {
    var s := Truncate(ts, cap);
    if cap < |ts| {
      if k < cap {
        assert Without(ts, k)[..cap - 1] == Without(s, k);
      } else {
        assert Without(ts, k)[..cap - 1] == s[..cap - 1];
      }
    }
  }

  lemma TenantsWithout<V>(s: seq<Slot<V>>, k: nat)
    requires k < |s|
    ensures Tenants(Without(s, k)) == Without(Tenants(s), k)
  {}

  lemma TenantsOf<V>(s: seq<Slot<V>>, t: int)
    requires Distinct(s)
    ensures NoDuplicates(Tenants(s)) && (Has(s, t) <==> t in Tenants(s))
    ensures Has(s, t) ==> Tenants(Touch(s, t)) == [t] + Remove(Tenants(s), t)
    ensures !Has(s, t) ==> forall i :: 0 <= i < |s| ==> s[i].tenant != t
  {
    var ts := Tenants(s);
    if t in ts {
      var i :| 0 <= i < |ts| && ts[i] == t;
      assert s[i].tenant == t;
    }
    if Has(s, t) {
      assert ts[Find(s, t)] == t;
      RemoveAt(ts, Find(s, t));
      TenantsCons(s[Find(s, t)], Without(s, Find(s, t)));
      TenantsWithout(s, Find(s, t));
    }
  }

  /** The cache lists exactly the `cap` most recently touched distinct tenants of the whole history, latest first. */
  lemma {:induction false} LruOverRuns<V>(ops: seq<Op<V>>, cap: nat)
    requires cap > 0
    ensures Distinct(Run(ops, cap)) && |Run(ops, cap)| <= cap
    ensures Tenants(Run(ops, cap)) == Truncate(Recent(Touched(ops, cap)), cap)
  {
    if ops != [] {
      var before, op := ops[..|ops| - 1], ops[|ops| - 1];
      LruOverRuns(before, cap);
      RecentDistinct(Touched(before, cap));
      ApplyTenants(Run(before, cap), op, cap, Recent(Touched(before, cap)));
      if op.Insert? || Has(Run(before, cap), op.tenant) {
        assert Touched(ops, cap) == [op.tenant] + Touched(before, cap);
        assert Touched(ops, cap)[1..] == Touched(before, cap);
      } else {
        assert Touched(ops, cap) == Touched(before, cap);
      }
      DistinctFromTenants(Run(ops, cap), Recent(Touched(ops, cap)), cap, Touched(ops, cap));
    }
  }

  /** One operation on a cache that lists the front of `ts`: a touch moves its tenant to the front of `ts`. */
  lemma ApplyTenants<V>(s: seq<Slot<V>>, op: Op<V>, cap: nat, ts: seq<int>)
    requires cap > 0 && NoDuplicates(ts) && Distinct(s) && Tenants(s) == Truncate(ts, cap)
    ensures Tenants(Apply(s, op, cap)) ==
      if op.Insert? || Has(s, op.tenant) then Truncate([op.tenant] + Remove(ts, op.tenant), cap) else Tenants(s)
  {
    TenantsOf(s, op.tenant);
    FrontOfTruncated(ts, op.tenant, cap);
    if op.Insert? { PutTenants(s, op.tenant, op.val, cap); }
  }

  lemma PutTenants<V>(s: seq<Slot<V>>, t: int, v: V, cap: nat)
    requires Distinct(s)
    ensures Tenants(Put(s, t, v, cap)) ==
      if Has(s, t) then [t] + Remove(Tenants(s), t) else Truncate([t] + Tenants(s), cap)
  {
    TenantsOf(s, t);
    if Has(s, t) {
      TenantsCons(Slot(t, v), Without(s, Find(s, t)));
      TenantsCons(s[Find(s, t)], Without(s, Find(s, t)));
    } else {
      TenantsCons(Slot(t, v), s);
      TenantsTruncate([Slot(t, v)] + s, cap);
    }
  }

  lemma TenantsCons<V>(x: Slot<V>, s: seq<Slot<V>>)
    ensures Tenants([x] + s) == [x.tenant] + Tenants(s)
  {}

  lemma TenantsTruncate<V>(s: seq<Slot<V>>, cap: nat)
    ensures Tenants(Truncate(s, cap)) == Truncate(Tenants(s), cap)
  {}

  lemma DistinctFromTenants<V>(s: seq<Slot<V>>, ts: seq<int>, cap: nat, history: seq<int>)
    requires ts == Recent(history)
    ensures Tenants(s) == Truncate(ts, cap) ==> Distinct(s) && |s| <= cap
  {
    RecentDistinct(history);
    if Tenants(s) == Truncate(ts, cap) {
      forall i, j | 0 <= i < j < |s| ensures s[i].tenant != s[j].tenant {
        assert Tenants(s)[i] != Tenants(s)[j];
      }
    }
  }

  /** The value a history last inserted for a tenant. */
  function LastInserted<V>(ops: seq<Op<V>>, t: int): Option<V> {
    if ops == [] then None
    else
      var op := ops[|ops| - 1];
      if op.Insert? && op.tenant == t then Some(op.val) else LastInserted(ops[..|ops| - 1], t)
  }

  /** Every cached value is the one last inserted for its tenant. */
  lemma {:induction false} CachedIsLastInserted<V>(ops: seq<Op<V>>, cap: nat)
    requires cap > 0
    ensures forall x :: x in Run(ops, cap) ==> LastInserted(ops, x.tenant) == Some(x.val)
  {
    if ops != [] {
      var before, op := ops[..|ops| - 1], ops[|ops| - 1];
      CachedIsLastInserted(before, cap);
      LruOverRuns(before, cap);
      var s := Run(before, cap);
      forall x | x in Run(ops, cap) ensures LastInserted(ops, x.tenant) == Some(x.val) {
        ApplyMembers(s, op, cap, x);
      }
    }
  }

  lemma ApplyMembers<V>(s: seq<Slot<V>>, op: Op<V>, cap: nat, x: Slot<V>)
    requires Distinct(s) && x in Apply(s, op, cap)
    ensures (op.Insert? && x == Slot(op.tenant, op.val)) || (x in s && (op.Insert? ==> x.tenant != op.tenant))
  {
    TenantsOf(s, op.tenant);
    var next := Apply(s, op, cap);
    var i :| 0 <= i < |next| && next[i] == x;
    if Has(s, op.tenant) && i > 0 {
      var k := Find(s, op.tenant);
      assert x == Without(s, k)[i - 1] == s[if i - 1 < k then i - 1 else i];
    } else if op.Insert? && i > 0 {
      assert x == s[i - 1];
    }
  }
}

/** The same cache as the source builds it: a map into the elements of a doubly linked ring with a sentinel. */
module Lru {
  import opened Text
  import opened LruSpec

  /** An element of container/list carrying a cacheEntry. */
  class Element<P(0)> {
    var prev: Element?<P>
    var next: Element?<P>
    var tenantID: int
    var policy: P

    constructor (tenantID: int, policy: P)
      ensures this.tenantID == tenantID && this.policy == policy
    {
      this.tenantID := tenantID;
      this.policy := policy;
      prev, next := null, null;
    }

    /** The sentinel of an empty list. */
    constructor Root()
      ensures prev == this && next == this
    {
      new;
      prev, next := this, this;
    }
  }

  lemma WithoutMembers<T>(s: seq<T>, k: nat)
    requires k < |s|
    ensures forall x :: x in s && x != s[k] ==> x in Without(s, k)
  {
    forall x | x in s && x != s[k] ensures x in Without(s, k) {
      var i :| 0 <= i < |s| && s[i] == x;
      assert Without(s, k)[if i < k then i else i - 1] == x;
    }
  }

  class TenantCache<P(0)> {
    const cacheSize: nat
    var cache: map<int, Element<P>>
    var root: Element<P>
    var len: nat
    /** The elements along the ring, starting and ending with the sentinel, and the set of the others. */
    ghost var chain: seq<Element<P>>
    ghost var members: set<Element<P>>

    /** The ring runs through `chain` in order, forwards and backwards, and meets no element twice. */
    ghost predicate Linked()
      reads this, chain
    {
      && |chain| >= 2 && chain[0] == root && chain[|chain| - 1] == root
      && (forall i, j :: 0 <= i < j < |chain| - 1 ==> chain[i] != chain[j])
      && (forall i {:trigger chain[i].next} :: 0 <= i < |chain| - 1 ==> chain[i].next == chain[i + 1])
      && (forall i {:trigger chain[i].prev} :: 1 <= i < |chain| ==> chain[i].prev == chain[i - 1])
    }

    /** `members` are the elements between the two ends of a chain. */
    static ghost predicate Lists(chain: seq<Element<P>>, members: set<Element<P>>) {
      && |chain| >= 2
      && (forall i :: 1 <= i < |chain| - 1 ==> chain[i] in members)
      && (forall e :: e in members ==> e in chain && e != chain[0])
    }

    /** Map and list are in bijection, and every entry carries the tenant it is filed under. */
    ghost predicate Indexed()
      reads this, members
    {
      && Lists(chain, members)
      && (forall e :: e in members ==> e.tenantID in cache && cache[e.tenantID] == e)
      && (forall t :: t in cache ==> cache[t] in members && cache[t].tenantID == t)
    }

    ghost predicate Valid()
      reads this, chain, members
    {
      cacheSize > 0 && Linked() && Indexed() && len == |chain| - 2 && len <= cacheSize
    }

    /** Front to back: tenant and policy. */
    ghost function Contents(): seq<Slot<P>>
      reads this, chain
      requires |chain| >= 2
    {
      seq(|chain| - 2, i requires 0 <= i < |chain| - 2 reads this, chain =>
        Slot(chain[i + 1].tenantID, chain[i + 1].policy))
    }

    /** NewRegistry, with the default of withDefaults. */
    constructor (size: int)
      ensures Valid() && Contents() == [] && forall i :: 0 <= i < |chain| ==> fresh(chain[i])
      ensures cacheSize == if size <= 0 then 500 else size
    {
      cacheSize := if size <= 0 then 500 else size;
      cache := map[];
      var sentinel := new Element.Root();
      root := sentinel;
      len := 0;
      chain, members := [sentinel, sentinel], {};
    }

    /** Cut the element at position k out of the ring. */
    method Unlink(el: Element<P>, ghost k: nat)
      requires Linked() && 1 <= k < |chain| - 1 && chain[k] == el
      modifies this`chain, chain`prev, chain`next
      ensures Linked() && chain == Without(old(chain), k)
    {
      ghost var was := chain;
      assert chain[k].next == chain[k + 1] && chain[k].prev == chain[k - 1];
      el.prev.next := el.next;
      el.next.prev := el.prev;
      chain := Without(chain, k);
      assert forall i :: 0 <= i < |chain| ==> chain[i] == was[if i < k then i else i + 1];
    }

    /** Link an element behind the sentinel. */
    method LinkFront(el: Element<P>)
      requires Linked() && el !in chain
      modifies this`chain, chain`prev, chain`next, el`prev, el`next
      ensures Linked() && chain == [root, el] + old(chain)[1..]
    {
      ghost var was := chain;
      assert chain[0].next == chain[1];
      el.prev := root;
      el.next := root.next;
      el.prev.next := el;
      el.next.prev := el;
      chain := [root, el] + chain[1..];
      assert forall i :: 2 <= i < |chain| ==> chain[i] == was[i - 1];
    }

    /** list.MoveToFront. */
    method MoveToFront(el: Element<P>, ghost k: nat)
      requires Linked() && 1 <= k < |chain| - 1 && chain[k] == el
      modifies this`chain, chain`prev, chain`next
      ensures Linked() && chain == [root, el] + Without(old(chain), k)[1..]
    {
      assert chain[0].next == chain[1];
      if root.next == el {
        assert k == 1;
        assert chain == [root, el] + Without(chain, 1)[1..];
        return;
      }
      Unlink(el, k);
      LinkFront(el);
    }

    /** The ring and the specification find a tenant at the same place. */
    lemma FindNode(t: int)
      requires Linked() && Indexed()
      ensures t in cache <==> Has(Contents(), t)
      ensures t in cache ==> chain[Find(Contents(), t) + 1] == cache[t]
    {
      var s := Contents();
      if t in cache {
        var i :| 0 <= i < |chain| && chain[i] == cache[t];
        assert s[i - 1].tenant == t;
      }
      if Has(s, t) {
        assert chain[Find(s, t) + 1].tenantID == t;
      }
    }

    static lemma SameMove<T>(was: seq<T>, now: seq<T>, k: nat)
      requires k < |was| == |now| && now[0] == was[k]
      requires forall i :: 1 <= i < |now| ==> now[i] == was[From(k, i)]
      ensures now == [was[k]] + Without(was, k)
    {
      FrontSlots(was, k, was[k]);
    }

    /** Moving an entry to the front moves its slot. */
    method MoveEntry(el: Element<P>, ghost k: nat)
      requires Linked() && Lists(chain, members) && k + 2 < |chain| && chain[k + 1] == el
      modifies this`chain, chain`prev, chain`next
      ensures Linked() && Lists(chain, members) && |chain| == old(|chain|)
      ensures Contents() == [old(Contents())[k]] + Without(old(Contents()), k)
      ensures forall i :: 0 <= i < |chain| ==> chain[i] in old(chain)
    {
      ghost var ring := chain;
      MoveToFront(el, k + 1);
      MovedElements(ring, k + 1, members);
      MovedContents(k);
    }

    twostate lemma MovedContents(k: nat)
      requires k + 2 < old(|chain|) && chain == [old(chain)[0], old(chain)[k + 1]] + Without(old(chain), k + 1)[1..]
      requires forall e :: e in old(chain) ==> e.tenantID == old(e.tenantID) && e.policy == old(e.policy)
      ensures Contents() == [old(Contents())[k]] + Without(old(Contents()), k)
    {
      var was, now := old(Contents()), Contents();
      forall i | 1 <= i < |now| ensures now[i] == was[From(k, i)] {
        assert chain[i + 1] == old(chain)[From(k + 1, i + 1)];
      }
      SameMove(was, now, k);
    }

    static lemma MovedElements(s: seq<Element<P>>, k: nat, members: set<Element<P>>)
      requires 1 <= k < |s| - 1 && Lists(s, members)
      ensures var moved := [s[0], s[k]] + Without(s, k)[1..];
        && |moved| == |s| && Lists(moved, members)
        && (forall i :: 2 <= i < |s| ==> moved[i] == s[From(k, i)])
        && (forall i :: 0 <= i < |s| ==> moved[i] in s)
    {
      WithoutMembers(s, k);
    }

    static lemma PushedElements(s: seq<Element<P>>, el: Element<P>, members: set<Element<P>>)
      requires Lists(s, members) && el != s[0]
      ensures var pushed := [s[0], el] + s[1..];
        && Lists(pushed, members + {el}) && (forall i :: 2 <= i < |pushed| ==> pushed[i] == s[i - 1])
        && (forall i :: 0 <= i < |pushed| ==> pushed[i] in s || pushed[i] == el)
    {
      var pushed := [s[0], el] + s[1..];
      forall e | e in members ensures e in pushed {
        var i :| 0 <= i < |s| && s[i] == e;
        assert pushed[i + 1] == e;
      }
    }

    static lemma PoppedElements(s: seq<Element<P>>, members: set<Element<P>>)
      requires Lists(s, members) && |s| > 2
      requires forall i, j :: 0 <= i < j < |s| - 1 ==> s[i] != s[j]
      ensures var back := |s| - 2;
        && Lists(Without(s, back), members - {s[back]})
        && (forall i :: 0 <= i < back ==> Without(s, back)[i] == s[i])
        && (forall i :: 0 <= i < |Without(s, back)| ==> Without(s, back)[i] in s)
    {
      WithoutMembers(s, |s| - 2);
    }

    /** getCached. */
    method GetCached(t: int) returns (r: Option<P>)
      requires Valid()
      modifies this`chain, chain`prev, chain`next
      ensures Valid() && Contents() == Touch(old(Contents()), t)
      ensures r == if Has(old(Contents()), t) then Some(old(Contents())[Find(old(Contents()), t)].val) else None
      ensures forall i :: 0 <= i < |chain| ==> chain[i] in old(chain)
    {
      FindNode(t);
      if t !in cache { return None; }
      var el := cache[t];
      MoveEntry(el, Find(Contents(), t));
      return Some(el.policy);
    }

    /** insert on a tenant that is already cached. */
    method Overwrite(t: int, p: P)
      requires Valid() && t in cache
      modifies this`chain, chain
      ensures Valid() && Contents() == Put(old(Contents()), t, p, cacheSize)
      ensures forall i :: 0 <= i < |chain| ==> chain[i] in old(chain)
    {
      FindNode(t);
      var el := cache[t];
      ghost var k, was := Find(Contents(), t), Contents();
      el.policy := p;
      assert Contents() == was[k := Slot(t, p)];
      MoveEntry(el, k);
      assert Without(was[k := Slot(t, p)], k) == Without(was, k);
    }

    /** list.PushFront of a new element. */
    method PushElement(el: Element<P>)
      requires Linked() && Lists(chain, members) && el !in chain
      modifies this`chain, this`members, chain`prev, chain`next, el`prev, el`next
      ensures Linked() && Lists(chain, members) && members == old(members) + {el} && |chain| == old(|chain|) + 1
      ensures Contents() == [Slot(el.tenantID, el.policy)] + old(Contents())
      ensures forall i :: 0 <= i < |chain| ==> chain[i] in old(chain) || chain[i] == el
    {
      ghost var ring, was := chain, Contents();
      PushedElements(ring, el, members);
      LinkFront(el);
      members := members + {el};
      forall i | 1 <= i < |Contents()| ensures Contents()[i] == was[i - 1] {
        assert chain[i + 1] == ring[i];
      }
    }

    /** list.Remove of the element at the back. */
    method PopElement() returns (back: Element<P>)
      requires Linked() && Lists(chain, members) && |chain| > 2
      modifies this`chain, this`members, chain`prev, chain`next
      ensures Linked() && Lists(chain, members) && back in old(members) && members == old(members) - {back}
      ensures |chain| == old(|chain|) - 1 && Contents() == old(Contents())[..|chain| - 2]
      ensures forall i :: 0 <= i < |chain| ==> chain[i] in old(chain)
    {
      ghost var ring, was := chain, Contents();
      assert chain[|chain| - 1].prev == chain[|chain| - 2];
      back := root.prev;
      PoppedElements(ring, members);
      Unlink(back, |chain| - 2);
      members := members - {back};
      forall i | 0 <= i < |Contents()| ensures Contents()[i] == was[i] {
        assert chain[i + 1] == ring[i + 1];
      }
    }

    /** The push of insert, before any eviction. */
    method PushFront(t: int, p: P)
      requires Valid() && t !in cache
      modifies this`cache, this`len, this`chain, this`members, chain`prev, chain`next
      ensures Linked() && Indexed() && len == |chain| - 2 && len == old(len) + 1
      ensures Contents() == [Slot(t, p)] + old(Contents())
      ensures forall i :: 0 <= i < |chain| ==> chain[i] in old(chain) || fresh(chain[i])
    {
      var el := new Element(t, p);
      PushElement(el);
      cache := cache[t := el];
      len := len + 1;
    }

    /** One turn of the eviction loop: drop the entry at the back from list and map. */
    method EvictBack()
      requires Linked() && Indexed() && len == |chain| - 2 && len > 0
      modifies this`cache, this`len, this`chain, this`members, chain`prev, chain`next
      ensures Linked() && Indexed() && len == |chain| - 2 && len == old(len) - 1
      ensures Contents() == old(Contents())[..len]
      ensures forall i :: 0 <= i < |chain| ==> chain[i] in old(chain)
    {
      var back := PopElement();
      cache := cache - {back.tenantID};
      len := len - 1;
    }

    /** insert. */
    method Insert(t: int, p: P)
      requires Valid()
      modifies this`cache, this`len, this`chain, this`members, chain
      ensures Valid() && Contents() == Put(old(Contents()), t, p, cacheSize)
      ensures forall i :: 0 <= i < |chain| ==> chain[i] in old(chain) || fresh(chain[i])
    {
      FindNode(t);
      if t in cache {
        Overwrite(t, p);
        return;
      }
      PushFront(t, p);
      ghost var full := Contents();
      assert full[..len] == full;
      while len > cacheSize
        invariant Linked() && Indexed() && len == |chain| - 2
        invariant forall i :: 0 <= i < |chain| ==> chain[i] in old(chain) || fresh(chain[i])
        invariant Contents() == full[..len] && len <= |full| && (len < |full| ==> len >= cacheSize)
        decreases len
      {
        EvictBack();
      }
    }
  }

  /** A fresh cache taken through any history ends up with what the specification of the whole run says. */
  method Replay<P(0)>(size: int, ops: seq<Op<P>>) returns (c: TenantCache<P>)
    ensures fresh(c) && c.Valid() && c.Contents() == Run(ops, c.cacheSize)
    ensures c.cacheSize == if size <= 0 then 500 else size
  {
    c := new TenantCache(size);
    for i := 0 to |ops|
      invariant fresh(c) && (forall k :: 0 <= k < |c.chain| ==> fresh(c.chain[k]))
      invariant c.Valid() && c.Contents() == Run(ops[..i], c.cacheSize)
    {
      assert ops[..i + 1][..i] == ops[..i];
      match ops[i] {
        case Get(t) => var _ := c.GetCached(t);
        case Insert(t, p) => c.Insert(t, p);
      }
    }
    assert ops[..|ops|] == ops;
  }
}
