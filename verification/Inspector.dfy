/** Inspecting the beginning of a body and putting it back in front of the rest (inspector/dlp.go). */
module Inspector {
  import opened Wire
  import opened Readers

  /** The two detectors, what matches a credit card number and what matches a secret. */
  datatype Detectors = Detectors(card: seq<byte> -> bool, secret: seq<byte> -> bool)

  datatype Violation = CreditCard | Secret

  function InspectBytes(x: Detectors, b: seq<byte>): (r: seq<Violation>)
    ensures r == [] <==> !x.card(b) && !x.secret(b)
    ensures x.card(b) ==> |r| > 0 && r[0] == CreditCard
    ensures x.secret(b) ==> |r| > 0 && r[|r| - 1] == Secret
    ensures |r| == 2 <==> x.card(b) && x.secret(b)
    ensures |r| <= 2
  {
    (if x.card(b) then [CreditCard] else []) + (if x.secret(b) then [Secret] else [])
  }

  /** The octets of a stream without failures. */
  function Bytes(s: seq<Item>): (d: seq<byte>)
    requires Clean(s)
    ensures Octets(d) == s
  {
    seq(|s|, i requires 0 <= i < |s| => s[i].b)
  }

  /** How many octets are inspected: none for a limit that is not positive. */
  function Inspected(max: int, s: seq<Item>): (n: nat)
    ensures max <= 0 ==> n == 0
    ensures max > 0 ==> n <= max && n <= |s| && (n == max || n == |s|)
  {
    Least(if max > 0 then max else 0, |s|)
  }

  lemma BytesOf(d: seq<byte>)
    ensures Clean(Octets(d)) && Bytes(Octets(d)) == d
  {}

  lemma {:induction false} BreakIsClean(s: seq<Item>)
    ensures Break(s) == |s| <==> Clean(s)
  {
    assert s[..|s|] == s;
    if Break(s) < |s| { assert s[Break(s)].Broken?; }
  }

  /** Reading through a limit succeeds exactly when nothing fails early, and yields exactly the first octets. */
  lemma ThroughLimit(s: seq<Item>, max: int)
    ensures var n := if max > 0 then max else 0;
      && (Break(Take(s, n)) == |Take(s, n)| <==> Clean(s[..Inspected(max, s)]))
      && (Clean(s[..Inspected(max, s)]) ==> Take(s, n)[..Break(Take(s, n))] == s[..Inspected(max, s)])
  {
    var n := if max > 0 then max else 0;
    TakeClean(s, n);
    BreakIsClean(Take(s, n));
    if Clean(s[..Inspected(max, s)]) { assert Take(s, n)[..|Take(s, n)|] == Take(s, n); }
  }

  /**
   * Inspects the first octets of a body and returns a body that yields every octet of the original, whatever the
   * pieces it arrives in. It fails, closing the body, exactly when a read fails within those first octets.
   */
  method InspectAndPreserve(body: Reader?, max: int, x: Detectors)
    returns (viol: seq<Violation>, count: nat, restored: Reader?, ok: bool)
    requires body != null ==> body.Valid()
    modifies if body == null then {} else body.Repr
    ensures body == null ==> ok && viol == [] && count == 0 && restored == null
    ensures body != null ==> ok == Clean(old(body.Stream())[..Inspected(max, old(body.Stream()))])
    ensures body != null && ok ==>
      && restored != null && restored.Valid() && restored.Stream() == old(body.Stream())
      && count == Inspected(max, old(body.Stream())) && viol == InspectBytes(x, Bytes(old(body.Stream())[..count]))
      && fresh(restored.Repr - body.Repr) && restored.Closed() == old(body.Closed())
    ensures !ok ==> body != null && body.Valid() && body.Closed() && viol == [] && count == 0 && restored == null
  {
    if body == null { return [], 0, null, true; }
    ghost var s := body.Stream();
    ThroughLimit(s, max);
    var lr := new Reader.Limit(body, if max > 0 then max else 0);
    var buf;
    buf, ok := ReadAll(lr);
    if !ok {
      body.Close();
      return [], 0, null, false;
    }
    restored := new Reader.Join(buf, body);
    BytesOf(buf);
    viol, count := InspectBytes(x, buf), |buf|;
  }

  /** Inspecting what the first inspection put back sees the same octets, and still loses none. */
  method InspectAgain(body: Reader, max: int, x: Detectors)
    returns (first: seq<Violation>, second: seq<Violation>, n: nat, m: nat, restored: Reader)
    requires body.Valid() && Clean(body.Stream()[..Inspected(max, body.Stream())])
    modifies body.Repr
    ensures first == second && n == m
    ensures restored.Valid() && restored.Stream() == old(body.Stream())
  {
    var once, ok;
    first, n, once, ok := InspectAndPreserve(body, max, x);
    var twice;
    second, m, twice, ok := InspectAndPreserve(once, max, x);
    restored := twice;
  }

  /** A request or a response: what matters is its body. */
  class Message {
    var body: Reader?

    ghost predicate Valid()
      reads this, body, if body == null then {} else body.Repr
    {
      body != null ==> body.Valid() && this !in body.Repr
    }

    ghost function Stream(): seq<Item>
      requires Valid()
      reads this, body, if body == null then {} else body.Repr
    {
      if body == null then [] else body.Stream()
    }

    constructor (body: Reader?)
      requires body != null ==> body.Valid()
      ensures this.body == body && Valid()
    {
      this.body := body;
    }

    /** InspectRequest and InspectResponse. */
    method Inspect(max: int, x: Detectors) returns (viol: seq<Violation>, count: nat, ok: bool)
      requires Valid()
      modifies this, if body == null then {} else body.Repr
      ensures Valid() && (body == null <==> old(body) == null)
      ensures ok == Clean(old(Stream())[..Inspected(max, old(Stream()))])
      ensures ok ==> Stream() == old(Stream()) && count == Inspected(max, Stream())
      ensures ok ==> viol == if old(body) == null then [] else InspectBytes(x, Bytes(old(Stream())[..count]))
      ensures ok && old(body) != null ==> body.Closed() == old(body.Closed())
      ensures !ok ==> viol == [] && count == 0 && body == old(body) && body != null && body.Closed()
      ensures body != null ==> fresh(body.Repr - (if old(body) == null then {} else old(body).Repr))
    {
      if body == null { return [], 0, true; }
      var restored;
      viol, count, restored, ok := InspectAndPreserve(body, max, x);
      if ok { body := restored; }
    }
  }
}
