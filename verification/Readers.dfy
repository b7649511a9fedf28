/**
 * Body readers (io.Reader, io.LimitedReader, io.MultiReader, bytes.Reader) as objects that hand out their bytes in
 * pieces of any size, may stall, and may fail on the way.
 */
module Readers {
  import opened Wire

  /** What one read of a connection brings; a last piece may come together with the end of the stream. */
  datatype Delivery = Piece(data: seq<byte>, last: bool) | Stall | Failure(sticky: bool)

  /** A stream as its reader will see it: octets, and the places where a read fails, once or for good. */
  datatype Item = Octet(b: byte) | Broken(sticky: bool)

  datatype Kind = Source | Buffer | Limited | Joined

  datatype Got = Data | Eof | Fail

  function Octets(data: seq<byte>): (s: seq<Item>)
    ensures |s| == |data| && forall i :: 0 <= i < |data| ==> s[i] == Octet(data[i])
  {
    seq(|data|, i requires 0 <= i < |data| => Octet(data[i]))
  }

  function StreamOf(script: seq<Delivery>): seq<Item> {
    if script == [] then []
    else
      match script[0]
      case Piece(data, last) => Octets(data) + if last then [] else StreamOf(script[1..])
      case Stall => StreamOf(script[1..])
      case Failure(sticky) => [Broken(sticky)] + StreamOf(script[1..])
  }

  /** The part of a stream a LimitedReader lets through: all it meets before n octets have passed. */
  function Take(s: seq<Item>, n: nat): seq<Item> {
    if s == [] || n == 0 then []
    else if s[0].Octet? then [s[0]] + Take(s[1..], n - 1)
    else [s[0]] + Take(s[1..], n)
  }

  predicate Clean(s: seq<Item>) {
    forall i :: 0 <= i < |s| ==> s[i].Octet?
  }

  lemma OctetsAppend(a: seq<byte>, b: seq<byte>)
    ensures Octets(a + b) == Octets(a) + Octets(b)
  {}

  /** What a read brings is the next part of the stream: octets, the end, or a failure, which a sticky one repeats. */
  ghost predicate Brings(s: seq<Item>, got: Got, d: seq<byte>, s': seq<Item>) {
    match got
    case Data => s == Octets(d) + s'
    case Eof => s == Octets(d) && s' == []
    case Fail => d == [] && s != [] && s[0].Broken? && s' == if s[0].sticky then s else s[1..]
  }

  lemma LimitBrings(s: seq<Item>, got: Got, d: seq<byte>, s': seq<Item>, n: nat)
    requires Brings(s, got, d, s') && |d| <= n && n > 0
    ensures Brings(Take(s, n), got, d, Take(s', n - |d|))
    ensures !got.Fail? ==> s == Octets(d) + s'
  {
    match got
    case Data => TakeOctets(d, s', n);
    case Eof =>
      TakeOctets(d, [], n);
      assert Octets(d) + [] == Octets(d);
    case Fail =>
  }

  class Reader {
    const kind: Kind
    var script: seq<Delivery>
    var data: seq<byte>
    var left: nat
    const inner: Reader?
    var closed: bool
    ghost const Repr: set<object>

    ghost predicate Valid()
      reads this, Repr
      decreases Repr
    {
      && this in Repr
      && (kind.Limited? || kind.Joined? <==> inner != null)
      && (inner != null ==> inner in Repr && inner.Repr < Repr && this !in inner.Repr && inner.Valid())
    }

    /** What is still to come. */
    ghost function Stream(): seq<Item>
      requires Valid()
      reads this, Repr
      decreases Repr
    {
      match kind
      case Source => StreamOf(script)
      case Buffer => Octets(data)
      case Limited => Take(inner.Stream(), left)
      case Joined => Octets(data) + inner.Stream()
    }

    /** A bound on the reads that bring neither the end nor a failure. */
    ghost function Reads(): nat
      requires Valid()
      reads this, Repr
      decreases Repr
    {
      match kind
      case Source => Effort(script)
      case Buffer => |data|
      case Limited => inner.Reads()
      case Joined => |data| + inner.Reads()
    }

    /** The connection underneath has been closed, if there is one. */
    ghost predicate Closed()
      requires Valid()
      reads this, Repr
      decreases Repr
    {
      match kind
      case Source => closed
      case Buffer => true
      case _ => inner.Closed()
    }

    /** Close of a connection, of a NopCloser, or of a preservingBody, which closes the body it was made from. */
    method Close()
      requires Valid()
      modifies Repr
      ensures Valid() && Closed() && Stream() == old(Stream())
      decreases Repr
    {
      if kind.Source? { closed := true; } else if inner != null { inner.Close(); }
    }

    constructor FromSource(script: seq<Delivery>)
      ensures Valid() && kind == Source && fresh(Repr) && Stream() == StreamOf(script)
    {
      kind, this.script, data, left, inner, closed := Source, script, [], 0, null, false;
      Repr := {this};
    }

    constructor FromBytes(data: seq<byte>)
      ensures Valid() && kind == Buffer && fresh(Repr) && Stream() == Octets(data)
    {
      kind, script, this.data, left, inner, closed := Buffer, [], data, 0, null, false;
      Repr := {this};
    }

    /** io.LimitedReader{R: inner, N: left}. */
    constructor Limit(inner: Reader, left: nat)
      requires inner.Valid()
      ensures Valid() && kind == Limited && this.inner == inner && Repr == {this} + inner.Repr && fresh(this)
      ensures Stream() == Take(inner.Stream(), left) && Closed() == inner.Closed()
    {
      kind, script, data, this.left, this.inner, closed := Limited, [], [], left, inner, false;
      Repr := {this} + inner.Repr;
    }

    /** io.MultiReader(bytes.NewReader(data), inner). */
    constructor Join(data: seq<byte>, inner: Reader)
      requires inner.Valid()
      ensures Valid() && kind == Joined && this.inner == inner && Repr == {this} + inner.Repr && fresh(this)
      ensures Stream() == Octets(data) + inner.Stream() && Closed() == inner.Closed()
    {
      kind, script, this.data, left, this.inner, closed := Joined, [], data, 0, inner, false;
      Repr := {this} + inner.Repr;
    }

    /** Read with room for n bytes. Whatever comes is the next part of the stream. */
    method Read(n: nat) returns (got: Got, d: seq<byte>)
      requires Valid() && n > 0
      modifies Repr
      ensures Valid() && |d| <= n
      ensures Brings(old(Stream()), got, d, Stream()) && (got.Data? ==> Reads() < old(Reads()))
      ensures kind.Limited? && !got.Fail? ==> old(inner.Stream()) == Octets(d) + inner.Stream()
      ensures Closed() == old(Closed())
      decreases Repr
    {
      match kind {
        case Source => got, d := ReadSource(n);
        case Buffer => got, d := ReadBuffer(n);
        case Limited => got, d := ReadLimited(n);
        case Joined => got, d := ReadJoined(n);
      }
    }

    method ReadBuffer(n: nat) returns (got: Got, d: seq<byte>)
      requires Valid() && n > 0 && kind.Buffer?
      modifies this
      ensures Valid() && |d| <= n
      ensures Brings(old(Stream()), got, d, Stream()) && (got.Data? ==> Reads() < old(Reads()))
      ensures Closed() == old(Closed())
    {
      if data == [] { return Eof, []; }
      var k := if |data| <= n then |data| else n;
      got, d := Data, data[..k];
      assert data == data[..k] + data[k..];
      OctetsAppend(data[..k], data[k..]);
      data := data[k..];
    }

    method ReadSource(n: nat) returns (got: Got, d: seq<byte>)
      requires Valid() && n > 0 && kind.Source?
      modifies this
      ensures Valid() && |d| <= n
      ensures Brings(old(Stream()), got, d, Stream()) && (got.Data? ==> Reads() < old(Reads()))
      ensures Closed() == old(Closed())
    {
      if script == [] { return Eof, []; }
      match script[0] {
        case Stall =>
          script := script[1..];
          return Data, [];
        case Failure(sticky) =>
          if !sticky { script := script[1..]; }
          return Fail, [];
        case Piece(piece, last) =>
          if |piece| <= n {
            script := if last then [] else script[1..];
            return if last then Eof else Data, piece;
          }
          assert piece == piece[..n] + piece[n..];
          OctetsAppend(piece[..n], piece[n..]);
          script := [Piece(piece[n..], last)] + script[1..];
          return Data, piece[..n];
      }
    }

    /** io.LimitedReader: at its limit it reports the end without reading. */
    method ReadLimited(n: nat) returns (got: Got, d: seq<byte>)
      requires Valid() && n > 0 && kind.Limited?
      modifies Repr
      ensures Valid() && |d| <= n
      ensures Brings(old(Stream()), got, d, Stream()) && (got.Data? ==> Reads() < old(Reads()))
      ensures kind.Limited? && !got.Fail? ==> old(inner.Stream()) == Octets(d) + inner.Stream()
      ensures Closed() == old(Closed())
      decreases Repr, 0
    {
      if left == 0 {
        assert Octets([]) + inner.Stream() == inner.Stream();
        return Eof, [];
      }
      var m := if n <= left then n else left;
      ghost var before := inner.Stream();
      got, d := inner.Read(m);
      LimitBrings(before, got, d, inner.Stream(), left);
      left := left - |d|;
    }

    /** io.MultiReader of a bytes.Reader and another reader. */
    method ReadJoined(n: nat) returns (got: Got, d: seq<byte>)
      requires Valid() && n > 0 && kind.Joined?
      modifies Repr
      ensures Valid() && |d| <= n
      ensures Brings(old(Stream()), got, d, Stream()) && (got.Data? ==> Reads() < old(Reads()))
      ensures Closed() == old(Closed())
      decreases Repr, 0
    {
      if data == [] {
        assert Stream() == inner.Stream();
        got, d := inner.Read(n);
        assert Stream() == inner.Stream();
        return;
      }
      var k := if |data| <= n then |data| else n;
      got, d := Data, data[..k];
      assert data == data[..k] + data[k..];
      OctetsAppend(data[..k], data[k..]);
      data := data[k..];
    }
  }

  lemma OctetsSplit(d: seq<byte>, rest: seq<Item>)
    requires d != []
    ensures Octets(d) == [Octet(d[0])] + Octets(d[1..])
    ensures (Octets(d) + rest)[0] == Octet(d[0]) && (Octets(d) + rest)[1..] == Octets(d[1..]) + rest
  {}

  lemma {:induction false} TakeOctets(d: seq<byte>, rest: seq<Item>, n: nat)
    requires |d| <= n
    ensures Take(Octets(d) + rest, n) == Octets(d) + Take(rest, n - |d|)
  {
    if d == [] {
      assert Octets(d) + rest == rest;
    } else {
      TakeOctets(d[1..], rest, n - 1);
      OctetsSplit(d, rest);
      assert [Octet(d[0])] + (Octets(d[1..]) + Take(rest, n - |d|)) == Octets(d) + Take(rest, n - |d|);
    }
  }

  function Least(a: nat, b: nat): (m: nat)
    ensures m <= a && m <= b && (m == a || m == b)
  {
    if a <= b then a else b
  }

  /** Nothing fails within the first n octets exactly when what a limit of n lets through is clean. */
  lemma {:induction false} TakeClean(s: seq<Item>, n: nat)
    ensures Clean(Take(s, n)) <==> Clean(s[..Least(n, |s|)])
    ensures Clean(Take(s, n)) ==> Take(s, n) == s[..Least(n, |s|)]
  {
    if s != [] && n > 0 {
      var m, t := Least(n, |s|), Take(s, n);
      if s[0].Octet? {
        TakeClean(s[1..], n - 1);
        assert s[..m] == [s[0]] + s[1..][..m - 1];
        assert t == [s[0]] + Take(s[1..], n - 1);
        CleanCons(s[0], Take(s[1..], n - 1));
        CleanCons(s[0], s[1..][..m - 1]);
      } else {
        assert t[0] == s[0] && s[..m][0] == s[0];
      }
    }
  }

  lemma CleanCons(x: Item, s: seq<Item>)
    ensures Clean([x] + s) <==> x.Octet? && Clean(s)
  {
    if Clean([x] + s) {
      assert ([x] + s)[0] == x;
      forall i | 0 <= i < |s| ensures s[i].Octet? { assert ([x] + s)[i + 1] == s[i]; }
    }
  }

  /** Where the first failure is. */
  function Break(s: seq<Item>): (k: nat)
    ensures k <= |s| && Clean(s[..k]) && (k < |s| ==> s[k].Broken?)
  {
    if s == [] || s[0].Broken? then 0 else 1 + Break(s[1..])
  }

  /** What is left of a stream that was read until its end or its first failure. */
  function After(s: seq<Item>): seq<Item> {
    var k := Break(s);
    if k == |s| then [] else if s[k].sticky then s[k..] else s[k + 1..]
  }

  /** Octets in front of a stream change neither its first failure nor what is left behind it. */
  lemma {:induction false} BreakAfter(d: seq<byte>, s: seq<Item>)
    ensures Break(Octets(d) + s) == |d| + Break(s) && After(Octets(d) + s) == After(s)
  {
    if d == [] {
      assert Octets(d) + s == s;
    } else {
      BreakAfter(d[1..], s);
      OctetsSplit(d, s);
      AfterOne(Octet(d[0]), Octets(d[1..]) + s);
      assert [Octet(d[0])] + (Octets(d[1..]) + s) == Octets(d) + s;
    }
  }

  lemma AfterOne(x: Item, s: seq<Item>)
    requires x.Octet?
    ensures Break([x] + s) == 1 + Break(s) && After([x] + s) == After(s)
  {
    assert ([x] + s)[1..] == s;
  }

  lemma ReadToTheEnd(whole: seq<Item>, d: seq<byte>)
    requires whole == Octets(d) + []
    ensures Break(whole) == |whole| && After(whole) == [] && Octets(d) == whole
  {
    BreakAfter(d, []);
  }

  lemma ReadToAFailure(whole: seq<Item>, d: seq<byte>, rest: seq<Item>)
    requires whole == Octets(d) + rest && rest != [] && rest[0].Broken?
    ensures Break(whole) == |d| < |whole| && whole[..|d|] == Octets(d)
    ensures After(whole) == if rest[0].sticky then rest else rest[1..]
  {
    BreakAfter(d, rest);
  }

  lemma Appended(acc: seq<byte>, d: seq<byte>, s: seq<Item>, s': seq<Item>, whole: seq<Item>)
    requires Octets(acc) + s == whole && s == Octets(d) + s'
    ensures Octets(acc + d) + s' == whole
  {
    OctetsAppend(acc, d);
  }

  /** What lies under a LimitedReader. */
  ghost function Under(r: Reader): seq<Item>
    requires r.Valid()
    reads r, r.Repr
  {
    if r.kind.Limited? then r.inner.Stream() else r.Stream()
  }

  /** io.ReadAll: everything up to the end, or up to the first failure. */
  method ReadAll(r: Reader) returns (d: seq<byte>, ok: bool)
    requires r.Valid()
    modifies r.Repr
    ensures r.Valid() && ok == (Break(old(r.Stream())) == |old(r.Stream())|)
    ensures Octets(d) == old(r.Stream())[..Break(old(r.Stream()))] && r.Stream() == After(old(r.Stream()))
    ensures ok ==> old(Under(r)) == Octets(d) + Under(r)
    ensures r.Closed() == old(r.Closed())
  {
    d := [];
    ghost var whole, under := r.Stream(), Under(r);
    assert Octets(d) + whole == whole && Octets(d) + under == under;
    while true
      invariant r.Valid() && Octets(d) + r.Stream() == whole && Octets(d) + Under(r) == under
      invariant r.Closed() == old(r.Closed())
      decreases r.Reads()
    {
      // the buffer grows as it likes, and is never full
      var room := *;
      if room <= 0 { room := 512; }
      ghost var rest, deep := r.Stream(), Under(r);
      var got, more := r.Read(room);
      if got.Fail? {
        ReadToAFailure(whole, d, rest);
        return d, false;
      }
      assert rest == Octets(more) + r.Stream() && deep == Octets(more) + Under(r);
      Appended(d, more, rest, r.Stream(), whole);
      Appended(d, more, deep, Under(r), under);
      d := d + more;
      if got.Eof? {
        ReadToTheEnd(whole, d);
        return d, true;
      }
    }
  }

  function Effort(script: seq<Delivery>): nat {
    if script == [] then 0 else (if script[0].Piece? then |script[0].data| + 1 else 1) + Effort(script[1..])
  }
}
