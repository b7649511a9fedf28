/** The client connection behind a bufio.Reader: peeking for the server name, then handing the bytes on to TLS. */
module BufferedConn {
  import opened Wire
  import opened ClientHello
  import opened HelloPrinter

  /** The default buffer of bufio.NewReader. */
  const BUFFER_SIZE: nat := 4096

  function Concat(chunks: seq<seq<byte>>): seq<byte> {
    if chunks == [] then [] else chunks[0] + Concat(chunks[1..])
  }

  predicate NoEmptyPiece(chunks: seq<seq<byte>>) {
    forall i :: 0 <= i < |chunks| ==> |chunks[i]| > 0
  }

  /** What peekClientHelloSNI answers for a connection that will deliver `stream`. */
  function SniOf(stream: seq<byte>): Result<seq<byte>> {
    if |stream| < 5 then Err(ReadFailed)
    else if stream[0] != 22 then Err(NotHandshake)
    else
      var total := 5 + Read16(stream, 3);
      if total > BUFFER_SIZE || total > |stream| then Err(ReadFailed)
      else ParseRecord(stream[..total])
  }

  /** A bufio.Reader over a connection that delivers its bytes in pieces of any size. */
  class BufReader {
    var buffered: seq<byte>
    var source: seq<seq<byte>>

    ghost predicate Valid()
      reads this
    {
      |buffered| <= BUFFER_SIZE && NoEmptyPiece(source)
    }

    /** Every byte not yet handed to a reader. */
    ghost function Stream(): seq<byte>
      reads this
    {
      buffered + Concat(source)
    }

    constructor (source: seq<seq<byte>>)
      requires NoEmptyPiece(source)
      ensures Valid() && Stream() == Concat(source)
    {
      this.buffered := [];
      this.source := source;
    }

    /** One read of the connection: at most `room` bytes of the piece that has arrived. */
    method ReadConn(room: nat) returns (data: seq<byte>)
      requires room > 0 && source != [] && NoEmptyPiece(source)
      modifies this`source
      ensures NoEmptyPiece(source) && Concat(old(source)) == data + Concat(source)
      ensures 0 < |data| <= room
    {
      data := source[0];
      if |data| <= room {
        source := source[1..];
      } else {
        assert data == data[..room] + data[room..];
        source := [data[room..]] + source[1..];
        data := data[..room];
      }
    }

    /** One read into the free part of the buffer. */
    method Fill()
      requires Valid() && |buffered| < BUFFER_SIZE && source != []
      modifies this
      ensures Valid() && Stream() == old(Stream())
      ensures |buffered| > old(|buffered|)
    {
      var data := ReadConn(BUFFER_SIZE - |buffered|);
      buffered := buffered + data;
    }

    /** Peek(n): the next n bytes without consuming them; fails when they do not fit the buffer or never come. */
    method Peek(n: nat) returns (r: seq<byte>, ok: bool)
      requires Valid()
      modifies this
      ensures Valid() && Stream() == old(Stream())
      ensures ok <==> n <= BUFFER_SIZE && n <= |Stream()|
      ensures ok ==> r == Stream()[..n]
    {
      while |buffered| < n && |buffered| < BUFFER_SIZE && source != []
        invariant Valid() && Stream() == old(Stream())
        decreases BUFFER_SIZE - |buffered|
      {
        Fill();
      }
      if n > BUFFER_SIZE || |buffered| < n { return buffered, false; }
      return buffered[..n], true;
    }

    /** Read: at most n of the next bytes, served from the buffer first. */
    method Read(n: nat) returns (data: seq<byte>, eof: bool)
      requires Valid()
      modifies this
      ensures Valid() && old(Stream()) == data + Stream() && |data| <= n
      ensures eof ==> data == [] && Stream() == []
      ensures n > 0 && !eof ==> data != []
    {
      assert buffered == [] ==> Stream() == Concat(source);
      if buffered == [] {
        if source == [] { return [], true; }
        if n == 0 { return [], false; }
        if n >= BUFFER_SIZE {
          data := ReadConn(n);
          return data, false;
        }
        Fill();
      }
      var k := if |buffered| <= n then |buffered| else n;
      assert buffered == buffered[..k] + buffered[k..];
      data, buffered, eof := buffered[..k], buffered[k..], false;
    }
  }

  /** The peek at the ClientHello: it answers from the bytes to come and consumes none of them. */
  method PeekClientHelloSNI(br: BufReader) returns (r: Result<seq<byte>>)
    requires br.Valid()
    modifies br
    ensures br.Valid() && br.Stream() == old(br.Stream())
    ensures r == SniOf(br.Stream())
  {
    var hdr, ok := br.Peek(5);
    if !ok { return Err(ReadFailed); }
    if hdr[0] != 22 { return Err(NotHandshake); }
    var total := 5 + Read16(hdr, 3);
    assert Read16(hdr, 3) == Read16(br.Stream(), 3);
    var buf;
    buf, ok := br.Peek(total);
    if !ok { return Err(ReadFailed); }
    r := ParseRecordLoop(buf);
  }

  /** A TLS server that reads until the end, asking for `sizes[i % |sizes|]` bytes in turn. */
  method ReadAll(br: BufReader, sizes: seq<nat>) returns (tls: seq<byte>)
    requires br.Valid() && sizes != [] && forall i :: 0 <= i < |sizes| ==> sizes[i] > 0
    modifies br
    ensures tls == old(br.Stream())
  {
    tls := [];
    var i, eof := 0, false;
    ghost var todo := br.Stream();
    while !eof
      invariant br.Valid() && 0 <= i < |sizes| && todo == br.Stream()
      invariant tls + todo == old(br.Stream())
      invariant eof ==> todo == []
      decreases |todo|, !eof
    {
      var data;
      data, eof := br.Read(sizes[i]);
      assert tls + todo == tls + data + br.Stream();
      tls, i, todo := tls + data, if i + 1 < |sizes| then i + 1 else 0, br.Stream();
    }
  }

  /** Peeking for the name and then reading everything: the reader behind the peek sees the whole stream. */
  method PeekThenReadAll(br: BufReader, sizes: seq<nat>) returns (r: Result<seq<byte>>, tls: seq<byte>)
    requires br.Valid() && sizes != [] && forall i :: 0 <= i < |sizes| ==> sizes[i] > 0
    modifies br
    ensures r == SniOf(old(br.Stream()))
    ensures tls == old(br.Stream())
  {
    r := PeekClientHelloSNI(br);
    tls := ReadAll(br, sizes);
  }

  /** Round trip: a well-formed single-record hello yields its host exactly when it fits the peek buffer. */
  lemma SniRoundTrip(h: Hello, recordVersion: seq<byte>, after: seq<byte>)
    requires ValidHello(h) && |recordVersion| == 2 && |PrintBody(h)| + 4 < 0x1_0000
    ensures var record := PrintRecord(h, recordVersion);
      SniOf(record + after) ==
      if |record| <= BUFFER_SIZE then Ok(RequestedHost(h.extensions)) else Err(ReadFailed)
  {
    var record := PrintRecord(h, recordVersion);
    var stream := record + after;
    var n := |PrintBody(h)| + 4;
    assert |record| == 5 + n && record[0] == 22;
    assert Holds(stream, 3, U16(n)) by {
      assert stream[3..5] == U16(n);
    }
    Holds16(stream, 3, n);
    assert stream[..5 + n] == record;
    ParseUndoesPrint(h, recordVersion);
  }

  /** On any stream, a non-empty answer is a host_name entry of a server_name extension its first record lists. */
  lemma SniSound(stream: seq<byte>) returns (ext: nat)
    requires SniOf(stream).Ok? && SniOf(stream).value != []
    ensures var record := stream[..5 + Read16(stream, 3)];
      && ParseRecord(record) == SniOf(stream)
      && HeaderAt(record, ExtensionsStart(record), ExtensionsEnd(record), ext)
      && FromServerName(record, SniOf(stream).value, ext)
  {
    ext := ParsedNameIsInServerName(stream[..5 + Read16(stream, 3)]);
  }
}
