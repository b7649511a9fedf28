/** What the server-name parser answers on any bytes, by the layout of a ClientHello (proxy/https_interceptor.go). */
module HelloMeaning {
  import opened Wire
  import opened ClientHello
  import opened BufferedConn

  // ---------- the layout ----------

  /** A handshake message of type client_hello that fits the buffer. */
  predicate HasMessage(b: seq<byte>) {
    |b| >= 9 && b[5] == 1 && 9 + Read24(b, 6) <= |b|
  }

  /** The length of the session id is there, behind the version and the random. */
  predicate HasSessionId(b: seq<byte>) {
    HasMessage(b) && |b| >= 9 + 2 + 32 + 1
  }

  function CiphersAt(b: seq<byte>): nat
    requires HasSessionId(b)
  {
    44 + b[43] as nat
  }

  predicate HasCiphers(b: seq<byte>) {
    HasSessionId(b) && CiphersAt(b) + 2 <= |b|
  }

  function CompressionAt(b: seq<byte>): nat
    requires HasCiphers(b)
  {
    CiphersAt(b) + 2 + Read16(b, CiphersAt(b))
  }

  predicate HasCompression(b: seq<byte>) {
    HasCiphers(b) && CompressionAt(b) + 1 <= |b|
  }

  function ExtensionsAt(b: seq<byte>): nat
    requires HasCompression(b)
  {
    CompressionAt(b) + 1 + b[CompressionAt(b)] as nat
  }

  /** The fields before the extensions are all there. */
  predicate HasFields(b: seq<byte>) {
    HasCompression(b) && ExtensionsAt(b) <= |b|
  }

  /** A hello that ends before the length of its extensions has none. */
  predicate HasExtensions(b: seq<byte>) {
    HasFields(b) && ExtensionsAt(b) + 2 <= |b|
  }

  function ListEnd(b: seq<byte>): nat
    requires HasExtensions(b)
  {
    ExtensionsAt(b) + 2 + Read16(b, ExtensionsAt(b))
  }

  // ---------- errors ----------

  /** Each error names the first field that is not there, and a hello is accepted exactly when all its fields are. */
  lemma ErrorsMean(b: seq<byte>)
    ensures var r := ParseRecord(b);
      && (r == Err(TooShort) <==> |b| < 9)
      && (r == Err(NotClientHello) <==> |b| >= 9 && b[5] != 1)
      && (r == Err(HandshakeTruncated) <==> |b| >= 9 && b[5] == 1 && 9 + Read24(b, 6) > |b|)
      && (r == Err(TruncatedAtRandom) <==> HasMessage(b) && |b| < 9 + 2 + 32)
      && (r == Err(TruncatedAtSessionIdLen) <==> HasMessage(b) && |b| == 9 + 2 + 32)
      && (r == Err(TruncatedAtSessionId) <==> HasSessionId(b) && |b| < CiphersAt(b))
      && (r == Err(TruncatedAtCipherSuitesLen) <==> HasSessionId(b) && CiphersAt(b) <= |b| < CiphersAt(b) + 2)
      && (r == Err(TruncatedAtCipherSuites) <==> HasCiphers(b) && |b| < CompressionAt(b))
      && (r == Err(TruncatedAtCompressionLen) <==> HasCiphers(b) && |b| == CompressionAt(b))
      && (r == Err(TruncatedAtCompression) <==> HasCompression(b) && |b| < ExtensionsAt(b))
      && (r == Err(TruncatedAtExtensions) <==> HasExtensions(b) && |b| < ListEnd(b))
      && (r.Ok? <==> HasFields(b) && (HasExtensions(b) ==> ListEnd(b) <= |b|))
  {
    FromCompressionOn(b);
  }

  lemma FromCompressionOn(b: seq<byte>)
    ensures HasCiphers(b) && CompressionAt(b) <= |b| ==> ParseRecord(b) == ParseCompression(b, CompressionAt(b))
    ensures HasMessage(b) && |b| >= 43 ==> ParseRecord(b) == ParseSessionId(b, 43)
  {}

  // ---------- names ----------

  /** The walk over the names from `lo`, led by their length fields, arrives at an entry at `pos`. */
  ghost predicate EntryAt(b: seq<byte>, lo: nat, hi: nat, pos: nat)
    requires hi <= |b|
    decreases hi - lo
  {
    lo + 3 <= hi && (pos == lo || (b[lo] != 0 && EntryAt(b, lo + 3 + Read16(b, lo + 1), hi, pos)))
  }

  /** The first host_name the walk arrives at is `n`, wholly inside the data. */
  ghost predicate NamedAt(b: seq<byte>, lo: nat, hi: nat, n: seq<byte>, pos: nat)
    requires hi <= |b|
  {
    && EntryAt(b, lo, hi, pos) && pos + 3 + |n| <= hi
    && b[pos] == 0 && Read16(b, pos + 1) == |n| && b[pos + 3..pos + 3 + |n|] == n
  }

  /** The first extension of type 0 the walk arrives at carries the name. */
  ghost predicate AnsweredAt(b: seq<byte>, start: nat, end: nat, n: seq<byte>, ext: nat, pos: nat) {
    && HeaderAt(b, start, end, ext) && ext + 4 <= |b| && Read16(b, ext) == 0 && Read16(b, ext + 2) >= 2
    && ext + 4 + Read16(b, ext + 2) <= |b|
    && NamedAt(b, ext + 6, ext + 4 + Read16(b, ext + 2), n, pos)
  }

  ghost predicate Answered(b: seq<byte>, start: nat, end: nat, n: seq<byte>) {
    exists ext, pos :: AnsweredAt(b, start, end, n, ext, pos)
  }

  lemma {:induction false} EntryInside(b: seq<byte>, lo: nat, hi: nat, pos: nat)
    requires hi <= |b| && EntryAt(b, lo, hi, pos)
    ensures lo <= pos && pos + 3 <= hi
    decreases hi - lo
  {
    if pos != lo { EntryInside(b, lo + 3 + Read16(b, lo + 1), hi, pos); }
  }

  lemma {:induction false} NamesComplete(b: seq<byte>, lo: nat, hi: nat, n: seq<byte>, pos: nat)
    requires hi <= |b| && NamedAt(b, lo, hi, n, pos)
    ensures ScanNames(b, lo, hi) == n
    decreases hi - lo
  {
    if pos != lo {
      EntryInside(b, lo + 3 + Read16(b, lo + 1), hi, pos);
      NamesComplete(b, lo + 3 + Read16(b, lo + 1), hi, n, pos);
    }
  }

  lemma {:induction false} NamesFound(b: seq<byte>, lo: nat, hi: nat) returns (pos: nat)
    requires hi <= |b| && ScanNames(b, lo, hi) != []
    ensures NamedAt(b, lo, hi, ScanNames(b, lo, hi), pos)
    decreases hi - lo
  {
    pos := lo;
    if b[lo] != 0 { pos := NamesFound(b, lo + 3 + Read16(b, lo + 1), hi); }
  }

  lemma {:induction false} ExtensionsComplete(b: seq<byte>, start: nat, end: nat, n: seq<byte>, ext: nat, pos: nat)
    requires end <= |b| && AnsweredAt(b, start, end, n, ext, pos)
    ensures ScanExtensions(b, start, end) == n
    decreases end - start
  {
    if ext == start {
      NamesComplete(b, ext + 6, ext + 4 + Read16(b, ext + 2), n, pos);
    } else {
      var next := start + 4 + Read16(b, start + 2);
      HeaderInside(b, next, end, ext);
      ExtensionsComplete(b, next, end, n, ext, pos);
    }
  }

  lemma {:induction false} ExtensionsFound(b: seq<byte>, start: nat, end: nat) returns (ext: nat, pos: nat)
    requires end <= |b| && ScanExtensions(b, start, end) != []
    ensures AnsweredAt(b, start, end, ScanExtensions(b, start, end), ext, pos)
    decreases end - start
  {
    if Read16(b, start) == 0 {
      ext := start;
      pos := NamesFound(b, ext + 6, ext + 4 + Read16(b, ext + 2));
    } else {
      ext, pos := ExtensionsFound(b, start + 4 + Read16(b, start + 2), end);
    }
  }

  /**
   * On any bytes the parser answers with a name if and only if all fields are there and the first extension of type 0
   * that the walk arrives at carries it as its first host_name.
   */
  lemma NameIff(b: seq<byte>, n: seq<byte>)
    requires n != []
    ensures ParseRecord(b) == Ok(n) <==>
      && HasExtensions(b) && ListEnd(b) <= |b|
      && Answered(b, ExtensionsAt(b) + 2, ListEnd(b), n)
  {
    ErrorsMean(b);
    FromCompressionOn(b);
    if HasExtensions(b) && ListEnd(b) <= |b| {
      var start, end := ExtensionsAt(b) + 2, ListEnd(b);
      assert ParseRecord(b) == Ok(ScanExtensions(b, start, end));
      if ScanExtensions(b, start, end) == n {
        var ext, pos := ExtensionsFound(b, start, end);
        assert AnsweredAt(b, start, end, n, ext, pos);
      }
      if ext, pos :| AnsweredAt(b, start, end, n, ext, pos) { ExtensionsComplete(b, start, end, n, ext, pos); }
    }
  }

  // ---------- the peek ----------

  /** The length of the first record with its header. */
  function RecordEnd(stream: seq<byte>): nat
    requires |stream| >= 5
  {
    5 + stream[3] as nat * 256 + stream[4] as nat
  }

  /** The peek looks at the first record, if it is a handshake, comes whole and fits 4096 bytes, and at nothing else. */
  lemma PeekMeans(stream: seq<byte>)
    ensures SniOf(stream) == Err(NotHandshake) <==> |stream| >= 5 && stream[0] != 22
    ensures SniOf(stream) == Err(ReadFailed) <==>
      |stream| < 5 || (stream[0] == 22 && (RecordEnd(stream) > 4096 || RecordEnd(stream) > |stream|))
    ensures |stream| >= 5 && stream[0] == 22 && RecordEnd(stream) <= 4096 && RecordEnd(stream) <= |stream| ==>
      SniOf(stream) == ParseRecord(stream[..RecordEnd(stream)])
  {
    if |stream| >= 5 && RecordEnd(stream) <= |stream| { ErrorsMean(stream[..RecordEnd(stream)]); }
  }
}
