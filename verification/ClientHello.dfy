/** Big-endian fields, and the slicing facts the wire format needs. */
module Wire {

  type byte = x: int | 0 <= x < 256

  function U16(n: nat): (r: seq<byte>)
    requires n < 0x1_0000
  {
    [n / 256, n % 256]
  }

  function U24(n: nat): (r: seq<byte>)
    requires n < 0x100_0000
  {
    [n / 0x1_0000, n / 256 % 256, n % 256]
  }

  /** The byte at offset `i`, as a length. */
  function Read8(b: seq<byte>, i: nat): nat
    requires i < |b|
  {
    b[i] as int
  }

  /** The 16-bit number at offset `i`. */
  function Read16(b: seq<byte>, i: nat): nat
    requires i + 2 <= |b|
  {
    Read8(b, i) * 256 + Read8(b, i + 1)
  }

  /** The 24-bit number at offset `i`. */
  function Read24(b: seq<byte>, i: nat): nat
    requires i + 3 <= |b|
  {
    Read8(b, i) * 0x1_0000 + Read8(b, i + 1) * 256 + Read8(b, i + 2)
  }

  /** `b` carries `x` at offset `i`. */
  ghost predicate Holds(b: seq<byte>, i: nat, x: seq<byte>) {
    i + |x| <= |b| && forall k :: 0 <= k < |x| ==> b[i + k] == x[k]
  }

  lemma HoldsSlice(b: seq<byte>, i: nat, x: seq<byte>)
    requires Holds(b, i, x)
    ensures b[i..i + |x|] == x
  {}

  /** What `b` carries at `i` splits at any cut of the text. */
  lemma HoldsSplit(b: seq<byte>, i: nat, x: seq<byte>, y: seq<byte>)
    requires Holds(b, i, x + y)
    ensures Holds(b, i, x) && Holds(b, i + |x|, y)
  {
    forall k | 0 <= k < |x| ensures b[i + k] == x[k] { assert (x + y)[k] == x[k]; }
    forall k | 0 <= k < |y| ensures b[i + |x| + k] == y[k] { assert (x + y)[|x| + k] == y[k]; }
  }

  lemma Holds8(b: seq<byte>, i: nat, n: byte)
    requires Holds(b, i, [n])
    ensures Read8(b, i) == n
  {
    assert b[i + 0] == [n][0];
  }

  lemma Holds16(b: seq<byte>, i: nat, n: nat)
    requires n < 0x1_0000 && Holds(b, i, U16(n))
    ensures Read16(b, i) == n
  {
    assert b[i + 0] == U16(n)[0] && b[i + 1] == U16(n)[1];
  }

  lemma Holds24(b: seq<byte>, i: nat, n: nat)
    requires n < 0x100_0000 && Holds(b, i, U24(n))
    ensures Read24(b, i) == n
  {
    assert b[i + 0] == U24(n)[0] && b[i + 1] == U24(n)[1] && b[i + 2] == U24(n)[2];
  }
}

/** The hand-written server-name parser (proxy/https_interceptor.go, peekClientHelloSNI). */
module ClientHello {
  import opened Wire

  datatype HelloError =
    | ReadFailed
    | NotHandshake
    | TooShort
    | NotClientHello
    | HandshakeTruncated
    | TruncatedAtRandom
    | TruncatedAtSessionIdLen
    | TruncatedAtSessionId
    | TruncatedAtCipherSuitesLen
    | TruncatedAtCipherSuites
    | TruncatedAtCompressionLen
    | TruncatedAtCompression
    | TruncatedAtExtensions

  datatype Result<+T> = Ok(value: T) | Err(error: HelloError)

  /** The name loop: skip names of other types, stop at the first host_name or at a name that overruns. */
  function ScanNames(b: seq<byte>, pos: nat, endNames: nat): seq<byte>
    requires endNames <= |b|
    decreases endNames - pos
  {
    if pos + 3 > endNames then []
    else
      var nameLen := Read16(b, pos + 1);
      if pos + 3 + nameLen > endNames then []
      else if b[pos] == 0 then b[pos + 3..pos + 3 + nameLen]
      else ScanNames(b, pos + 3 + nameLen, endNames)
  }

  /** The extension loop: skip to the first extension of type 0. */
  function ScanExtensions(b: seq<byte>, offset: nat, endExt: nat): seq<byte>
    requires endExt <= |b|
    decreases endExt - offset
  {
    if offset + 4 > endExt then []
    else
      var el := Read16(b, offset + 2);
      if offset + 4 + el > |b| then []
      else if Read16(b, offset) == 0 then
        if el < 2 then [] else ScanNames(b, offset + 6, offset + 4 + el)
      else ScanExtensions(b, offset + 4 + el, endExt)
  }

  /** The walk over the peeked record, field by field; each stage starts at the offset the last one left. */
  function ParseRecord(b: seq<byte>): Result<seq<byte>> {
    if |b| < 9 then Err(TooShort)
    else if b[5] != 1 then Err(NotClientHello)
    else if 9 + Read24(b, 6) > |b| then Err(HandshakeTruncated)
    else if 9 + 34 > |b| then Err(TruncatedAtRandom)
    else ParseSessionId(b, 43)
  }

  function ParseSessionId(b: seq<byte>, o: nat): Result<seq<byte>> {
    if o + 1 > |b| then Err(TruncatedAtSessionIdLen)
    else if o + 1 + Read8(b, o) > |b| then Err(TruncatedAtSessionId)
    else ParseCipherSuites(b, o + 1 + Read8(b, o))
  }

  function ParseCipherSuites(b: seq<byte>, o: nat): Result<seq<byte>> {
    if o + 2 > |b| then Err(TruncatedAtCipherSuitesLen)
    else if o + 2 + Read16(b, o) > |b| then Err(TruncatedAtCipherSuites)
    else ParseCompression(b, o + 2 + Read16(b, o))
  }

  function ParseCompression(b: seq<byte>, o: nat): Result<seq<byte>> {
    if o + 1 > |b| then Err(TruncatedAtCompressionLen)
    else if o + 1 + Read8(b, o) > |b| then Err(TruncatedAtCompression)
    else ParseExtensions(b, o + 1 + Read8(b, o))
  }

  function ParseExtensions(b: seq<byte>, o: nat): Result<seq<byte>> {
    if o + 2 > |b| then Ok([])
    else if o + 2 + Read16(b, o) > |b| then Err(TruncatedAtExtensions)
    else Ok(ScanExtensions(b, o + 2, o + 2 + Read16(b, o)))
  }

  /** The parser as the source runs it: an offset pushed through the buffer. */
  method ParseRecordLoop(b: seq<byte>) returns (r: Result<seq<byte>>)
    ensures r == ParseRecord(b)
  {
    if |b| < 9 { return Err(TooShort); }
    if b[5] != 1 { return Err(NotClientHello); }
    var hsLen := Read24(b, 6);
    if 9 + hsLen > |b| { return Err(HandshakeTruncated); }
    var offset: nat := 9;
    if offset + 34 > |b| { return Err(TruncatedAtRandom); }
    offset := offset + 34;
    assert ParseRecord(b) == ParseSessionId(b, offset);
    if offset + 1 > |b| { return Err(TruncatedAtSessionIdLen); }
    var sidLen := Read8(b, offset);
    offset := offset + 1;
    if offset + sidLen > |b| { return Err(TruncatedAtSessionId); }
    offset := offset + sidLen;
    assert ParseRecord(b) == ParseCipherSuites(b, offset);
    if offset + 2 > |b| { return Err(TruncatedAtCipherSuitesLen); }
    var csLen := Read16(b, offset);
    offset := offset + 2;
    if offset + csLen > |b| { return Err(TruncatedAtCipherSuites); }
    offset := offset + csLen;
    assert ParseRecord(b) == ParseCompression(b, offset);
    if offset + 1 > |b| { return Err(TruncatedAtCompressionLen); }
    var compLen := Read8(b, offset);
    offset := offset + 1;
    if offset + compLen > |b| { return Err(TruncatedAtCompression); }
    offset := offset + compLen;
    assert ParseRecord(b) == ParseExtensions(b, offset);
    if offset + 2 > |b| { return Ok([]); }
    var extLen := Read16(b, offset);
    offset := offset + 2;
    if offset + extLen > |b| { return Err(TruncatedAtExtensions); }
    var sni := ScanExtensionsLoop(b, offset, offset + extLen);
    return Ok(sni);
  }

  /** The two nested loops; every turn of either moves its offset forward. */
  method ScanExtensionsLoop(b: seq<byte>, start: nat, endExt: nat) returns (sni: seq<byte>)
    requires endExt <= |b|
    ensures sni == ScanExtensions(b, start, endExt)
  {
    var offset := start;
    while offset + 4 <= endExt
      invariant ScanExtensions(b, start, endExt) == ScanExtensions(b, offset, endExt)
      decreases endExt - offset
    {
      var extType := Read16(b, offset);
      var el := Read16(b, offset + 2);
      offset := offset + 4;
      if offset + el > |b| { return []; }
      if extType == 0 {
        if el < 2 { return []; }
        var pos := offset + 2;
        var endNames := offset + el;
        while pos + 3 <= endNames
          invariant ScanExtensions(b, start, endExt) == ScanNames(b, pos, endNames)
          decreases endNames - pos
        {
          var nameType := b[pos];
          var nameLen := Read16(b, pos + 1);
          pos := pos + 3;
          if pos + nameLen > endNames { return []; }
          if nameType == 0 { return b[pos..pos + nameLen]; }
          pos := pos + nameLen;
        }
        return [];
      }
      offset := offset + el;
    }
    return [];
  }

  // ---------- arbitrary bytes ----------

  /** `name` is the body of a host_name entry that lies wholly inside [lo, hi). */
  ghost predicate HostNameWithin(b: seq<byte>, name: seq<byte>, lo: nat, hi: nat) {
    exists pos: nat ::
      && lo <= pos && pos + 3 + |name| <= hi <= |b|
      && b[pos] == 0 && Read16(b, pos + 1) == |name|
      && Holds(b, pos + 3, name)
  }

  /** `name` comes out of the data of an extension of type 0 whose header is at `ext`. */
  ghost predicate FromServerName(b: seq<byte>, name: seq<byte>, ext: nat) {
    && ext + 4 <= |b|
    && Read16(b, ext) == 0
    && 2 <= Read16(b, ext + 2)
    && HostNameWithin(b, name, ext + 6, ext + 4 + Read16(b, ext + 2))
  }

  lemma {:induction false} NamesSound(b: seq<byte>, pos: nat, endNames: nat)
    requires endNames <= |b|
    requires ScanNames(b, pos, endNames) != []
    ensures HostNameWithin(b, ScanNames(b, pos, endNames), pos, endNames)
    decreases endNames - pos
  {
    var nameLen := Read16(b, pos + 1);
    if b[pos] == 0 {
      assert Holds(b, pos + 3, ScanNames(b, pos, endNames));
    } else {
      NamesSound(b, pos + 3 + nameLen, endNames);
    }
  }

  /** The walk over the extensions from `offset`, led by their length fields, arrives at a header at `ext`. */
  ghost predicate HeaderAt(b: seq<byte>, offset: nat, endExt: nat, ext: nat)
    decreases endExt - offset
  {
    && offset + 4 <= endExt <= |b|
    && (ext == offset || (Read16(b, offset) != 0 && HeaderAt(b, offset + 4 + Read16(b, offset + 2), endExt, ext)))
  }

  lemma {:induction false} ExtensionsSound(b: seq<byte>, offset: nat, endExt: nat) returns (ext: nat)
    requires endExt <= |b|
    requires ScanExtensions(b, offset, endExt) != []
    ensures HeaderAt(b, offset, endExt, ext) && FromServerName(b, ScanExtensions(b, offset, endExt), ext)
    decreases endExt - offset
  {
    var el := Read16(b, offset + 2);
    if Read16(b, offset) == 0 {
      ext := offset;
      NamesSound(b, offset + 6, offset + 4 + el);
    } else {
      ext := ExtensionsSound(b, offset + 4 + el, endExt);
    }
  }

  /** Where the list of extensions starts, behind the three fields before it and its own length. */
  function ExtensionsStart(b: seq<byte>): (o: nat)
    requires ParseRecord(b).Ok? && ParseRecord(b).value != []
    ensures 49 <= o <= |b|
  {
    var o1 := 44 + Read8(b, 43);
    var o2 := o1 + 2 + Read16(b, o1);
    o2 + 1 + Read8(b, o2) + 2
  }

  /** Where the list of extensions says it ends. */
  function ExtensionsEnd(b: seq<byte>): (e: nat)
    requires ParseRecord(b).Ok? && ParseRecord(b).value != []
    ensures ExtensionsStart(b) <= e <= |b|
  {
    ExtensionsStart(b) + Read16(b, ExtensionsStart(b) - 2)
  }

  /**
   * On any bytes at all, a non-empty answer is a host_name entry of a server_name extension that the walk arrives at.
   */
  lemma ParsedNameIsInServerName(b: seq<byte>) returns (ext: nat)
    requires ParseRecord(b).Ok? && ParseRecord(b).value != []
    ensures HeaderAt(b, ExtensionsStart(b), ExtensionsEnd(b), ext) && FromServerName(b, ParseRecord(b).value, ext)
  {
    ext := ExtensionsSound(b, ExtensionsStart(b), ExtensionsEnd(b));
  }

  // ---------- the end of the extension list ----------

  /** The scan that also stops at an extension that overruns the list it is in. */
  function ScanWithin(b: seq<byte>, offset: nat, endExt: nat): seq<byte>
    requires endExt <= |b|
    decreases endExt - offset
  {
    if offset + 4 > endExt || offset + 4 + Read16(b, offset + 2) > endExt then []
    else if Read16(b, offset) != 0 then ScanWithin(b, offset + 4 + Read16(b, offset + 2), endExt)
    else if Read16(b, offset + 2) < 2 then []
    else ScanNames(b, offset + 6, offset + 4 + Read16(b, offset + 2))
  }

  /** A walk arrives at one header of type 0 at most. */
  lemma {:induction false} OneHeader(b: seq<byte>, offset: nat, endExt: nat, x: nat, y: nat)
    requires HeaderAt(b, offset, endExt, x) && HeaderAt(b, offset, endExt, y)
    requires x + 2 <= |b| && y + 2 <= |b| && Read16(b, x) == 0 && Read16(b, y) == 0
    ensures x == y
    decreases endExt - offset
  {
    if Read16(b, offset) != 0 { OneHeader(b, offset + 4 + Read16(b, offset + 2), endExt, x, y); }
  }

  lemma {:induction false} HeaderInside(b: seq<byte>, offset: nat, endExt: nat, ext: nat)
    requires HeaderAt(b, offset, endExt, ext)
    ensures offset <= ext && ext + 4 <= endExt <= |b|
    decreases endExt - offset
  {
    if ext != offset { HeaderInside(b, offset + 4 + Read16(b, offset + 2), endExt, ext); }
  }

  lemma {:induction false} ScanWithinIff(b: seq<byte>, offset: nat, endExt: nat, ext: nat)
    requires endExt <= |b| && ScanExtensions(b, offset, endExt) != []
    requires HeaderAt(b, offset, endExt, ext) && ext + 4 <= |b| && Read16(b, ext) == 0
    ensures ScanWithin(b, offset, endExt) ==
      if ext + 4 + Read16(b, ext + 2) <= endExt then ScanExtensions(b, offset, endExt) else []
    decreases endExt - offset
  {
    var next := offset + 4 + Read16(b, offset + 2);
    if ext != offset {
      HeaderInside(b, next, endExt, ext);
      ScanWithinIff(b, next, endExt, ext);
    }
  }

  /**
   * The source bounds an extension by the buffer and not by the list it is in. A non-empty answer is the one a scan
   * that minds the end of the list gives if and only if the answering extension, the only one of type 0 the walk
   * arrives at, ends where the list does or before.
   */
  lemma AnswerInListIff(b: seq<byte>, ext: nat)
    requires ParseRecord(b).Ok? && ParseRecord(b).value != []
    requires HeaderAt(b, ExtensionsStart(b), ExtensionsEnd(b), ext) && ext + 4 <= |b| && Read16(b, ext) == 0
    ensures FromServerName(b, ParseRecord(b).value, ext)
    ensures ScanWithin(b, ExtensionsStart(b), ExtensionsEnd(b)) == ParseRecord(b).value <==>
      ext + 4 + Read16(b, ext + 2) <= ExtensionsEnd(b)
  {
    var x := ParsedNameIsInServerName(b);
    OneHeader(b, ExtensionsStart(b), ExtensionsEnd(b), x, ext);
    ScanWithinIff(b, ExtensionsStart(b), ExtensionsEnd(b), ext);
  }

  /** A hello whose list of extensions is four bytes long, all taken by the header of a server_name extension of six. */
  const OVERRUNNING: seq<byte> :=
    [22, 3, 1, 0, 53, 1, 0, 0, 49, 3, 3] +
    [0, 0, 0, 0, 0, 0, 0, 0, 0, 0, 0, 0, 0, 0, 0, 0, 0, 0, 0, 0, 0, 0, 0, 0, 0, 0, 0, 0, 0, 0, 0, 0] +
    [0, 0, 0, 0, 0, 4, 0, 0, 0, 6, 0, 4, 0, 0, 1, 97]

  /** It is answered from behind the list: by "a", at offset 58, though the list ends at 53. */
  lemma AnswerFromBehindTheList()
    ensures var b := OVERRUNNING;
      && ParseRecord(b) == Ok([97]) && ExtensionsStart(b) == 49 && ExtensionsEnd(b) == 53
      && HeaderAt(b, 49, 53, 49) && 49 + 4 + Read16(b, 51) == 59 == |b| && ScanWithin(b, 49, 53) == []
  {
    var b := OVERRUNNING;
    assert |b| == 59 && b[5] == 1 && b[6] == 0 && b[7] == 0 && b[8] == 49;
    assert b[43] == 0 && b[44] == 0 && b[45] == 0 && b[46] == 0 && b[47] == 0 && b[48] == 4;
    assert b[49] == 0 && b[50] == 0 && b[51] == 0 && b[52] == 6;
    assert b[55] == 0 && b[56] == 0 && b[57] == 1 && b[58] == 97;
    assert ScanNames(b, 55, 59) == b[58..59] == [97];
    assert ScanExtensions(b, 49, 53) == [97];
    assert ParseExtensions(b, 47) == Ok([97]);
    assert ParseCompression(b, 46) == Ok([97]);
    assert ParseCipherSuites(b, 44) == Ok([97]);
    assert ParseSessionId(b, 43) == Ok([97]);
  }
}

/** A printer for well-formed hellos: RFC 8446 sections 4.1.2 and 5.1, RFC 6066 section 3. */
module HelloPrinter {
  import opened Wire
  import opened ClientHello

  datatype ServerName = ServerName(nameType: byte, name: seq<byte>)

  datatype Extension =
    | ServerNames(names: seq<ServerName>)
    | Other(extType: nat, data: seq<byte>)

  datatype Hello = Hello(
    version: seq<byte>,
    random: seq<byte>,
    sessionId: seq<byte>,
    cipherSuites: seq<byte>,
    compression: seq<byte>,
    extensions: seq<Extension>,
    hasExtensions: bool)

  function PrintName(n: ServerName): seq<byte>
    requires |n.name| < 0x1_0000
  {
    [n.nameType] + U16(|n.name|) + n.name
  }

  function PrintNames(ns: seq<ServerName>): seq<byte>
    requires forall n <- ns :: |n.name| < 0x1_0000
  {
    if ns == [] then [] else PrintName(ns[0]) + PrintNames(ns[1..])
  }

  predicate ValidExtension(e: Extension) {
    match e
    case ServerNames(ns) => (forall n <- ns :: |n.name| < 0x1_0000) && |PrintNames(ns)| + 2 < 0x1_0000
    case Other(t, d) => 0 < t < 0x1_0000 && |d| < 0x1_0000
  }

  function ExtensionData(e: Extension): seq<byte>
    requires ValidExtension(e)
  {
    match e
    case ServerNames(ns) => U16(|PrintNames(ns)|) + PrintNames(ns)
    case Other(_, d) => d
  }

  function ExtensionType(e: Extension): nat {
    match e
    case ServerNames(_) => 0
    case Other(t, _) => t
  }

  function PrintExtension(e: Extension): seq<byte>
    requires ValidExtension(e)
  {
    U16(ExtensionType(e)) + U16(|ExtensionData(e)|) + ExtensionData(e)
  }

  function PrintExtensions(es: seq<Extension>): seq<byte>
    requires forall e <- es :: ValidExtension(e)
  {
    if es == [] then [] else PrintExtension(es[0]) + PrintExtensions(es[1..])
  }

  function ExtensionBlock(h: Hello): seq<byte>
    requires forall e <- h.extensions :: ValidExtension(e)
    requires |PrintExtensions(h.extensions)| < 0x1_0000
  {
    if h.hasExtensions then U16(|PrintExtensions(h.extensions)|) + PrintExtensions(h.extensions) else []
  }

  predicate ValidHello(h: Hello) {
    && |h.version| == 2
    && |h.random| == 32
    && |h.sessionId| <= 32
    && |h.cipherSuites| < 0x1_0000
    && |h.compression| < 256
    && (forall e <- h.extensions :: ValidExtension(e))
    && |PrintExtensions(h.extensions)| < 0x1_0000
    && (!h.hasExtensions ==> h.extensions == [])
  }

  /** The body from the compression field on; the next two add the fields before it. */
  function FromCompression(h: Hello): seq<byte>
    requires ValidHello(h)
  {
    [|h.compression|] + (h.compression + ExtensionBlock(h))
  }

  function FromCipherSuites(h: Hello): seq<byte>
    requires ValidHello(h)
  {
    U16(|h.cipherSuites|) + (h.cipherSuites + FromCompression(h))
  }

  function FromSessionId(h: Hello): seq<byte>
    requires ValidHello(h)
  {
    [|h.sessionId|] + (h.sessionId + FromCipherSuites(h))
  }

  function PrintBody(h: Hello): seq<byte>
    requires ValidHello(h)
  {
    h.version + (h.random + FromSessionId(h))
  }

  /** One handshake record holding one ClientHello; `recordVersion` is the legacy version of section 5.1. */
  function PrintRecord(h: Hello, recordVersion: seq<byte>): seq<byte>
    requires ValidHello(h) && |recordVersion| == 2 && |PrintBody(h)| + 4 < 0x1_0000
  {
    [22] + recordVersion + U16(|PrintBody(h)| + 4) + ([1] + (U24(|PrintBody(h)|) + PrintBody(h)))
  }

  /** The host_name the client asked for: that of the first server_name extension, if it lists one. */
  function FirstHostName(ns: seq<ServerName>): seq<byte> {
    if ns == [] then [] else if ns[0].nameType == 0 then ns[0].name else FirstHostName(ns[1..])
  }

  function RequestedHost(es: seq<Extension>): seq<byte> {
    if es == [] then []
    else if es[0].ServerNames? then FirstHostName(es[0].names)
    else RequestedHost(es[1..])
  }

  /** The entry the scanner sees where a name was printed. */
  lemma NameEntry(b: seq<byte>, pos: nat, n: ServerName)
    requires |n.name| < 0x1_0000 && Holds(b, pos, PrintName(n))
    ensures b[pos] == n.nameType && Read16(b, pos + 1) == |n.name| && Holds(b, pos + 3, n.name)
  {
    assert PrintName(n) == [n.nameType] + (U16(|n.name|) + n.name);
    HoldsSplit(b, pos, [n.nameType], U16(|n.name|) + n.name);
    HoldsSplit(b, pos + 1, U16(|n.name|), n.name);
    Holds8(b, pos, n.nameType);
    Holds16(b, pos + 1, |n.name|);
  }

  lemma {:induction false} ScanNamesUndoesPrint(b: seq<byte>, pos: nat, ns: seq<ServerName>, endNames: nat)
    requires forall n <- ns :: |n.name| < 0x1_0000
    requires Holds(b, pos, PrintNames(ns)) && endNames == pos + |PrintNames(ns)|
    ensures ScanNames(b, pos, endNames) == FirstHostName(ns)
    decreases |ns|
  {
    if ns != [] {
      HoldsSplit(b, pos, PrintName(ns[0]), PrintNames(ns[1..]));
      NameEntry(b, pos, ns[0]);
      HoldsSlice(b, pos + 3, ns[0].name);
      if ns[0].nameType != 0 {
        ScanNamesUndoesPrint(b, pos + |PrintName(ns[0])|, ns[1..], endNames);
      }
    }
  }

  /** The header the scanner sees where an extension was printed. */
  lemma ExtensionHeader(b: seq<byte>, offset: nat, e: Extension)
    requires ValidExtension(e) && Holds(b, offset, PrintExtension(e))
    ensures Read16(b, offset) == ExtensionType(e) && Read16(b, offset + 2) == |ExtensionData(e)|
    ensures Holds(b, offset + 4, ExtensionData(e))
  {
    var d := ExtensionData(e);
    assert PrintExtension(e) == U16(ExtensionType(e)) + (U16(|d|) + d);
    HoldsSplit(b, offset, U16(ExtensionType(e)), U16(|d|) + d);
    HoldsSplit(b, offset + 2, U16(|d|), d);
    Holds16(b, offset, ExtensionType(e));
    Holds16(b, offset + 2, |d|);
  }

  /** Where the parts of a printed list are: the header and the data of the first extension, then the rest. */
  lemma FirstExtension(b: seq<byte>, offset: nat, es: seq<Extension>) returns (el: nat)
    requires forall e <- es :: ValidExtension(e)
    requires es != [] && Holds(b, offset, PrintExtensions(es))
    ensures ValidExtension(es[0]) && el == |ExtensionData(es[0])|
    ensures offset + 4 + el <= |b| && Read16(b, offset) == ExtensionType(es[0]) && Read16(b, offset + 2) == el
    ensures Holds(b, offset + 4, ExtensionData(es[0])) && Holds(b, offset + 4 + el, PrintExtensions(es[1..]))
    ensures |PrintExtensions(es)| == 4 + el + |PrintExtensions(es[1..])|
  {
    HoldsSplit(b, offset, PrintExtension(es[0]), PrintExtensions(es[1..]));
    ExtensionHeader(b, offset, es[0]);
    el := |ExtensionData(es[0])|;
  }

  /** The list of names in a printed server_name extension. */
  lemma NamesWithin(b: seq<byte>, o: nat, e: Extension)
    requires ValidExtension(e) && e.ServerNames? && Holds(b, o, ExtensionData(e))
    ensures |ExtensionData(e)| >= 2 && ScanNames(b, o + 2, o + |ExtensionData(e)|) == FirstHostName(e.names)
  {
    HoldsSplit(b, o, U16(|PrintNames(e.names)|), PrintNames(e.names));
    ScanNamesUndoesPrint(b, o + 2, e.names, o + |ExtensionData(e)|);
  }

  /** One turn of the extension loop. */
  lemma ScanOneExtension(b: seq<byte>, offset: nat, endExt: nat, el: nat)
    requires offset + 4 + el <= endExt <= |b| && Read16(b, offset + 2) == el && (Read16(b, offset) == 0 ==> el >= 2)
    ensures ScanExtensions(b, offset, endExt) ==
      if Read16(b, offset) == 0 then ScanNames(b, offset + 6, offset + 4 + el)
      else ScanExtensions(b, offset + 4 + el, endExt)
  {}

  /** `b` carries the extensions, read by their headers, from `offset` to `endExt`. */
  ghost predicate Laid(b: seq<byte>, offset: nat, es: seq<Extension>, endExt: nat)
    decreases |es|
  {
    if es == [] then offset == endExt
    else
      && offset + 4 <= endExt <= |b|
      && var el := Read16(b, offset + 2);
      && offset + 4 + el <= endExt && Read16(b, offset) == ExtensionType(es[0])
      && (es[0].ServerNames? ==> el >= 2 && ScanNames(b, offset + 6, offset + 4 + el) == FirstHostName(es[0].names))
      && Laid(b, offset + 4 + el, es[1..], endExt)
  }

  lemma {:induction false} PrintIsLaid(b: seq<byte>, offset: nat, es: seq<Extension>, endExt: nat)
    requires forall e <- es :: ValidExtension(e)
    requires Holds(b, offset, PrintExtensions(es)) && endExt == offset + |PrintExtensions(es)|
    ensures Laid(b, offset, es, endExt)
    decreases |es|
  {
    if es != [] {
      var el := FirstExtension(b, offset, es);
      if es[0].ServerNames? { NamesWithin(b, offset + 4, es[0]); }
      PrintIsLaid(b, offset + 4 + el, es[1..], endExt);
    }
  }

  lemma {:induction false} ScanLaid(b: seq<byte>, offset: nat, es: seq<Extension>, endExt: nat)
    requires (forall e <- es :: 0 < ExtensionType(e) || e.ServerNames?) && endExt <= |b| && Laid(b, offset, es, endExt)
    ensures ScanExtensions(b, offset, endExt) == RequestedHost(es)
    decreases |es|
  {
    if es != [] {
      var el := Read16(b, offset + 2);
      ScanOneExtension(b, offset, endExt, el);
      if es[0].Other? { ScanLaid(b, offset + 4 + el, es[1..], endExt); }
    }
  }

  /** Scanning a printed list of extensions answers with the host its first server_name extension names. */
  lemma ScanExtensionsUndoesPrint(b: seq<byte>, offset: nat, es: seq<Extension>, endExt: nat)
    requires forall e <- es :: ValidExtension(e)
    requires Holds(b, offset, PrintExtensions(es)) && endExt == offset + |PrintExtensions(es)|
    ensures ScanExtensions(b, offset, endExt) == RequestedHost(es)
  {
    PrintIsLaid(b, offset, es, endExt);
    ScanLaid(b, offset, es, endExt);
  }

  /** A field with a one-byte length: what follows it starts right behind. */
  lemma Field8(b: seq<byte>, o: nat, x: seq<byte>, rest: seq<byte>)
    requires |x| < 256 && Holds(b, o, [|x|] + (x + rest))
    ensures Read8(b, o) == |x| && Holds(b, o + 1 + |x|, rest)
  {
    HoldsSplit(b, o, [|x|], x + rest);
    Holds8(b, o, |x|);
    HoldsSplit(b, o + 1, x, rest);
  }

  /** The same for a two-byte length. */
  lemma Field16(b: seq<byte>, o: nat, x: seq<byte>, rest: seq<byte>)
    requires |x| < 0x1_0000 && Holds(b, o, U16(|x|) + (x + rest))
    ensures Read16(b, o) == |x| && Holds(b, o + 2 + |x|, rest)
  {
    HoldsSplit(b, o, U16(|x|), x + rest);
    Holds16(b, o, |x|);
    HoldsSplit(b, o + 2, x, rest);
  }

  /** The extensions, where they start in a buffer that ends with them. */
  lemma StageExtensions(b: seq<byte>, o: nat, h: Hello)
    requires ValidHello(h) && Holds(b, o, ExtensionBlock(h)) && |b| == o + |ExtensionBlock(h)|
    ensures ParseExtensions(b, o) == Ok(RequestedHost(h.extensions))
  {
    if h.hasExtensions {
      var es := PrintExtensions(h.extensions);
      assert U16(|es|) + es == U16(|es|) + (es + []);
      Field16(b, o, es, []);
      HoldsSplit(b, o, U16(|es|), es);
      ScanExtensionsUndoesPrint(b, o + 2, h.extensions, |b|);
    }
  }

  /** Where the fields of a body are, from the session id on. */
  lemma Fields(b: seq<byte>, o: nat, h: Hello) returns (p: nat, q: nat, r: nat)
    requires ValidHello(h) && Holds(b, o, FromSessionId(h)) && |b| == o + |FromSessionId(h)|
    ensures o < p && p + 2 <= q && q < r && |b| == r + |ExtensionBlock(h)| && Holds(b, r, ExtensionBlock(h))
    ensures Read8(b, o) == p - o - 1 && Read16(b, p) == q - p - 2 && Read8(b, q) == r - q - 1
  {
    p := o + 1 + |h.sessionId|;
    q := p + 2 + |h.cipherSuites|;
    r := q + 1 + |h.compression|;
    Field8(b, o, h.sessionId, FromCipherSuites(h));
    Field16(b, p, h.cipherSuites, FromCompression(h));
    Field8(b, q, h.compression, ExtensionBlock(h));
  }

  /** The parser skips the three fields by their lengths. */
  lemma SkipFields(b: seq<byte>, o: nat, p: nat, q: nat, r: nat)
    requires o < p && p + 2 <= q && q < r <= |b|
    requires Read8(b, o) == p - o - 1 && Read16(b, p) == q - p - 2 && Read8(b, q) == r - q - 1
    ensures ParseSessionId(b, o) == ParseExtensions(b, r)
  {}

  lemma BodyUndoesPrint(b: seq<byte>, o: nat, h: Hello)
    requires ValidHello(h) && Holds(b, o, FromSessionId(h)) && |b| == o + |FromSessionId(h)|
    ensures ParseSessionId(b, o) == Ok(RequestedHost(h.extensions))
  {
    var p, q, r := Fields(b, o, h);
    SkipFields(b, o, p, q, r);
    StageExtensions(b, r, h);
  }

  /** Parsing the printed record gives back the requested host, whatever the other fields are. */
  lemma ParseUndoesPrint(h: Hello, recordVersion: seq<byte>)
    requires ValidHello(h) && |recordVersion| == 2 && |PrintBody(h)| + 4 < 0x1_0000
    ensures ParseRecord(PrintRecord(h, recordVersion)) == Ok(RequestedHost(h.extensions))
  {
    var b := PrintRecord(h, recordVersion);
    var body := PrintBody(h);
    var head := [22] + recordVersion + U16(|body| + 4);
    assert Holds(b, 5, [1] + (U24(|body|) + body));
    HoldsSplit(b, 5, [1], U24(|body|) + body);
    HoldsSplit(b, 6, U24(|body|), body);
    Holds24(b, 6, |body|);
    assert b[5] == 1;
    HoldsSplit(b, 9, h.version, h.random + FromSessionId(h));
    HoldsSplit(b, 11, h.random, FromSessionId(h));
    BodyUndoesPrint(b, 43, h);
  }
}
