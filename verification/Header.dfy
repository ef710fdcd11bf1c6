/** The QPEP header: two type bytes, then address and port of source and destination. */
module Header {
  import opened Basics

  const PREAMBLE_LENGTH: nat := 2
  const IPV4_LENGTH: nat := 4
  const IPV6_LENGTH: nat := 16
  const MAPPED_PREFIX: seq<byte> := Zeros(10) + [0xff, 0xff]

  // An IP is Go's net.IP: a byte slice whose length is not checked by its type.
  datatype Addr = Addr(ip: seq<byte>, port: int)
  datatype QpepHeader = QpepHeader(source: Addr, dest: Addr)

  // ---- net.IP ----

  predicate IsMapped(ip: seq<byte>) {
    |ip| == IPV6_LENGTH && ip[..12] == MAPPED_PREFIX
  }

  function To4(ip: seq<byte>): Option<seq<byte>> {
    if |ip| == IPV4_LENGTH then Some(ip)
    else if IsMapped(ip) then Some(ip[12..])
    else None
  }

  function To16(ip: seq<byte>): Option<seq<byte>> {
    if |ip| == IPV4_LENGTH then Some(MAPPED_PREFIX + ip)
    else if |ip| == IPV6_LENGTH then Some(ip)
    else None
  }

  predicate ValidIp(ip: seq<byte>) {
    |ip| == IPV4_LENGTH || |ip| == IPV6_LENGTH
  }

  predicate ValidAddr(a: Addr) {
    ValidIp(a.ip) && 0 <= a.port < 0x1_0000
  }

  predicate ValidHeader(h: QpepHeader) {
    ValidAddr(h.source) && ValidAddr(h.dest)
  }

  // The form an address has after one trip: IPv4-mapped addresses become four bytes.
  function CanonicalAddr(a: Addr): Addr {
    match To4(a.ip)
    case Some(v4) => a.(ip := v4)
    case None => a
  }

  function Canonical(h: QpepHeader): QpepHeader {
    QpepHeader(CanonicalAddr(h.source), CanonicalAddr(h.dest))
  }

  // ---- printing ----

  function NetworkType(a: Addr): byte {
    if To4(a.ip).Some? then 0x04
    else if To16(a.ip).Some? then 0x06
    else 0x00
  }

  function Bytes(ip: Option<seq<byte>>): seq<byte> {
    if ip.Some? then ip.value else []
  }

  function IpToBytes(ip: seq<byte>, addrType: byte): seq<byte> {
    if addrType == 0x04 then Bytes(To4(ip)) else Bytes(To16(ip))
  }

  // uint16(port), little endian
  function PortToBytes(port: int): seq<byte> {
    var p := port % 0x1_0000;
    [p % 256, p / 256]
  }

  function AddrToBytes(a: Addr): seq<byte> {
    IpToBytes(a.ip, NetworkType(a)) + PortToBytes(a.port)
  }

  function Encode(h: QpepHeader): seq<byte> {
    [NetworkType(h.source), NetworkType(h.dest)] + AddrToBytes(h.source) + AddrToBytes(h.dest)
  }

  // ---- parsing ----

  function IpLength(addrType: byte): nat {
    if addrType == 0x04 then IPV4_LENGTH else IPV6_LENGTH
  }

  function BodyLength(sourceType: byte, destType: byte): nat {
    IpLength(sourceType) + 2 + IpLength(destType) + 2
  }

  function HeaderLength(sourceType: byte, destType: byte): nat {
    PREAMBLE_LENGTH + BodyLength(sourceType, destType)
  }

  function Uint16(b: seq<byte>): int
    requires |b| == 2
  {
    var low: int, high: int := b[0], b[1];
    low + 256 * high
  }

  function AddrFromBytes(b: seq<byte>): Addr
    requires |b| >= 2
  {
    Addr(b[..|b| - 2], Uint16(b[|b| - 2..]))
  }

  // What the second half of GetQpepHeader makes of the bytes after the preamble.
  function DecodeBody(sourceType: byte, destType: byte, body: seq<byte>): QpepHeader
    requires |body| == BodyLength(sourceType, destType)
  {
    var cut := IpLength(sourceType) + 2;
    QpepHeader(AddrFromBytes(body[..cut]), AddrFromBytes(body[cut..]))
  }

  // The parser over a complete buffer: the header and the number of bytes it takes up.
  function Decode(b: seq<byte>): Option<(QpepHeader, nat)> {
    if |b| < PREAMBLE_LENGTH then None
    else
      var length := HeaderLength(b[0], b[1]);
      if |b| < length then None
      else Some((DecodeBody(b[0], b[1], b[PREAMBLE_LENGTH..length]), length))
  }

  // QpepHeaderFromBytes, given where the source address ends; None is an index or slice out of range.
  // The second component is the end offset of the bytes it reads.
  function SliceFrom(b: seq<byte>, sourceIpEnd: nat): Option<(QpepHeader, nat)>
    requires |b| >= PREAMBLE_LENGTH && sourceIpEnd >= PREAMBLE_LENGTH
  {
    var sourcePortEnd := sourceIpEnd + 2;
    var destIpEnd := sourcePortEnd + IpLength(b[1]);
    var destPortEnd := destIpEnd + 2;
    if |b| < destPortEnd then None
    else Some((QpepHeader(Addr(b[PREAMBLE_LENGTH..sourceIpEnd], Uint16(b[sourceIpEnd..sourcePortEnd])),
                          Addr(b[sourcePortEnd..destIpEnd], Uint16(b[destIpEnd..destPortEnd]))),
               destPortEnd))
  }

  // As written: for an IPv4 source the preamble's length is multiplied by the address's.
  function FromBytes(b: seq<byte>): Option<(QpepHeader, nat)> {
    if |b| < PREAMBLE_LENGTH then None
    else SliceFrom(b, if b[0] == 0x04 then PREAMBLE_LENGTH * IPV4_LENGTH else PREAMBLE_LENGTH + IPV6_LENGTH)
  }

  // As intended: the two lengths are added.
  function FromBytesAdding(b: seq<byte>): Option<(QpepHeader, nat)> {
    if |b| < PREAMBLE_LENGTH then None
    else SliceFrom(b, if b[0] == 0x04 then PREAMBLE_LENGTH + IPV4_LENGTH else PREAMBLE_LENGTH + IPV6_LENGTH)
  }

  // ---- properties of one address ----

  // The two bytes of a port are the only ones that read back as the port modulo 65536.
  lemma PortRoundTrip(port: int, b: seq<byte>)
    requires |b| == 2
    ensures Uint16(b) == port % 0x1_0000 <==> b == PortToBytes(port)
  {
  }

  lemma AddrRoundTrip(a: Addr)
    requires ValidAddr(a)
    ensures |AddrToBytes(a)| == IpLength(NetworkType(a)) + 2
    ensures AddrFromBytes(AddrToBytes(a)) == CanonicalAddr(a)
  {
  }

  // The address bytes of a type that the printer can have produced.
  predicate CanonicalBytes(addrType: byte, ip: seq<byte>) {
    addrType == 0x04 || (addrType == 0x06 && !IsMapped(ip))
  }

  lemma AddrReencodes(addrType: byte, b: seq<byte>)
    requires |b| == IpLength(addrType) + 2
    ensures var a := AddrFromBytes(b);
            (NetworkType(a) == addrType && AddrToBytes(a) == b) <==> CanonicalBytes(addrType, a.ip)
  {
  }

  // ---- main results ----

  lemma EncodeParts(h: QpepHeader)
    requires ValidHeader(h)
    ensures |Encode(h)| == HeaderLength(NetworkType(h.source), NetworkType(h.dest)) ==
        HeaderLength(Encode(h)[0], Encode(h)[1])
    ensures DecodeBody(Encode(h)[0], Encode(h)[1], Encode(h)[PREAMBLE_LENGTH..]) == Canonical(h)
  {
    AddrRoundTrip(h.source);
    AddrRoundTrip(h.dest);
    var body := Encode(h)[PREAMBLE_LENGTH..];
    var cut := IpLength(NetworkType(h.source)) + 2;
    assert body == AddrToBytes(h.source) + AddrToBytes(h.dest);
    assert body[..cut] == AddrToBytes(h.source);
    assert body[cut..] == AddrToBytes(h.dest);
  }

  /** Printing then parsing gives the header back in canonical form and leaves the payload alone. */
  lemma RoundTrip(h: QpepHeader, payload: seq<byte>)
    requires ValidHeader(h)
    ensures Decode(Encode(h) + payload) == Some((Canonical(h), |Encode(h)|))
    ensures (Encode(h) + payload)[|Encode(h)|..] == payload
  {
    EncodeParts(h);
    var b := Encode(h) + payload;
    assert b[PREAMBLE_LENGTH..|Encode(h)|] == Encode(h)[PREAMBLE_LENGTH..];
  }

  // ---- byte by byte ----

  /** The bytes on the wire, for four-byte addresses and sixteen-byte ones that are not IPv4-mapped: the two types, then
      each address followed by its port in little endian. */
  lemma WireFormat(source: seq<byte>, sourcePort: int, dest: seq<byte>, destPort: int)
    requires 0 <= sourcePort < 65536 && 0 <= destPort < 65536
    requires |source| == 4 || (|source| == 16 && source[..12] != [0, 0, 0, 0, 0, 0, 0, 0, 0, 0, 255, 255])
    requires |dest| == 4 || (|dest| == 16 && dest[..12] != [0, 0, 0, 0, 0, 0, 0, 0, 0, 0, 255, 255])
    ensures Encode(QpepHeader(Addr(source, sourcePort), Addr(dest, destPort))) ==
            [if |source| == 4 then 4 else 6, if |dest| == 4 then 4 else 6]
            + (source + [sourcePort % 256, sourcePort / 256]) + (dest + [destPort % 256, destPort / 256])
  {
    assert MAPPED_PREFIX == [0, 0, 0, 0, 0, 0, 0, 0, 0, 0, 255, 255];
  }

  /** An address of any other length goes out as type 0 and its port alone, which no parser reads back: this is where
      the length function and the printed length part. */
  lemma InvalidIsOmitted(ip: seq<byte>, port: int, other: Addr)
    requires |ip| != 4 && |ip| != 16 && ValidAddr(other) && |other.ip| == 4
    ensures Encode(QpepHeader(Addr(ip, port), other)) ==
            [0, 4] + [port % 65536 % 256, port % 65536 / 256] + (other.ip + [other.port % 256, other.port / 256])
    ensures Encode(QpepHeader(other, Addr(ip, port))) ==
            [4, 0] + (other.ip + [other.port % 256, other.port / 256]) + [port % 65536 % 256, port % 65536 / 256]
  {
  }

  /** An IPv4-mapped address goes on the wire as its last four bytes (section 2.5.5.2 of RFC 4291), in either place. */
  lemma MappedIsFour(v4: seq<byte>, port: int, other: Addr)
    requires |v4| == 4 && 0 <= port < 65536 && ValidAddr(other)
    ensures var mapped, four := Addr([0, 0, 0, 0, 0, 0, 0, 0, 0, 0, 255, 255] + v4, port), Addr(v4, port);
            && Encode(QpepHeader(mapped, other)) == Encode(QpepHeader(four, other))
            && Encode(QpepHeader(other, mapped)) == Encode(QpepHeader(other, four))
  {
    assert MAPPED_PREFIX == [0, 0, 0, 0, 0, 0, 0, 0, 0, 0, 255, 255];
    var ip: seq<byte> := [0, 0, 0, 0, 0, 0, 0, 0, 0, 0, 255, 255] + v4;
    assert ip[..12] == MAPPED_PREFIX && ip[12..] == v4;
  }

  /** Every other address is parsed back as it was, and a mapped one as its last four bytes. */
  lemma ParsesBack(ip: seq<byte>, port: int, other: Addr, payload: seq<byte>)
    requires |ip| == 4 || |ip| == 16
    requires 0 <= port < 65536 && ValidAddr(other)
    ensures var mapped := |ip| == 16 && ip[..12] == [0, 0, 0, 0, 0, 0, 0, 0, 0, 0, 255, 255];
            var back := Addr(if mapped then ip[12..] else ip, port);
            && Decode(Encode(QpepHeader(Addr(ip, port), other)) + payload).Some?
            && Decode(Encode(QpepHeader(Addr(ip, port), other)) + payload).value.0.source == back
            && Decode(Encode(QpepHeader(other, Addr(ip, port))) + payload).Some?
            && Decode(Encode(QpepHeader(other, Addr(ip, port))) + payload).value.0.dest == back
  {
    hide Encode, Decode;
    assert MAPPED_PREFIX == [0, 0, 0, 0, 0, 0, 0, 0, 0, 0, 255, 255];
    RoundTrip(QpepHeader(Addr(ip, port), other), payload);
    RoundTrip(QpepHeader(other, Addr(ip, port)), payload);
  }

  /** No encoding is a proper prefix of another, and equal encodings mean equal canonical headers. */
  lemma PrefixFree(h1: QpepHeader, rest1: seq<byte>, h2: QpepHeader, rest2: seq<byte>)
    requires ValidHeader(h1) && ValidHeader(h2)
    requires Encode(h1) + rest1 == Encode(h2) + rest2
    ensures Canonical(h1) == Canonical(h2) && Encode(h1) == Encode(h2) && rest1 == rest2
  {
    RoundTrip(h1, rest1);
    RoundTrip(h2, rest2);
    assert (Encode(h1) + rest1)[..|Encode(h1)|] == Encode(h1);
    assert (Encode(h2) + rest2)[..|Encode(h2)|] == Encode(h2);
  }

  /** Canonicalisation loses nothing that the encoding keeps: same bytes if and only if same canonical form. */
  lemma EncodingsAgreeIff(h1: QpepHeader, h2: QpepHeader)
    requires ValidHeader(h1) && ValidHeader(h2)
    ensures Encode(h1) == Encode(h2) <==> Canonical(h1) == Canonical(h2)
  {
    if Encode(h1) == Encode(h2) {
      PrefixFree(h1, [], h2, []);
    }
  }

  lemma SameParts(a: seq<byte>, b: seq<byte>, x: seq<byte>, y: seq<byte>)
    requires |a| == |x|
    ensures a + b == x + y <==> a == x && b == y
  {
    if a + b == x + y {
      assert a == (a + b)[..|a|] == (x + y)[..|x|] == x;
      assert b == (a + b)[|a|..] == (x + y)[|x|..] == y;
    }
  }

  lemma LongTypes(a: Addr, addrType: byte, n: nat)
    requires |a.ip| == IpLength(addrType) && n == IpLength(addrType) + 2
    ensures NetworkType(a) == addrType ==> |AddrToBytes(a)| == n
  {
  }

  /** Parsed bytes print back to themselves exactly when their types and addresses are canonical. */
  lemma ReencodesIff(b: seq<byte>)
    requires Decode(b).Some?
    ensures var (h, n) := Decode(b).value;
            Encode(h) == b[..n] <==> CanonicalBytes(b[0], h.source.ip) && CanonicalBytes(b[1], h.dest.ip)
  {
    var (h, n) := Decode(b).value;
    var body := b[PREAMBLE_LENGTH..n];
    var cut := IpLength(b[0]) + 2;
    AddrReencodes(b[0], body[..cut]);
    AddrReencodes(b[1], body[cut..]);
    LongTypes(h.source, b[0], cut);
    hide AddrToBytes, AddrFromBytes, NetworkType, CanonicalBytes, IpLength;
    var types := [NetworkType(h.source), NetworkType(h.dest)];
    assert Encode(h) == types + (AddrToBytes(h.source) + AddrToBytes(h.dest));
    SplitAt(b[..n], PREAMBLE_LENGTH);
    assert b[..n][..PREAMBLE_LENGTH] == [b[0], b[1]] && b[..n][PREAMBLE_LENGTH..] == body;
    SplitAt(body, cut);
    SameParts(types, AddrToBytes(h.source) + AddrToBytes(h.dest), [b[0], b[1]], body[..cut] + body[cut..]);
    if types == [b[0], b[1]] {
      assert types[0] == b[0] && types[1] == b[1];
      SameParts(AddrToBytes(h.source), AddrToBytes(h.dest), body[..cut], body[cut..]);
    }
  }

  /** The printed length is what GetHeaderLength computes exactly when both addresses are valid. */
  lemma LengthsAgreeIff(h: QpepHeader)
    ensures |Encode(h)| >= 2
    ensures |Encode(h)| == HeaderLength(Encode(h)[0], Encode(h)[1]) <==> ValidIp(h.source.ip) && ValidIp(h.dest.ip)
  {
  }

  lemma SliceOfSlice(b: seq<byte>, i: nat, j: nat, x: nat, y: nat)
    requires i <= j <= |b| && x <= y <= j - i
    ensures b[i..j][x..y] == b[i + x..i + y]
  {
    var s, r := b[i..j][x..y], b[i + x..i + y];
    assert |s| == |r|;
    forall k | 0 <= k < |s|
      ensures s[k] == r[k]
    {
      assert s[k] == b[i..j][x + k] == b[i + x + k] == r[k];
    }
  }

  /** With the lengths added, the slice-based parser is the stream parser, on every input. */
  lemma FromBytesAddingIsDecode(b: seq<byte>)
    ensures FromBytesAdding(b) == Decode(b)
  {
    if Decode(b).Some? {
      var n, cut := HeaderLength(b[0], b[1]), IpLength(b[0]) + 2;
      var body := b[PREAMBLE_LENGTH..n];
      SliceOfSlice(b, 2, n, 0, cut);
      SliceOfSlice(b, 2, n, cut, n - 2);
      assert body[..cut] == b[2..2 + cut] && body[cut..] == b[2 + cut..n];
      SliceOfSlice(b, 2, 2 + cut, 0, cut - 2);
      SliceOfSlice(b, 2, 2 + cut, cut - 2, cut);
      var m := n - 2 - cut;
      SliceOfSlice(b, 2 + cut, n, 0, m - 2);
      SliceOfSlice(b, 2 + cut, n, m - 2, m);
      assert b[2..2 + cut][..cut - 2] == b[2..cut] && b[2..2 + cut][cut - 2..] == b[cut..cut + 2];
      assert b[2 + cut..n][..m - 2] == b[2 + cut..n - 2];
      assert b[2 + cut..n][m - 2..] == b[n - 2..n];
    }
  }

  /** As written it agrees with the stream parser, on a buffer that holds a whole header, exactly when the source is
      not IPv4. For an IPv4 source it ends two bytes late, and panics exactly when those two bytes are not there. */
  lemma FromBytesAgreesIff(b: seq<byte>)
    requires Decode(b).Some?
    ensures FromBytes(b) == Decode(b) <==> b[0] != 0x04
    ensures FromBytes(b) == None <==> b[0] == 0x04 && |b| < HeaderLength(b[0], b[1]) + 2
    ensures FromBytes(b).Some? ==> FromBytes(b).value.1 == HeaderLength(b[0], b[1]) + (if b[0] == 0x04 then 2 else 0)
  {
    FromBytesAddingIsDecode(b);
  }

  /** In particular, given a printed header and whatever follows it, it panics exactly when the source is IPv4 (or
      IPv4-mapped) and fewer than two bytes follow, and is right exactly when the source is not. */
  lemma FromBytesOfEncoding(h: QpepHeader, payload: seq<byte>)
    requires ValidHeader(h)
    ensures FromBytes(Encode(h) + payload) == None <==> To4(h.source.ip).Some? && |payload| < 2
    ensures FromBytes(Encode(h) + payload) == Some((Canonical(h), |Encode(h)|)) <==> To4(h.source.ip).None?
  {
    EncodeParts(h);
    RoundTrip(h, payload);
    FromBytesAgreesIff(Encode(h) + payload);
  }
}
