/** The header code as it runs: buffers filled in place, a header read from a stream in two calls of Read. */
module HeaderStream {
  import opened Basics
  import opened Header

  // ---- printing ----

  method PortBuffer(port: int) returns (result: array<byte>)
    ensures fresh(result) && result.Length == 2 && Uint16(result[..]) == port % 0x1_0000
  {
    result := new byte[2];
    var p := port % 0x1_0000;
    result[0] := p % 256;
    result[1] := p / 256;
  }

  method ToBytes(header: QpepHeader) returns (byteOutput: seq<byte>)
    ensures byteOutput == Encode(header)
  {
    byteOutput := [];
    var sourceType := NetworkType(header.source);
    var destType := NetworkType(header.dest);
    byteOutput := byteOutput + [sourceType];
    byteOutput := byteOutput + [destType];

    byteOutput := byteOutput + IpToBytes(header.source.ip, sourceType);
    var port := PortBuffer(header.source.port);
    PortRoundTrip(header.source.port, port[..]);
    byteOutput := byteOutput + port[..];

    byteOutput := byteOutput + IpToBytes(header.dest.ip, destType);
    port := PortBuffer(header.dest.port);
    PortRoundTrip(header.dest.port, port[..]);
    byteOutput := byteOutput + port[..];
    assert byteOutput == Encode(header);
  }

  method GetHeaderLength(preamble: seq<byte>) returns (headerLength: nat)
    requires |preamble| >= PREAMBLE_LENGTH
    ensures headerLength == HeaderLength(preamble[0], preamble[1])
    ensures forall h, payload :: ValidHeader(h) && preamble == Encode(h) + payload ==> headerLength == |Encode(h)|
  {
    headerLength := PREAMBLE_LENGTH;
    if preamble[0] == 0x04 {
      headerLength := headerLength + IPV4_LENGTH;
    } else {
      headerLength := headerLength + IPV6_LENGTH;
    }
    if preamble[1] == 0x04 {
      headerLength := headerLength + IPV4_LENGTH;
    } else {
      headerLength := headerLength + IPV6_LENGTH;
    }
    headerLength := headerLength + 4;
    forall h, payload | ValidHeader(h) && preamble == Encode(h) + payload
      ensures headerLength == |Encode(h)|
    {
      RoundTrip(h, payload);
    }
  }

  // ---- reading ----

  // How much one Read returns when the network has `grant` bytes ready: at least one, never more than asked.
  function Granted(grant: nat, want: nat, have: nat): (n: nat)
    requires want > 0 && have > 0
    ensures 1 <= n <= want && n <= have
  {
    var n := Min(Min(grant, want), have);
    if n == 0 then 1 else n
  }

  function Head(grants: seq<nat>): nat {
    if grants == [] then 0 else grants[0]
  }

  function Tail(grants: seq<nat>): seq<nat> {
    if grants == [] then [] else grants[1..]
  }

  /** An io.Reader over bytes that have yet to arrive, handed out in pieces chosen by the network.
      With `eager`, end of stream is reported together with the last bytes, as io.Reader permits. */
  class Stream {
    var data: seq<byte>
    var grants: seq<nat>
    const eager: bool

    constructor (data: seq<byte>, grants: seq<nat>, eager: bool)
      ensures this.data == data && this.grants == grants && this.eager == eager
    {
      this.data, this.grants, this.eager := data, grants, eager;
    }

    method Read(buffer: array<byte>) returns (n: nat, err: bool)
      requires buffer.Length > 0
      modifies this, buffer
      ensures grants == Tail(old(grants))
      ensures old(data) == [] ==> n == 0 && err
      ensures old(data) != [] ==>
                && n == Granted(Head(old(grants)), buffer.Length, |old(data)|)
                && err == (eager && n == |old(data)|)
      ensures n <= buffer.Length && n <= |old(data)|
      ensures buffer[..n] == old(data)[..n] && buffer[n..] == old(buffer[..])[n..]
      ensures data == old(data)[n..]
    {
      if data == [] {
        n, err := 0, true;
      } else {
        n := Granted(Head(grants), buffer.Length, |data|);
        for i := 0 to n
          modifies buffer
          invariant buffer[..i] == data[..i]
          invariant forall j :: i <= j < buffer.Length ==> buffer[j] == old(buffer[j])
        {
          buffer[i] := data[i];
        }
        err := eager && n == |data|;
        data := data[n..];
      }
      grants := Tail(grants);
    }
  }

  // The header found, if any, and how many bytes left the stream.
  datatype Outcome = Outcome(header: Option<QpepHeader>, consumed: nat)

  // GetQpepHeader over a stream holding `data`, when its two reads are granted g1 and g2 bytes.
  function ParseReads(data: seq<byte>, g1: nat, g2: nat, eager: bool): Outcome {
    if data == [] then Outcome(None, 0)
    else
      var n1 := Granted(g1, PREAMBLE_LENGTH, |data|);
      var preamble := data[..n1] + Zeros(PREAMBLE_LENGTH - n1);
      var rest := data[n1..];
      var (header, n2) := ParseRest(preamble, rest, g2, eager);
      Outcome(header, n1 + n2)
  }

  // Its second read, with the preamble buffer filled.
  function ParseRest(preamble: seq<byte>, rest: seq<byte>, g2: nat, eager: bool): (Option<QpepHeader>, nat)
    requires |preamble| == PREAMBLE_LENGTH
  {
    if rest == [] then (None, 0)
    else
      var length := BodyLength(preamble[0], preamble[1]);
      var n := Granted(g2, length, |rest|);
      var body := rest[..n] + Zeros(length - n);
      (if eager && n == |rest| then None else Some(DecodeBody(preamble[0], preamble[1], body)), n)
  }

  // make([]byte, size) and one Read into it: what the buffer holds is zero beyond the bytes read.
  method ReadBuffer(stream: Stream, size: nat) returns (bytes: seq<byte>, err: bool, ghost n: nat)
    requires size > 0
    modifies stream
    ensures stream.grants == Tail(old(stream.grants))
    ensures old(stream.data) == [] ==> n == 0 && err
    ensures old(stream.data) != [] ==>
              && n == Granted(Head(old(stream.grants)), size, |old(stream.data)|)
              && err == (stream.eager && n == |old(stream.data)|)
    ensures n <= size && n <= |old(stream.data)|
    ensures |bytes| == size && bytes == old(stream.data)[..n] + Zeros(size - n)
    ensures stream.data == old(stream.data)[n..]
  {
    var buffer := new byte[size](_ => 0);
    var count;
    count, err := stream.Read(buffer);
    n := count;
    bytes := buffer[..];
    SplitAt(bytes, n);
  }

  method GetQpepHeader(stream: Stream) returns (header: Option<QpepHeader>)
    modifies stream
    ensures var g := old(stream.grants);
            var o := ParseReads(old(stream.data), Head(g), Head(Tail(g)), stream.eager);
            header == o.header && o.consumed <= |old(stream.data)| && stream.data == old(stream.data)[o.consumed..]
  {
    hide DecodeBody, Granted, Uint16, Zeros;
    var preamble, err, n1 := ReadBuffer(stream, PREAMBLE_LENGTH);
    if err {
      return None;
    }
    var sourceIpEnd: nat;
    if preamble[0] == 0x04 {
      sourceIpEnd := IPV4_LENGTH;
    } else {
      sourceIpEnd := IPV6_LENGTH;
    }
    var sourcePortEnd := sourceIpEnd + 2;
    var destIpEnd: nat;
    if preamble[1] == 0x04 {
      destIpEnd := sourcePortEnd + IPV4_LENGTH;
    } else {
      destIpEnd := sourcePortEnd + IPV6_LENGTH;
    }
    var destPortEnd := destIpEnd + 2;
    assert destPortEnd == BodyLength(preamble[0], preamble[1]);

    var byteInput: seq<byte>;
    ghost var n2;
    byteInput, err, n2 := ReadBuffer(stream, destPortEnd);
    if err {
      return None;
    }
    var sourceAddr := Addr(byteInput[..sourceIpEnd], Uint16(byteInput[sourceIpEnd..sourcePortEnd]));
    var destAddr := Addr(byteInput[sourcePortEnd..destIpEnd], Uint16(byteInput[destIpEnd..destPortEnd]));
    header := Some(QpepHeader(sourceAddr, destAddr));
    assert header == Some(DecodeBody(preamble[0], preamble[1], byteInput)) by {
      BodySlices(preamble[0], preamble[1], byteInput, sourceIpEnd, destIpEnd);
    }
  }

  // The offsets computed from the preamble cut the body where DecodeBody does.
  lemma BodySlices(sourceType: byte, destType: byte, body: seq<byte>, sourceIpEnd: nat, destIpEnd: nat)
    requires sourceIpEnd == IpLength(sourceType) && destIpEnd == sourceIpEnd + 2 + IpLength(destType)
    requires |body| == destIpEnd + 2
    ensures DecodeBody(sourceType, destType, body)
         == QpepHeader(Addr(body[..sourceIpEnd], Uint16(body[sourceIpEnd..sourceIpEnd + 2])),
                       Addr(body[sourceIpEnd + 2..destIpEnd], Uint16(body[destIpEnd..destIpEnd + 2])))
  {
  }

  // ---- what the two single reads are worth ----

  predicate FullReads(data: seq<byte>, g1: nat, g2: nat)
    requires |data| >= PREAMBLE_LENGTH
  {
    g1 >= PREAMBLE_LENGTH && g2 >= BodyLength(data[0], data[1])
  }

  /** With two full reads the stream parser is the buffer parser, for every stream that holds a whole header. */
  lemma FullReadsDecode(data: seq<byte>, g1: nat, g2: nat)
    requires Decode(data).Some? && FullReads(data, g1, g2)
    ensures ParseReads(data, g1, g2, false) == Outcome(Some(Decode(data).value.0), Decode(data).value.1)
  {
    var length := BodyLength(data[0], data[1]);
    var rest := data[PREAMBLE_LENGTH..];
    assert data[..PREAMBLE_LENGTH] + Zeros(0) == data[..PREAMBLE_LENGTH];
    assert rest[..length] + Zeros(0) == data[PREAMBLE_LENGTH..PREAMBLE_LENGTH + length];
  }

  /** The header of a well-formed stream is found, and nothing beyond it consumed, if and only if
      neither read is short and the end of the stream is not reported along with the header's last byte. */
  lemma ParsedIffFullReads(h: QpepHeader, payload: seq<byte>, g1: nat, g2: nat, eager: bool)
    requires ValidHeader(h)
    ensures ParseReads(Encode(h) + payload, g1, g2, eager) == Outcome(Some(Canonical(h)), |Encode(h)|)
       <==> FullReads(Encode(h) + payload, g1, g2) && !(eager && payload == [])
  {
    var data := Encode(h) + payload;
    EncodeParts(h);
    RoundTrip(h, payload);
    if FullReads(data, g1, g2) {
      FullReadsDecode(data, g1, g2);
    } else if g1 >= PREAMBLE_LENGTH {
      assert data[..2] + Zeros(0) == data[..2];
    } else {
      ShortPreamble(h, payload, g1, g2, eager);
    }
  }

  // One byte of preamble leaves the destination type at zero: a sixteen-byte address one byte too early. Even when as
  // many bytes are taken as the header has, the destination is wrong.
  lemma ShortPreamble(h: QpepHeader, payload: seq<byte>, g1: nat, g2: nat, eager: bool)
    requires ValidHeader(h) && g1 < PREAMBLE_LENGTH
    ensures var o := ParseReads(Encode(h) + payload, g1, g2, eager);
            o.consumed == |Encode(h)| && o.header.Some? ==> o.header.value.dest != CanonicalAddr(h.dest)
  {
  }

  // The same in terms of what each read returned: `head`, padded with zeros to a preamble, and then `chunk`.
  lemma TwoReads(data: seq<byte>, head: seq<byte>, chunk: seq<byte>)
    requires 1 <= |head| <= PREAMBLE_LENGTH && head + chunk <= data
    requires var p := head + Zeros(PREAMBLE_LENGTH - |head|); 1 <= |chunk| <= BodyLength(p[0], p[1])
    ensures var p := head + Zeros(PREAMBLE_LENGTH - |head|);
            ParseReads(data, |head|, |chunk|, false) ==
              Outcome(Some(DecodeBody(p[0], p[1], chunk + Zeros(BodyLength(p[0], p[1]) - |chunk|))), |head + chunk|)
  {
    hide DecodeBody;
    assert head == (head + chunk)[..|head|] == data[..|head|];
    assert chunk == (head + chunk)[|head|..] == data[|head|..][..|chunk|];
  }

  /** Whatever two reads return of a stream that starts with a header, they take exactly the header and find its
      destination if and only if both were full, and then the whole header is found. */
  lemma DestIffFullReads(h: QpepHeader, payload: seq<byte>, head: seq<byte>, chunk: seq<byte>)
    requires ValidHeader(h)
    requires 1 <= |head| <= PREAMBLE_LENGTH && head + chunk <= Encode(h) + payload
    requires var p := head + Zeros(PREAMBLE_LENGTH - |head|); 1 <= |chunk| <= BodyLength(p[0], p[1])
    ensures var p := head + Zeros(PREAMBLE_LENGTH - |head|);
            var length := BodyLength(p[0], p[1]);
            var parsed := DecodeBody(p[0], p[1], chunk + Zeros(length - |chunk|));
            && (head + chunk == Encode(h) && parsed.dest == CanonicalAddr(h.dest) <==>
                  |head| == PREAMBLE_LENGTH && |chunk| == length)
            && (|head| == PREAMBLE_LENGTH && |chunk| == length ==> parsed == Canonical(h))
  {
    hide DecodeBody, ParseReads, Encode;
    var data, e := Encode(h) + payload, Encode(h);
    EncodeParts(h);
    TwoReads(data, head, chunk);
    ParsedIffFullReads(h, payload, |head|, |chunk|, false);
    assert |head + chunk| == |e| ==> head + chunk == data[..|e|] == e;
    if |head| < PREAMBLE_LENGTH {
      ShortPreamble(h, payload, |head|, |chunk|, false);
    } else {
      assert head + Zeros(0) == head;
      assert head[0] == (head + chunk)[0] == data[0] == e[0] && head[1] == (head + chunk)[1] == data[1] == e[1];
    }
  }

  // io.ReadFull: call Read again until `want` bytes are there or the stream ends.
  function ReadFull(data: seq<byte>, want: nat, grants: seq<nat>): seq<byte>
    decreases want
  {
    if want == 0 || data == [] then []
    else
      var n := Granted(Head(grants), want, |data|);
      data[..n] + ReadFull(data[n..], want - n, Tail(grants))
  }

  lemma {:induction false} ReadFullIsPrefix(data: seq<byte>, want: nat, grants: seq<nat>)
    ensures ReadFull(data, want, grants) == data[..Min(want, |data|)]
    decreases want
  {
    if want > 0 && data != [] {
      var n := Granted(Head(grants), want, |data|);
      ReadFullIsPrefix(data[n..], want - n, Tail(grants));
    }
  }

  // GetQpepHeader with io.ReadFull in place of each Read; None also when the stream ends early.
  function ParseFull(data: seq<byte>, grants1: seq<nat>, grants2: seq<nat>): Option<(QpepHeader, nat)> {
    var preamble := ReadFull(data, PREAMBLE_LENGTH, grants1);
    if |preamble| < PREAMBLE_LENGTH || |preamble| > |data| then None
    else
      var length := BodyLength(preamble[0], preamble[1]);
      var body := ReadFull(data[|preamble|..], length, grants2);
      if |body| != length then None
      else Some((DecodeBody(preamble[0], preamble[1], body), PREAMBLE_LENGTH + length))
  }

  /** Reading until full makes the parse independent of how the network cuts the stream up. */
  lemma ReadFullClosesTheGap(data: seq<byte>, grants1: seq<nat>, grants2: seq<nat>)
    ensures ParseFull(data, grants1, grants2) == Decode(data)
  {
    ReadFullIsPrefix(data, PREAMBLE_LENGTH, grants1);
    if |data| >= PREAMBLE_LENGTH {
      var length := BodyLength(data[0], data[1]);
      ReadFullIsPrefix(data[PREAMBLE_LENGTH..], length, grants2);
      if |data| >= PREAMBLE_LENGTH + length {
        assert data[PREAMBLE_LENGTH..][..length] == data[PREAMBLE_LENGTH..PREAMBLE_LENGTH + length];
      }
    }
  }
}
