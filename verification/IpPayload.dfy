/** Finding the upper-layer payload of a quoted IP packet: the header length and
    the walk over the IPv6 extension headers. */
module IpPayload {
  import opened Checksum

  datatype Error = NoHeader | BadIhl | BadVersion | ShortV4 | ShortV6 | ShortExt | ExtOverflow | ShortFragment | ShortAh |
                   AhOverflow | EspEncountered

  datatype Result<+T> = Ok(value: T) | Err(error: Error)

  const HOP_BY_HOP := 0
  const ROUTING := 43
  const FRAGMENT := 44
  const ESP := 50
  const AH := 51
  const DEST_OPTIONS := 60

  predicate IsOptions(next: int) {
    next == HOP_BY_HOP || next == ROUTING || next == DEST_OPTIONS
  }

  /** Both length fields leave out a first part of the header. */
  function OptionsSize(field: Byte): (n: nat)
    ensures n >= 8
  {
    (field as int + 1) * 8
  }

  function AhSize(field: Byte): (n: nat)
    ensures n >= 8
  {
    (field as int + 2) * 4
  }

  function HeaderLength(data: seq<Byte>): Result<nat> {
    if data == [] then Err(NoHeader)
    else if data[0] / 16 == 4 then (if data[0] % 16 < 5 then Err(BadIhl) else Ok(data[0] % 16 * 4))
    else if data[0] / 16 == 6 then Ok(40)
    else Err(BadVersion)
  }

  datatype Position = Position(offset: nat, next: Byte)

  /** Where the header after this one starts, and of what kind it is; the same
      offset means that the upper layer starts here. */
  function NextOffset(data: seq<Byte>, offset: nat, next: Byte): (r: Result<Position>)
    requires offset <= |data|
    ensures r.Ok? ==> r.value.offset == offset || offset + 8 <= r.value.offset <= |data|
  {
    if IsOptions(next) then
      if offset + 2 > |data| then Err(ShortExt)
      else if offset + OptionsSize(data[offset + 1]) > |data| then Err(ExtOverflow)
      else Ok(Position(offset + OptionsSize(data[offset + 1]), data[offset]))
    else if next == FRAGMENT then
      if offset + 8 > |data| then Err(ShortFragment) else Ok(Position(offset + 8, data[offset]))
    else if next == AH then
      if offset + 2 > |data| then Err(ShortAh)
      else if offset + AhSize(data[offset + 1]) > |data| then Err(AhOverflow)
      else Ok(Position(offset + AhSize(data[offset + 1]), data[offset]))
    else if next == ESP then Err(EspEncountered)
    else Ok(Position(offset, next))
  }

  function Walk(data: seq<Byte>, offset: nat, next: Byte): Result<seq<Byte>>
    requires offset <= |data|
    decreases |data| - offset
  {
    match NextOffset(data, offset, next)
    case Err(e) => Err(e)
    case Ok(p) => if p.offset == offset then Ok(data[offset..]) else Walk(data, p.offset, p.next)
  }

  function Payload(data: seq<Byte>): Result<seq<Byte>> {
    match HeaderLength(data)
    case Err(e) => Err(e)
    case Ok(n) =>
      if data[0] / 16 == 4 then (if |data| < n then Err(ShortV4) else Ok(data[n..]))
      else if |data| < n then Err(ShortV6)
      else Walk(data, n, data[6])
  }

  method ExtractIpv6Payload(data: seq<Byte>, hdrLen: nat) returns (r: Result<seq<Byte>>)
    requires hdrLen >= 40
    ensures r == if |data| < hdrLen then Err(ShortV6) else Walk(data, hdrLen, data[6])
  {
    if |data| < hdrLen { return Err(ShortV6); }
    var offset, next := hdrLen, data[6];
    while true
      invariant offset <= |data| && Walk(data, offset, next) == Walk(data, hdrLen, data[6])
      decreases |data| - offset
    {
      match NextOffset(data, offset, next) {
        case Err(e) => return Err(e);
        case Ok(p) =>
          if p.offset == offset { return Ok(data[offset..]); }
          offset, next := p.offset, p.next;
      }
    }
  }

  method GetIcmpResponsePayload(data: seq<Byte>) returns (r: Result<seq<Byte>>)
    ensures r == Payload(data)
  {
    if |data| < 1 { return Err(NoHeader); }
    match HeaderLength(data) {
      case Err(e) => return Err(e);
      case Ok(n) =>
        if data[0] / 16 == 4 {
          if |data| < n { return Err(ShortV4); }
          return Ok(data[n..]);
        }
        r := ExtractIpv6Payload(data, n);
    }
  }

  // ----- Packets as RFC 791, RFC 8200 and RFC 4302 write them -----

  /** content is what follows the next-header and length bytes; a fragment header
      has no length byte, so its content is seven bytes long. */
  datatype Ext =
    | Options(kind: Byte, size: Byte, content: seq<Byte>)
    | FragmentHeader(content: seq<Byte>)
    | Authentication(size: Byte, content: seq<Byte>)

  /** The size counts units of 8 bytes without the first 8, in an authentication
      header units of 4 bytes without the first 8. */
  predicate WellFormed(x: Ext) {
    match x
    case Options(kind, size, content) => (kind == 0 || kind == 43 || kind == 60) && 2 + |content| == 8 + 8 * size as int
    case FragmentHeader(content) => 1 + |content| == 8
    case Authentication(size, content) => 2 + |content| == 8 + 4 * size as int
  }

  function KindOf(x: Ext): Byte {
    match x
    case Options(kind, _, _) => kind
    case FragmentHeader(_) => 44
    case Authentication(_, _) => 51
  }

  /** The value of the next-header field in front of a chain. */
  function FirstKind(chain: seq<Ext>, last: Byte): Byte {
    if chain == [] then last else KindOf(chain[0])
  }

  function EncodeExt(x: Ext, next: Byte): seq<Byte> {
    match x
    case Options(_, size, content) => [next, size] + content
    case FragmentHeader(content) => [next] + content
    case Authentication(size, content) => [next, size] + content
  }

  /** A chain of headers, the last of which names what the rest is. */
  function EncodeChain(chain: seq<Ext>, last: Byte, rest: seq<Byte>): seq<Byte> {
    if chain == [] then rest
    else EncodeExt(chain[0], FirstKind(chain[1..], last)) + EncodeChain(chain[1..], last, rest)
  }

  ghost predicate ValidChain(chain: seq<Ext>) {
    forall k :: 0 <= k < |chain| ==> WellFormed(chain[k])
  }

  /** What follows the last whole header: the upper layer with the payload, a
      header that is cut off, or one that cannot be read. */
  ghost predicate StopsWith(kind: int, rest: seq<Byte>, r: Result<seq<Byte>>) {
    match r
    case Ok(payload) =>
      kind != 0 && kind != 43 && kind != 44 && kind != 50 && kind != 51 && kind != 60 && payload == rest
    case Err(ShortExt) => (kind == 0 || kind == 43 || kind == 60) && |rest| < 2
    case Err(ExtOverflow) => (kind == 0 || kind == 43 || kind == 60) && 2 <= |rest| < 8 + 8 * rest[1] as int
    case Err(ShortFragment) => kind == 44 && |rest| < 8
    case Err(ShortAh) => kind == 51 && |rest| < 2
    case Err(AhOverflow) => kind == 51 && 2 <= |rest| < 8 + 4 * rest[1] as int
    case Err(EspEncountered) => kind == 50
    case _ => false
  }

  lemma StopDecodes(prefix: seq<Byte>, kind: Byte, rest: seq<Byte>, r: Result<seq<Byte>>)
    requires StopsWith(kind, rest, r)
    ensures Walk(prefix + rest, |prefix|, kind) == r
  {
    var data := prefix + rest;
    assert data[|prefix|..] == rest;
    if |rest| >= 2 {
      assert data[|prefix| + 1] == rest[1];
    }
  }

  /** The walk over a chain of whole headers ends with what follows it. */
  lemma {:induction false} WalkDecodes(prefix: seq<Byte>, chain: seq<Ext>, last: Byte, rest: seq<Byte>, r: Result<seq<Byte>>)
    requires ValidChain(chain) && StopsWith(last, rest, r)
    ensures Walk(prefix + EncodeChain(chain, last, rest), |prefix|, FirstKind(chain, last)) == r
    decreases |chain|
  {
    hide StopsWith, NextOffset, WellFormed, EncodeExt, KindOf;
    var data := prefix + EncodeChain(chain, last, rest);
    if chain == [] {
      StopDecodes(prefix, last, rest, r);
    } else {
      var x, more := chain[0], chain[1..];
      var first := EncodeExt(x, FirstKind(more, last));
      WalkDecodes(prefix + first, more, last, rest, r);
      assert data == (prefix + first) + EncodeChain(more, last, rest);
      HeaderDecodes(prefix, x, FirstKind(more, last), EncodeChain(more, last, rest));
    }
  }

  lemma HeaderDecodes(prefix: seq<Byte>, x: Ext, next: Byte, tail: seq<Byte>)
    requires WellFormed(x)
    ensures var first := EncodeExt(x, next);
      |first| > 0 && NextOffset((prefix + first) + tail, |prefix|, KindOf(x)) == Ok(Position(|prefix| + |first|, next))
  {
    var first := EncodeExt(x, next);
    var data := (prefix + first) + tail;
    assert data[|prefix|] == first[0] && (!x.FragmentHeader? ==> data[|prefix| + 1] == first[1]);
  }

  /** A chain read off a position, and what follows it. */
  datatype Parsed = Parsed(chain: seq<Ext>, last: Byte, rest: seq<Byte>)

  function ExtAt(data: seq<Byte>, offset: nat, next: Byte): Ext
    requires offset + 8 <= |data|
    requires IsOptions(next) ==> offset + OptionsSize(data[offset + 1]) <= |data|
    requires next == AH ==> offset + AhSize(data[offset + 1]) <= |data|
  {
    if IsOptions(next) then Options(next, data[offset + 1], data[offset + 2..offset + OptionsSize(data[offset + 1])])
    else if next == AH then Authentication(data[offset + 1], data[offset + 2..offset + AhSize(data[offset + 1])])
    else FragmentHeader(data[offset + 1..offset + 8])
  }

  lemma ExtIsThere(data: seq<Byte>, offset: nat, next: Byte) returns (x: Ext)
    requires offset <= |data| && NextOffset(data, offset, next).Ok? && NextOffset(data, offset, next).value.offset != offset
    ensures var p := NextOffset(data, offset, next).value;
      WellFormed(x) && KindOf(x) == next && EncodeExt(x, p.next) == data[offset..p.offset]
  {
    x := ExtAt(data, offset, next);
  }

  lemma StopIsThere(data: seq<Byte>, offset: nat, next: Byte)
    requires offset <= |data|
    requires NextOffset(data, offset, next).Err? || NextOffset(data, offset, next).value.offset == offset
    ensures StopsWith(next, data[offset..], Walk(data, offset, next))
  {
  }

  /** Conversely every walk is one over whole headers up to where it stops. */
  lemma {:induction false} WalkFinds(data: seq<Byte>, offset: nat, next: Byte) returns (p: Parsed)
    requires offset <= |data|
    ensures ValidChain(p.chain) && next == FirstKind(p.chain, p.last)
    ensures data[offset..] == EncodeChain(p.chain, p.last, p.rest)
    ensures StopsWith(p.last, p.rest, Walk(data, offset, next))
    decreases |data| - offset
  {
    hide NextOffset, EncodeExt, WellFormed, StopsWith;
    var step := NextOffset(data, offset, next);
    if step.Err? || step.value.offset == offset {
      StopIsThere(data, offset, next);
      p := Parsed([], next, data[offset..]);
    } else {
      var pos := step.value;
      var more := WalkFinds(data, pos.offset, pos.next);
      var x := ExtIsThere(data, offset, next);
      p := Parsed([x] + more.chain, more.last, more.rest);
      assert p.chain[1..] == more.chain;
      assert data[offset..] == data[offset..pos.offset] + data[pos.offset..];
    }
  }

  /** An IPv4 packet: a header of as many 4-byte units as its first byte says. */
  ghost predicate IsPacketV4(data: seq<Byte>, header: seq<Byte>, payload: seq<Byte>) {
    data == header + payload && header != [] && 64 + 5 <= header[0] <= 64 + 15 && |header| == 4 * (header[0] as int) - 256
  }

  /** An IPv6 packet: a 40-byte header, whole extension headers, and the rest. */
  ghost predicate IsPacketV6(data: seq<Byte>, chain: seq<Ext>, last: Byte, rest: seq<Byte>) {
    && |data| >= 40 && 96 <= data[0] <= 96 + 15 && ValidChain(chain) && data[6] == FirstKind(chain, last)
    && data[40..] == EncodeChain(chain, last, rest)
  }

  lemma PayloadOfPacketV4(header: seq<Byte>, payload: seq<Byte>)
    requires IsPacketV4(header + payload, header, payload)
    ensures Payload(header + payload) == Ok(payload)
  {
    var data := header + payload;
    assert data[0] == header[0] && data[|header|..] == payload;
  }

  lemma PayloadOfPacketV6(header: seq<Byte>, chain: seq<Ext>, last: Byte, rest: seq<Byte>, r: Result<seq<Byte>>)
    requires |header| == 40 && 96 <= header[0] <= 96 + 15 && ValidChain(chain) && header[6] == FirstKind(chain, last)
    requires StopsWith(last, rest, r)
    ensures Payload(header + EncodeChain(chain, last, rest)) == r
  {
    hide StopsWith;
    var data := header + EncodeChain(chain, last, rest);
    WalkDecodes(header, chain, last, rest, r);
    assert data[0] == header[0] && data[6] == header[6];
  }

  ghost predicate ComesTo(data: seq<Byte>, r: Result<seq<Byte>>) {
    exists chain, last: Byte, rest :: IsPacketV6(data, chain, last, rest) && StopsWith(last, rest, r)
  }

  /** What is to be returned for any bytes: the payload of an IPv4 packet, what an
      IPv6 packet comes to after its whole extension headers, or what is wrong
      with the header. */
  ghost predicate Expected(data: seq<Byte>, r: Result<seq<Byte>>) {
    || (r.Ok? && exists header :: IsPacketV4(data, header, r.value))
    || ComesTo(data, r)
    || (r == Err(NoHeader) && data == [])
    || (r == Err(BadIhl) && data != [] && 64 <= data[0] < 64 + 5)
    || (r == Err(ShortV4) && data != [] && 64 + 5 <= data[0] < 80 && |data| < 4 * (data[0] as int) - 256)
    || (r == Err(ShortV6) && data != [] && 96 <= data[0] < 112 && |data| < 40)
    || (r == Err(BadVersion) && data != [] && (data[0] < 64 || 80 <= data[0] < 96 || 112 <= data[0]))
  }

  /** On every byte string the result is exactly the expected one. */
  lemma PayloadIsExact(data: seq<Byte>, r: Result<seq<Byte>>)
    ensures Payload(data) == r <==> Expected(data, r)
  {
    if Payload(data) == r {
      PayloadIsExpected(data);
    }
    if Expected(data, r) {
      ExpectedIsPayload(data, r);
    }
  }

  lemma PayloadIsExpected(data: seq<Byte>)
    ensures Expected(data, Payload(data))
  {
    hide StopsWith, Walk;
    if data != [] && 64 + 5 <= data[0] < 80 && |data| >= 4 * (data[0] as int) - 256 {
      var n := 4 * (data[0] as int) - 256;
      assert data == data[..n] + data[n..];
      assert IsPacketV4(data, data[..n], data[n..]);
    } else if |data| >= 40 && 96 <= data[0] < 112 {
      var p := WalkFinds(data, 40, data[6]);
      assert IsPacketV6(data, p.chain, p.last, p.rest);
    }
  }

  lemma ExpectedIsPayload(data: seq<Byte>, r: Result<seq<Byte>>)
    requires Expected(data, r)
    ensures Payload(data) == r
  {
    hide ComesTo, Walk;
    if r.Ok? && exists header :: IsPacketV4(data, header, r.value) {
      var header :| IsPacketV4(data, header, r.value);
      PayloadOfPacketV4(header, r.value);
    } else if ComesTo(data, r) {
      PayloadOfChain(data, r);
    }
  }

  lemma PayloadOfChain(data: seq<Byte>, r: Result<seq<Byte>>)
    requires ComesTo(data, r)
    ensures Payload(data) == r
  {
    hide StopsWith, Payload, EncodeChain, FirstKind;
    var chain, last: Byte, rest :| IsPacketV6(data, chain, last, rest) && StopsWith(last, rest, r);
    assert data == data[..40] + data[40..];
    PayloadOfPacketV6(data[..40], chain, last, rest, r);
  }
}
