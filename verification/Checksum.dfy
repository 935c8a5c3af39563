/** One's-complement arithmetic and the steering of a UDP checksum: two payload
    bytes are chosen so that the checksum carries the number of the probe. */
module Checksum {
  import opened Text
  import opened Words
  import TraceProtocol

  type Byte = b: int | 0 <= b < 256

  /** uint32 addition. */
  function Plus(a: int, b: int): (r: nat) {
    (a + b) % WORD
  }

  function Complement(x: int): int {
    0xFFFF - x
  }

  function Word(hi: Byte, lo: Byte): (w: nat)
    ensures w <= 0xFFFF
  {
    hi as int * 256 + lo as int
  }

  // ----- The reference: RFC 1071 sums -----

  /** Addition with the carry brought around. */
  function OnesAdd(a: nat, b: nat): nat {
    if a + b > 0xFFFF then a + b - 0xFFFF else a + b
  }

  /** One's-complement sum of the 16-bit words, the last one padded. */
  function OnesSum(bytes: seq<Byte>): nat {
    if bytes == [] then 0
    else if |bytes| == 1 then Word(bytes[0], 0)
    else OnesAdd(Word(bytes[0], bytes[1]), OnesSum(bytes[2..]))
  }

  function TwoBytes(x: int): seq<Byte> {
    [x % 0x10000 / 256, x % 256]
  }

  const UDP_PROTOCOL := 17

  /** The bytes of an address as they stand in the header of a packet: IPv4
      addresses may be kept mapped into sixteen bytes (section 2.5.5.2 of RFC 4291). */
  function OnWire(ip: seq<Byte>): seq<Byte> {
    if |ip| == 16 && ip[..12] == [0, 0, 0, 0, 0, 0, 0, 0, 0, 0, 255, 255] then ip[12..] else ip
  }

  /** Section 2.1 of RFC 1071 over the pseudo-header (RFC 768, or section 8.1 of
      RFC 8200) and the datagram. */
  function PseudoHeader(src: seq<Byte>, dst: seq<Byte>, udpLen: nat): seq<Byte> {
    if |OnWire(src)| == 4 then OnWire(src) + OnWire(dst) + [0, UDP_PROTOCOL] + TwoBytes(udpLen)
    else OnWire(src) + OnWire(dst) + TwoBytes(udpLen / 0x10000) + TwoBytes(udpLen) + [0, 0] + [0, UDP_PROTOCOL]
  }

  /** The UDP header and data, with the given checksum field. */
  function Datagram(srcPort: int, dstPort: int, checksum: int, payload: seq<Byte>): seq<Byte> {
    TwoBytes(srcPort) + TwoBytes(dstPort) + TwoBytes(8 + |payload|) + TwoBytes(checksum) + payload
  }

  /** The checksum as transmitted: a computed zero is sent as all ones. */
  function UdpChecksum(src: seq<Byte>, dst: seq<Byte>, srcPort: int, dstPort: int, payload: seq<Byte>): nat {
    var sum := OnesSum(PseudoHeader(src, dst, 8 + |payload|) + Datagram(srcPort, dstPort, 0, payload));
    if sum >= 0xFFFF then 0xFFFF else 0xFFFF - sum
  }

  // ----- The program's functions -----

  /** net.IP.To4: four bytes, or the last four of a mapped address. */
  function To4(ip: seq<Byte>): Option<seq<Byte>> {
    if |ip| == 4 then Some(ip)
    else if |ip| == 16 && (forall k :: 0 <= k < 10 ==> ip[k] == 0) && ip[10] == 255 && ip[11] == 255 then Some(ip[12..])
    else None
  }

  function FoldSum(sum: nat): (r: nat)
    decreases sum
  {
    if sum / 0x10000 == 0 then sum else FoldSum(sum % 0x10000 + sum / 0x10000)
  }

  method Fold16(sum0: nat) returns (r: nat)
    requires sum0 < WORD
    ensures r == FoldSum(sum0) <= 0xFFFF
  {
    var sum: nat := sum0;
    while sum / 0x10000 != 0
      invariant sum < WORD && FoldSum(sum) == FoldSum(sum0)
      decreases sum
    {
      sum := sum % 0x10000 + sum / 0x10000;
    }
    r := sum % 0x10000;
  }

  /** The unbounded sum of the words. */
  function WordSum(data: seq<Byte>): nat {
    if data == [] then 0
    else if |data| == 1 then Word(data[0], 0)
    else Word(data[0], data[1]) + WordSum(data[2..])
  }

  /** addBytes is an addition of the words modulo 2^32. */
  method AddBytes(sum0: nat, data: seq<Byte>) returns (sum: nat)
    requires sum0 < WORD
    ensures sum == Plus(sum0, WordSum(data)) < WORD
  {
    sum := sum0;
    var i := 0;
    assert data[0..] == data;
    while i + 1 < |data|
      invariant 0 <= i <= |data| && i % 2 == 0 && sum < WORD
      invariant Plus(sum, WordSum(data[i..])) == Plus(sum0, WordSum(data))
    {
      assert data[i..][2..] == data[i + 2..];
      PlusMoves(sum, Word(data[i], data[i + 1]), WordSum(data[i + 2..]));
      sum := Plus(sum, Word(data[i], data[i + 1]));
      i := i + 2;
    }
    if |data| % 2 == 1 {
      sum := Plus(sum, Word(data[|data| - 1], 0));
    }
  }

  lemma PlusMoves(a: nat, b: nat, c: nat)
    ensures Plus(Plus(a, b), c) == Plus(a, b + c)
  {
  }

  /** To4 finds exactly the addresses that take four bytes on the wire. */
  lemma WireForm(ip: seq<Byte>)
    ensures To4(ip) == if |OnWire(ip)| == 4 then Some(OnWire(ip)) else None
  {
    var mapped: seq<Byte> := [0, 0, 0, 0, 0, 0, 0, 0, 0, 0, 255, 255];
    if |ip| == 16 {
      forall k | 0 <= k < 12 ensures ip[..12][k] == ip[k] {
      }
      if To4(ip).Some? {
        assert ip[..12] == mapped;
      } else if ip[..12] == mapped {
        forall k | 0 <= k < 12 ensures ip[k] == mapped[k] {
        }
        assert false;
      }
    }
  }

  /** net.IP.To16 of an address that is not IPv4; empty for nil. */
  function To16(ip: seq<Byte>): seq<Byte> {
    if |ip| == 16 then ip else []
  }

  function Bytes4(ip: seq<Byte>): seq<Byte> {
    if To4(ip).Some? then To4(ip).value else []
  }

  /** The sum before folding, without bound. */
  function BaseTotal(src: seq<Byte>, dst: seq<Byte>, srcPort: int, dstPort: int, udpLen: nat, payload: seq<Byte>): nat {
    (if To4(src).Some? then WordSum(Bytes4(src)) + WordSum(Bytes4(dst)) + 0x11 + udpLen % 0x10000
     else WordSum(To16(src)) + WordSum(To16(dst)) + udpLen / 0x10000 % 0x10000 + udpLen % 0x10000 + 0x11)
    + srcPort % 0x10000 + dstPort % 0x10000 + udpLen % 0x10000 + WordSum(payload)
  }

  function BaseSum(src: seq<Byte>, dst: seq<Byte>, srcPort: int, dstPort: int, udpLen: nat, payload: seq<Byte>): nat {
    FoldSum(BaseTotal(src, dst, srcPort, dstPort, udpLen, payload) % WORD)
  }

  method UdpBaseSum(src: seq<Byte>, dst: seq<Byte>, srcPort: int, dstPort: int, udpLen: nat, payload: seq<Byte>)
    returns (r: nat)
    requires udpLen < WORD
    ensures r == BaseSum(src, dst, srcPort, dstPort, udpLen, payload) <= 0xFFFF
  {
    hide WordSum, Plus;
    PlusIsSum(0, 0);
    var sum: nat := 0;
    ghost var total: nat := 0;
    if To4(src).Some? {
      sum := AddBytes(sum, Bytes4(src));
      PlusIsSum(total, WordSum(Bytes4(src)));
      total := total + WordSum(Bytes4(src));
      sum := AddBytes(sum, Bytes4(dst));
      PlusIsSum(total, WordSum(Bytes4(dst)));
      total := total + WordSum(Bytes4(dst));
      PlusIsSum(total, 0x11);
      sum := Plus(sum, 0x11);
      PlusIsSum(total + 0x11, udpLen % 0x10000);
      sum := Plus(sum, udpLen % 0x10000);
      total := total + 0x11 + udpLen % 0x10000;
    } else {
      sum := AddBytes(sum, To16(src));
      PlusIsSum(total, WordSum(To16(src)));
      total := total + WordSum(To16(src));
      sum := AddBytes(sum, To16(dst));
      PlusIsSum(total, WordSum(To16(dst)));
      total := total + WordSum(To16(dst));
      PlusIsSum(total, udpLen / 0x10000 % 0x10000);
      sum := Plus(sum, udpLen / 0x10000 % 0x10000);
      total := total + udpLen / 0x10000 % 0x10000;
      PlusIsSum(total, udpLen % 0x10000);
      sum := Plus(sum, udpLen % 0x10000);
      PlusIsSum(total + udpLen % 0x10000, 0x11);
      sum := Plus(sum, 0x11);
      total := total + udpLen % 0x10000 + 0x11;
    }
    sum := AddTail(sum, total, srcPort, dstPort, udpLen, payload);
    r := Fold16(sum);
  }

  method AddTail(sum0: nat, ghost total: nat, srcPort: int, dstPort: int, udpLen: nat, payload: seq<Byte>) returns (sum: nat)
    requires sum0 == total % WORD
    ensures sum == (total + srcPort % 0x10000 + dstPort % 0x10000 + udpLen % 0x10000 + WordSum(payload)) % WORD
  {
    hide WordSum, Plus;
    PlusIsSum(total, srcPort % 0x10000);
    sum := Plus(sum0, srcPort % 0x10000);
    PlusIsSum(total + srcPort % 0x10000, dstPort % 0x10000);
    sum := Plus(sum, dstPort % 0x10000);
    PlusIsSum(total + srcPort % 0x10000 + dstPort % 0x10000, udpLen % 0x10000);
    sum := Plus(sum, udpLen % 0x10000);
    PlusIsSum(total + srcPort % 0x10000 + dstPort % 0x10000 + udpLen % 0x10000, WordSum(payload));
    sum := AddBytes(sum, payload);
  }

  lemma PlusIsSum(total: nat, x: nat)
    ensures Plus(total % WORD, x) == (total + x) % WORD
  {
  }

  /** The word that takes the sum s0 to the complement of the target. */
  function FudgeWord(s0: nat, target: nat): nat
    requires s0 <= 0xFFFF && target <= 0xFFFF
  {
    FoldSum(Complement(target) + Complement(s0))
  }

  datatype Outcome = Steered | TooShort | VersionMismatch

  /** Writes payload[0..2] so that the checksum becomes the target. */
  method MakePayloadWithTargetChecksum(payload: array<Byte>, src: seq<Byte>, dst: seq<Byte>, srcPort: int, dstPort: int,
                                       target: nat)
    returns (o: Outcome)
    requires target <= 0xFFFF && payload.Length < WORD - 8
    modifies payload
    ensures o == if payload.Length < 2 then TooShort else if (|OnWire(src)| == 4) != (|OnWire(dst)| == 4) then VersionMismatch
                 else Steered
    ensures !o.Steered? ==> payload[..] == old(payload[..])
    ensures payload.Length >= 2 ==> payload[2..] == old(payload[2..])
    ensures o.Steered? ==> payload[..] == SteeredPayload(old(payload[..]), src, dst, srcPort, dstPort, target)
  {
    WireForm(src);
    WireForm(dst);
    if payload.Length < 2 { return TooShort; }
    if To4(src).None? != To4(dst).None? { return VersionMismatch; }
    payload[0], payload[1] := 0, 0;
    var udpLen := 8 + payload.Length;
    var s0 := UdpBaseSum(src, dst, srcPort, dstPort, udpLen, payload[..]);
    assert payload[..] == [0, 0] + old(payload[..])[2..];
    var fudge := Fold16(Complement(target) + Complement(s0));
    payload[0] := fudge / 256;
    payload[1] := fudge % 256;
    assert payload[..] == TwoBytes(fudge) + old(payload[..])[2..];
    return Steered;
  }

  function SteeredPayload(payload: seq<Byte>, src: seq<Byte>, dst: seq<Byte>, srcPort: int, dstPort: int, target: nat): seq<Byte>
    requires 2 <= |payload| && target <= 0xFFFF
  {
    var zeroed := [0, 0] + payload[2..];
    var s0 := BaseSum(src, dst, srcPort, dstPort, 8 + |payload|, zeroed);
    FoldIsFolded(BaseTotal(src, dst, srcPort, dstPort, 8 + |payload|, zeroed) % WORD);
    TwoBytes(FudgeWord(s0, target)) + payload[2..]
  }

  // ----- Folding -----

  /** What folding comes to: the residue modulo 0xFFFF, with zero only for zero. */
  lemma {:induction false} FoldIsFolded(sum: nat)
    ensures FoldSum(sum) == if sum == 0 then 0 else (sum - 1) % 0xFFFF + 1
    decreases sum
  {
    if sum / 0x10000 != 0 {
      var next := sum % 0x10000 + sum / 0x10000;
      FoldIsFolded(next);
      assert sum - next == sum / 0x10000 * 0xFFFF;
      SameResidue(next - 1, sum / 0x10000);
    }
  }

  lemma SameResidue(x: nat, k: nat)
    ensures (x + k * 0xFFFF) % 0xFFFF == x % 0xFFFF
  {
    if k > 0 {
      SameResidue(x, k - 1);
      assert x + k * 0xFFFF == (x + (k - 1) * 0xFFFF) + 0xFFFF;
    }
  }

  /** Adding with end-around carry and folding the plain sum agree. */
  lemma {:induction false} OnesSumIsFold(bytes: seq<Byte>)
    ensures OnesSum(bytes) == FoldSum(WordSum(bytes))
  {
    FoldIsFolded(WordSum(bytes));
    if |bytes| > 1 {
      OnesSumIsFold(bytes[2..]);
      FoldIsFolded(WordSum(bytes[2..]));
      FoldAdds(Word(bytes[0], bytes[1]), WordSum(bytes[2..]));
    }
  }

  lemma FoldAdds(a: nat, b: nat)
    requires a <= 0xFFFF
    ensures OnesAdd(a, FoldSum(b)) == FoldSum(a + b)
  {
    hide FoldSum;
    FoldIsFolded(b);
    FoldIsFolded(a + b);
    if b > 0 {
      var q, r := (b - 1) / 0xFFFF, (b - 1) % 0xFFFF;
      assert b - 1 == q * 0xFFFF + r;
      if a + r < 0xFFFF {
        SameResidue(a + r, q);
      } else {
        SameResidue(a + r - 0xFFFF, q + 1);
      }
    }
  }

  lemma {:induction false} WordSumConcat(a: seq<Byte>, b: seq<Byte>)
    requires |a| % 2 == 0
    ensures WordSum(a + b) == WordSum(a) + WordSum(b)
  {
    if a == [] {
      assert a + b == b;
    } else {
      WordSumConcat(a[2..], b);
      assert (a + b)[2..] == a[2..] + b;
    }
  }

  lemma {:induction false} WordSumBound(a: seq<Byte>)
    ensures WordSum(a) <= (|a| + 1) / 2 * 0xFFFF
  {
    if |a| > 1 {
      WordSumBound(a[2..]);
    }
  }

  lemma TwoBytesSum(x: int, rest: seq<Byte>)
    ensures WordSum(TwoBytes(x) + rest) == x % 0x10000 + WordSum(rest)
  {
    assert (TwoBytes(x) + rest)[2..] == rest;
    assert x % 0x10000 / 256 * 256 + x % 256 == x % 0x10000;
  }

  // ----- The steered checksum -----

  /** Two IPv4 addresses, each in four bytes or mapped into sixteen, or two IPv6
      addresses. */
  ghost predicate SameFamily(src: seq<Byte>, dst: seq<Byte>) {
    |OnWire(src)| == |OnWire(dst)| && (|OnWire(src)| == 4 || |OnWire(src)| == 16)
  }

  /** The plain sum over pseudo-header and datagram is what the program adds up. */
  lemma TotalOfDatagram(src: seq<Byte>, dst: seq<Byte>, srcPort: int, dstPort: int, payload: seq<Byte>)
    requires SameFamily(src, dst) && |payload| <= 65527
    ensures WordSum(PseudoHeader(src, dst, 8 + |payload|) + Datagram(srcPort, dstPort, 0, payload))
         == BaseTotal(src, dst, srcPort, dstPort, 8 + |payload|, payload)
  {
    hide WordSum, TwoBytes, OnWire, To4;
    FamilySizes(src, dst);
    var len := 8 + |payload|;
    DatagramSum(srcPort, dstPort, payload);
    PseudoSum(src, dst, len);
    WordSumConcat(PseudoHeader(src, dst, len), Datagram(srcPort, dstPort, 0, payload));
  }

  lemma DatagramSum(srcPort: int, dstPort: int, payload: seq<Byte>)
    ensures WordSum(Datagram(srcPort, dstPort, 0, payload))
         == srcPort % 0x10000 + dstPort % 0x10000 + (8 + |payload|) % 0x10000 + WordSum(payload)
  {
    hide WordSum, TwoBytes;
    var len := 8 + |payload|;
    var d := TwoBytes(0) + payload;
    TwoBytesSum(0, payload);
    TwoBytesSum(len, d);
    TwoBytesSum(dstPort, TwoBytes(len) + d);
    TwoBytesSum(srcPort, TwoBytes(dstPort) + (TwoBytes(len) + d));
    assert Datagram(srcPort, dstPort, 0, payload) == TwoBytes(srcPort) + (TwoBytes(dstPort) + (TwoBytes(len) + d));
  }

  lemma EvenTwo(x: int)
    ensures |TwoBytes(x)| == 2
    ensures WordSum(TwoBytes(x)) == x % 0x10000
  {
    TwoBytesSum(x, []);
    assert TwoBytes(x) + [] == TwoBytes(x);
  }

  lemma ProtocolWord()
    ensures WordSum([0, UDP_PROTOCOL]) == 0x11 && WordSum([0, 0]) == 0
  {
  }

  lemma Pseudo4(s: seq<Byte>, d: seq<Byte>, len: seq<Byte>)
    requires |s| == 4 && |d| == 4 && |len| == 2
    ensures |s + d + [0, UDP_PROTOCOL] + len| == 12
    ensures WordSum(s + d + [0, UDP_PROTOCOL] + len) == WordSum(s) + WordSum(d) + 0x11 + WordSum(len)
  {
    hide WordSum;
    ProtocolWord();
    WordSumConcat(s, d);
    WordSumConcat(s + d, [0, UDP_PROTOCOL]);
    WordSumConcat(s + d + [0, UDP_PROTOCOL], len);
  }

  lemma Pseudo6(s: seq<Byte>, d: seq<Byte>, high: seq<Byte>, low: seq<Byte>)
    requires |s| == 16 && |d| == 16 && |high| == 2 && |low| == 2
    ensures |s + d + high + low + [0, 0] + [0, UDP_PROTOCOL]| == 40
    ensures WordSum(s + d + high + low + [0, 0] + [0, UDP_PROTOCOL]) ==
      WordSum(s) + WordSum(d) + WordSum(high) + WordSum(low) + 0x11
  {
    hide WordSum;
    ProtocolWord();
    WordSumConcat(s, d);
    WordSumConcat(s + d, high);
    WordSumConcat(s + d + high, low);
    WordSumConcat(s + d + high + low, [0, 0]);
    WordSumConcat(s + d + high + low + [0, 0], [0, UDP_PROTOCOL]);
  }

  lemma FamilySizes(src: seq<Byte>, dst: seq<Byte>)
    requires SameFamily(src, dst)
    ensures if To4(src).Some? then |OnWire(src)| == |OnWire(dst)| == 4 else |OnWire(src)| == |OnWire(dst)| == 16
    ensures To4(src).Some? ==> Bytes4(src) == OnWire(src) && Bytes4(dst) == OnWire(dst)
    ensures To4(src).None? ==> To16(src) == OnWire(src) && To16(dst) == OnWire(dst)
  {
    WireForm(src);
    WireForm(dst);
  }

  lemma PseudoSum(src: seq<Byte>, dst: seq<Byte>, len: nat)
    requires SameFamily(src, dst) && len < WORD
    ensures |PseudoHeader(src, dst, len)| % 2 == 0
    ensures WordSum(PseudoHeader(src, dst, len)) ==
      if To4(src).Some? then WordSum(OnWire(src)) + WordSum(OnWire(dst)) + 0x11 + len % 0x10000
      else WordSum(OnWire(src)) + WordSum(OnWire(dst)) + len / 0x10000 % 0x10000 + len % 0x10000 + 0x11
  {
    hide WordSum, TwoBytes, To4, OnWire, SameFamily;
    FamilySizes(src, dst);
    EvenTwo(len);
    EvenTwo(len / 0x10000);
    if To4(src).Some? {
      Pseudo4(OnWire(src), OnWire(dst), TwoBytes(len));
    } else {
      Pseudo6(OnWire(src), OnWire(dst), TwoBytes(len / 0x10000), TwoBytes(len));
    }
  }

  /** No 32-bit overflow on the way, and never an empty sum. */
  lemma NoOverflow(src: seq<Byte>, dst: seq<Byte>, srcPort: int, dstPort: int, payload: seq<Byte>)
    requires SameFamily(src, dst) && |payload| <= 65527
    ensures 0 < BaseTotal(src, dst, srcPort, dstPort, 8 + |payload|, payload) < WORD
  {
    hide WordSum, OnWire, To4;
    FamilySizes(src, dst);
    WordSumBound(OnWire(src));
    WordSumBound(OnWire(dst));
    WordSumBound(payload);
  }

  /** The transmitted checksum is the target for every target but zero, which
      comes out as 0xFFFF: zero would mean "no checksum". */
  lemma SteeredChecksum(payload: seq<Byte>, src: seq<Byte>, dst: seq<Byte>, srcPort: int, dstPort: int, target: nat)
    requires 2 <= |payload| <= 65527 && SameFamily(src, dst) && target <= 0xFFFF
    ensures UdpChecksum(src, dst, srcPort, dstPort, SteeredPayload(payload, src, dst, srcPort, dstPort, target))
         == if target == 0 then 0xFFFF else target
  {
    hide WordSum, OnesSum, FoldSum, TwoBytes, PseudoHeader, Datagram, BaseTotal;
    var zeroed := [0, 0] + payload[2..];
    var total := BaseTotal(src, dst, srcPort, dstPort, 8 + |payload|, zeroed);
    NoOverflow(src, dst, srcPort, dstPort, zeroed);
    FoldIsFolded(total);
    var fudge := FudgeWord(FoldSum(total), target);
    var steered := SteeredPayload(payload, src, dst, srcPort, dstPort, target);
    assert steered == TwoBytes(fudge) + payload[2..];
    FoldIsFolded(Complement(target) + Complement(FoldSum(total)));
    LengthOfSteered(fudge, payload);
    OneMoreWord(src, dst, srcPort, dstPort, payload, fudge);
    TotalOfDatagram(src, dst, srcPort, dstPort, steered);
    OnesSumIsFold(PseudoHeader(src, dst, 8 + |steered|) + Datagram(srcPort, dstPort, 0, steered));
    Steers(total, fudge, target);
  }

  lemma LengthOfSteered(fudge: nat, payload: seq<Byte>)
    requires 2 <= |payload|
    ensures |TwoBytes(fudge) + payload[2..]| == |payload|
  {
  }

  lemma OneMoreWord(src: seq<Byte>, dst: seq<Byte>, srcPort: int, dstPort: int, payload: seq<Byte>, fudge: nat)
    requires 2 <= |payload| && fudge <= 0xFFFF
    ensures BaseTotal(src, dst, srcPort, dstPort, 8 + |payload|, TwoBytes(fudge) + payload[2..])
         == BaseTotal(src, dst, srcPort, dstPort, 8 + |payload|, [0, 0] + payload[2..]) + fudge
  {
    hide WordSum;
    TwoBytesSum(fudge, payload[2..]);
    TwoBytesSum(0, payload[2..]);
    assert TwoBytes(0) == [0, 0];
  }

  lemma Steers(total: nat, fudge: nat, target: nat)
    requires total > 0 && target <= 0xFFFF
    requires FoldSum(total) <= 0xFFFF && fudge == FoldSum(Complement(target) + Complement(FoldSum(total)))
    ensures FoldSum(total + fudge) == if target == 0 || target == 0xFFFF then 0xFFFF else Complement(target)
  {
    hide FoldSum;
    FoldIsFolded(total);
    FoldIsFolded(Complement(target) + Complement(FoldSum(total)));
    FoldIsFolded(total + fudge);
    var q := (total - 1) / 0xFFFF;
    var s0 := FoldSum(total);
    assert total == q * 0xFFFF + s0;
    var x := Complement(target) + Complement(s0);
    var k := if fudge == x then 0 else 1;
    assert x == fudge + k * 0xFFFF;
    assert total + fudge == (q + 1 - k) * 0xFFFF + Complement(target);
    if Complement(target) > 0 {
      SameResidue(Complement(target) - 1, q + 1 - k);
    } else {
      SameResidue(0xFFFF - 1, q - k);
    }
  }

  // ----- A probe's number comes back -----

  function GetUdpSeqV6(data: seq<Byte>): Option<nat> {
    if |data| < 8 then None else Some(Word(data[6], data[7]))
  }

  /** A UDP probe over IPv6 for attempt (ttl, i), quoted back by a router, is
      decoded to the same attempt. */
  lemma ProbeComesBack(payload: seq<Byte>, src: seq<Byte>, dst: seq<Byte>, srcPort: int, dstPort: int, ttl: int, i: int)
    requires 2 <= |payload| <= 65527 && SameFamily(src, dst) && 1 <= ttl <= 255 && 0 <= i <= 255
    ensures 1 <= TraceProtocol.NumOf(ttl, i) <= 0xFFFF
    ensures var num := TraceProtocol.NumOf(ttl, i);
      var steered := SteeredPayload(payload, src, dst, srcPort, dstPort, num);
      var sent := Datagram(srcPort, dstPort, UdpChecksum(src, dst, srcPort, dstPort, steered), steered);
      GetUdpSeqV6(sent) == Some(num) && TraceProtocol.Decode(num) == TraceProtocol.Key(ttl, i)
  {
    hide OnesSum, PseudoHeader, SteeredPayload;
    var num := TraceProtocol.NumOf(ttl, i);
    TraceProtocol.DecodeExact(ttl, i);
    SteeredChecksum(payload, src, dst, srcPort, dstPort, num);
    var steered := SteeredPayload(payload, src, dst, srcPort, dstPort, num);
    var sent := Datagram(srcPort, dstPort, num, steered);
    assert sent[6] == TwoBytes(num)[0] && sent[7] == TwoBytes(num)[1];
  }
}
