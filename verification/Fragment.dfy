/** IPv4 fragmentation, and reassembly as section 3.2 of RFC 791 describes it. */
module Fragment {
  import opened Text
  import opened Checksum

  const MORE_FRAGMENTS := 1
  const DONT_FRAGMENT := 2
  const OFFSET_RANGE := 0x2000

  /** ipv4.Header; flags and fragOff are bit fields held in non-negative ints. */
  datatype Header = Header(len: int, totalLen: int, flags: nat, fragOff: nat, checksum: int, id: int, tos: int, ttl: int,
                           protocol: int, src: seq<Byte>, dst: seq<Byte>)

  datatype Fragment = Fragment(hdr: Header, body: seq<Byte>)

  datatype Outcome = Fragments(frags: seq<Fragment>) | MtuTooSmall | DontFragmentSet

  function Without(flags: nat, bit: nat): nat
    requires bit > 0
  {
    if flags / bit % 2 == 1 then flags - bit else flags
  }

  /** The header of the fragment at off. */
  function HeaderAt(base: Header, off: nat, fragLen: nat, more: bool): Header {
    var flags := Without(base.flags, MORE_FRAGMENTS);
    base.(totalLen := base.len + fragLen, checksum := 0,
          flags := if more then flags + MORE_FRAGMENTS else flags,
          fragOff := base.fragOff - base.fragOff % OFFSET_RANGE + off / 8 % OFFSET_RANGE)
  }

  predicate DontFragment(base: Header) {
    base.flags / DONT_FRAGMENT % 2 == 1
  }

  function Aligned(base: Header, mtu: int): int {
    (mtu - base.len) / 8 * 8
  }

  /** All fragments from off on. */
  function FragmentsFrom(base: Header, body: seq<Byte>, aligned: nat, off: nat): seq<Fragment>
    requires aligned > 0
    decreases |body| - off
  {
    if off >= |body| then []
    else
      var more := off + aligned < |body|;
      var fragLen := if more then aligned else |body| - off;
      [Fragment(HeaderAt(base, off, fragLen, more), body[off..off + fragLen])] + FragmentsFrom(base, body, aligned, off + fragLen)
  }

  /** An MTU that leaves fewer than eight bytes is not handled by the program:
      it divides by the aligned size. */
  method Fragmentize(base: Header, body: seq<Byte>, mtu: int) returns (o: Outcome)
    requires mtu <= base.len || base.flags % 4 >= 2 || mtu - base.len >= 8
    ensures mtu <= base.len ==> o == MtuTooSmall
    ensures mtu > base.len && base.flags % 4 >= 2 ==> o == DontFragmentSet
    ensures mtu > base.len && base.flags % 4 < 2 ==> o == Fragments(FragmentsFrom(base, body, Aligned(base, mtu), 0))
  {
    if mtu <= base.len { return MtuTooSmall; }
    if DontFragment(base) { return DontFragmentSet; }
    var aligned := (mtu - base.len) / 8 * 8;
    var frags: seq<Fragment> := [];
    var off: nat := 0;
    while off < |body|
      invariant off <= |body|
      invariant frags + FragmentsFrom(base, body, aligned, off) == FragmentsFrom(base, body, aligned, 0)
    {
      var more := off + aligned < |body|;
      var fragLen := |body| - off;
      if more {
        fragLen := aligned;
      }
      frags := frags + [Fragment(HeaderAt(base, off, fragLen, more), body[off..off + fragLen])];
      off := off + fragLen;
    }
    return Fragments(frags);
  }

  // ----- Each fragment -----

  /** The fragment carries body[off..off + |f.body|] and says so. */
  ghost predicate Carries(f: Fragment, base: Header, body: seq<Byte>, aligned: nat, off: nat) {
    && off + |f.body| <= |body| && f.body == body[off..off + |f.body|] && 0 < |f.body| <= aligned
    && f.hdr.totalLen == base.len + |f.body|
    && f.hdr.fragOff % 0x2000 * 8 == off
    && f.hdr.fragOff / 0x2000 == base.fragOff / 0x2000
    && (f.hdr.flags % 2 == 1 <==> off + |f.body| < |body|)
    && (off + |f.body| < |body| ==> |f.body| == aligned)
    && f.hdr.flags - f.hdr.flags % 2 == base.flags - base.flags % 2
    && f.hdr == base.(totalLen := f.hdr.totalLen, flags := f.hdr.flags, fragOff := f.hdr.fragOff, checksum := 0)
  }

  lemma HeaderCarries(base: Header, body: seq<Byte>, aligned: nat, off: nat, fragLen: nat, more: bool)
    requires off % 8 == 0 && off < |body| <= 65535 && aligned > 0
    requires more == (off + aligned < |body|) && fragLen == if more then aligned else |body| - off
    ensures Carries(Fragment(HeaderAt(base, off, fragLen, more), body[off..off + fragLen]), base, body, aligned, off)
  {
    var flags := Without(base.flags, MORE_FRAGMENTS);
    assert flags % 2 == 0 && flags == base.flags - base.flags % 2;
    assert (flags + 1) % 2 == 1;
    assert off / 8 < OFFSET_RANGE;
    BitField(base.fragOff, off / 8);
  }

  /** Writing the low bits leaves the high ones. */
  lemma BitField(old_: nat, low: nat)
    requires low < OFFSET_RANGE
    ensures (old_ - old_ % OFFSET_RANGE + low) % OFFSET_RANGE == low
  {
    assert old_ - old_ % OFFSET_RANGE == old_ / OFFSET_RANGE * OFFSET_RANGE;
  }

  /** How many pieces n bytes make. */
  function Pieces(n: nat, aligned: nat): nat
    requires aligned > 0
  {
    (n + aligned - 1) / aligned
  }

  /** Fragment k carries the aligned piece number k from off on. */
  ghost predicate AllCarry(frags: seq<Fragment>, base: Header, body: seq<Byte>, aligned: nat, off: nat) {
    forall k :: 0 <= k < |frags| ==> Carries(frags[k], base, body, aligned, off + k * aligned)
  }

  lemma NoneCarry(base: Header, body: seq<Byte>, aligned: nat, off: nat)
    ensures AllCarry([], base, body, aligned, off)
  {
  }

  lemma CarryAt(frags: seq<Fragment>, base: Header, body: seq<Byte>, aligned: nat, off: nat, k: nat)
    requires AllCarry(frags, base, body, aligned, off) && k < |frags|
    ensures Carries(frags[k], base, body, aligned, off + k * aligned)
  {
  }

  /** The k-th fragment carries the k-th aligned piece, there are as many as are
      needed, and only the last may be shorter. */
  lemma {:induction false} FragmentsCarry(base: Header, body: seq<Byte>, aligned: nat, off: nat)
    requires aligned > 0 && aligned % 8 == 0 && off % 8 == 0 && off < |body| <= 65535
    ensures var frags := FragmentsFrom(base, body, aligned, off);
      && |frags| == Pieces(|body| - off, aligned)
      && AllCarry(frags, base, body, aligned, off)
    decreases |body| - off
  {
    hide HeaderAt, Carries, AllCarry, Pieces;
    var more := off + aligned < |body|;
    var fragLen := if more then aligned else |body| - off;
    HeaderCarries(base, body, aligned, off, fragLen, more);
    var first := Fragment(HeaderAt(base, off, fragLen, more), body[off..off + fragLen]);
    var frags := FragmentsFrom(base, body, aligned, off);
    if more {
      FragmentsCarry(base, body, aligned, off + aligned);
      var rest := FragmentsFrom(base, body, aligned, off + aligned);
      assert frags == [first] + rest;
      OneMorePiece(|body| - off - aligned, aligned);
      ConsCarries(first, rest, base, body, aligned, off);
    } else {
      assert FragmentsFrom(base, body, aligned, off + fragLen) == [];
      NoneCarry(base, body, aligned, off + aligned);
      ConsCarries(first, [], base, body, aligned, off);
      assert frags == [first] + [];
      LastPiece(|body| - off, aligned);
    }
  }

  lemma ConsCarries(first: Fragment, rest: seq<Fragment>, base: Header, body: seq<Byte>, aligned: nat, off: nat)
    requires Carries(first, base, body, aligned, off)
    requires AllCarry(rest, base, body, aligned, off + aligned)
    ensures AllCarry([first] + rest, base, body, aligned, off)
  {
    hide Carries;
    var frags := [first] + rest;
    forall k | 0 <= k < |frags| ensures Carries(frags[k], base, body, aligned, off + k * aligned) {
      if k > 0 {
        NextOffset(off, aligned, k);
        assert frags[k] == rest[k - 1];
      }
    }
  }

  lemma NextOffset(off: nat, aligned: nat, k: nat)
    requires k > 0
    ensures (off + aligned) + (k - 1) * aligned == off + k * aligned
  {
  }

  lemma OneMorePiece(n: nat, aligned: nat)
    requires aligned > 0
    ensures Pieces(n + aligned, aligned) == 1 + Pieces(n, aligned)
  {
    var x := n + aligned - 1;
    var q := x / aligned;
    assert x == q * aligned + x % aligned;
    assert (q + 1) * aligned == q * aligned + aligned;
    Quotient(x + aligned, aligned, q + 1);
  }

  lemma Quotient(x: nat, d: nat, q: nat)
    requires d > 0 && q * d <= x < q * d + d
    ensures x / d == q
  {
    var k := x / d;
    assert k * d <= x < k * d + d;
    if k < q {
      MulMonotone(k + 1, q, d);
    } else if k > q {
      MulMonotone(q + 1, k, d);
    }
  }

  lemma LastPiece(n: nat, aligned: nat)
    requires 0 < n <= aligned
    ensures Pieces(n, aligned) == 1
  {
  }

  /** Every fragment fits the MTU; all but the last are multiples of eight. */
  lemma FragmentsFit(base: Header, body: seq<Byte>, mtu: int, k: nat)
    requires mtu - base.len >= 8 && 0 < |body| <= 65535 && k < |FragmentsFrom(base, body, Aligned(base, mtu), 0)|
    ensures var frags := FragmentsFrom(base, body, Aligned(base, mtu), 0);
      var aligned := Aligned(base, mtu);
      && frags[k].hdr.totalLen <= mtu
      && |frags| == (|body| + aligned - 1) / aligned
      && (k < |frags| - 1 ==> |frags[k].body| == aligned && aligned % 8 == 0 && frags[k].hdr.flags % 2 == 1)
      && (k == |frags| - 1 ==> frags[k].hdr.flags % 2 == 0)
      && frags[k].hdr.fragOff % OFFSET_RANGE * 8 == k * aligned
  {
    hide FragmentsFrom;
    var aligned := Aligned(base, mtu);
    FragmentsCarry(base, body, aligned, 0);
    var frags := FragmentsFrom(base, body, aligned, 0);
    assert Carries(frags[k], base, body, aligned, 0 + k * aligned);
    PieceBounds(|body|, aligned, k);
  }

  /** Piece k of n bytes ends before n exactly when it is not the last. */
  lemma PieceBounds(n: nat, aligned: nat, k: nat)
    requires aligned > 0 && n > 0 && k < (n + aligned - 1) / aligned
    ensures k < (n + aligned - 1) / aligned - 1 <==> k * aligned + aligned < n
    ensures k * aligned < n
  {
    var c := (n + aligned - 1) / aligned;
    assert c * aligned <= n + aligned - 1 < c * aligned + aligned;
    if k < c - 1 {
      MulMonotone(k + 2, c, aligned);
      assert (k + 2) * aligned == k * aligned + 2 * aligned;
    } else {
      assert k == c - 1;
      assert k * aligned == c * aligned - aligned;
    }
  }

  lemma MulMonotone(a: nat, b: nat, m: nat)
    requires a <= b
    ensures a * m <= b * m
  {
  }

  // ----- Reassembly -----

  type Buffer = seq<Option<Byte>>

  /** Puts the data of one fragment at its offset. */
  function Place(buffer: Buffer, f: Fragment): Buffer {
    var off := f.hdr.fragOff % OFFSET_RANGE * 8;
    seq(|buffer|, p requires 0 <= p < |buffer| => if off <= p < off + |f.body| then Some(f.body[p - off]) else buffer[p])
  }

  function PlaceAll(buffer: Buffer, arrived: seq<Fragment>): Buffer
    decreases |arrived|
  {
    if arrived == [] then buffer else PlaceAll(Place(buffer, arrived[0]), arrived[1..])
  }

  /** The total length, known from the fragment without more to come. */
  function TotalLength(arrived: seq<Fragment>): Option<nat> {
    if arrived == [] then None
    else if arrived[0].hdr.flags % 2 == 0 then Some(arrived[0].hdr.fragOff % OFFSET_RANGE * 8 + |arrived[0].body|)
    else TotalLength(arrived[1..])
  }

  function Reassemble(arrived: seq<Fragment>): Option<Buffer> {
    match TotalLength(arrived)
    case None => None
    case Some(n) => Some(PlaceAll(seq(n, p => None), arrived))
  }

  ghost predicate Covers(f: Fragment, p: int) {
    f.hdr.fragOff % OFFSET_RANGE * 8 <= p < f.hdr.fragOff % OFFSET_RANGE * 8 + |f.body|
  }

  /** f is a piece of body where it says. */
  ghost predicate PieceOf(f: Fragment, body: seq<Byte>) {
    var off := f.hdr.fragOff % OFFSET_RANGE * 8;
    off + |f.body| <= |body| && f.body == body[off..off + |f.body|]
  }

  lemma {:induction false} PlacedBytes(buffer: Buffer, arrived: seq<Fragment>, body: seq<Byte>, p: int)
    requires |buffer| == |body| && 0 <= p < |body| && forall f :: f in arrived ==> PieceOf(f, body)
    ensures |PlaceAll(buffer, arrived)| == |body|
    ensures PlaceAll(buffer, arrived)[p] ==
      if exists k :: 0 <= k < |arrived| && Covers(arrived[k], p) then Some(body[p]) else buffer[p]
    decreases |arrived|
  {
    if arrived != [] {
      assert PieceOf(arrived[0], body);
      PlacedBytes(Place(buffer, arrived[0]), arrived[1..], body, p);
      if exists k :: 0 <= k < |arrived[1..]| && Covers(arrived[1..][k], p) {
        var k :| 0 <= k < |arrived[1..]| && Covers(arrived[1..][k], p);
        assert Covers(arrived[k + 1], p);
      } else if Covers(arrived[0], p) {
      } else {
        forall k | 0 <= k < |arrived| ensures !Covers(arrived[k], p) {
          if k > 0 { assert arrived[k] == arrived[1..][k - 1]; }
        }
      }
    }
  }

  lemma {:induction false} LengthIsKnown(arrived: seq<Fragment>, n: nat, last: Fragment)
    requires last in arrived && last.hdr.flags % 2 == 0
    requires forall f :: f in arrived && f.hdr.flags % 2 == 0 ==> f.hdr.fragOff % OFFSET_RANGE * 8 + |f.body| == n
    ensures TotalLength(arrived) == Some(n)
    decreases |arrived|
  {
    if arrived[0].hdr.flags % 2 != 0 {
      LengthIsKnown(arrived[1..], n, last);
    }
  }

  lemma PieceFacts(f: Fragment, base: Header, body: seq<Byte>, aligned: nat, off: nat)
    requires Carries(f, base, body, aligned, off)
    ensures PieceOf(f, body)
    ensures f.hdr.flags % 2 == 0 <==> f.hdr.fragOff % OFFSET_RANGE * 8 + |f.body| == |body|
    ensures forall p :: Covers(f, p) <==> off <= p < off + |f.body|
    ensures |f.body| == if off + aligned < |body| then aligned else |body| - off
  {
  }

  /** Every fragment is a piece of the body; the one without more to come ends
      where the body ends. */
  lemma AllArePieces(base: Header, body: seq<Byte>, mtu: int)
    requires mtu - base.len >= 8 && 0 < |body| <= 65535
    ensures var frags := FragmentsFrom(base, body, Aligned(base, mtu), 0);
      && |frags| > 0 && frags[|frags| - 1].hdr.flags % 2 == 0
      && forall f :: f in frags ==>
           PieceOf(f, body) && (f.hdr.flags % 2 == 0 ==> f.hdr.fragOff % OFFSET_RANGE * 8 + |f.body| == |body|)
  {
    hide FragmentsFrom, Carries, PieceOf;
    var aligned := Aligned(base, mtu);
    var frags := FragmentsFrom(base, body, aligned, 0);
    FragmentsCarry(base, body, aligned, 0);
    forall f | f in frags
      ensures PieceOf(f, body) && (f.hdr.flags % 2 == 0 ==> f.hdr.fragOff % OFFSET_RANGE * 8 + |f.body| == |body|)
    {
      var k :| 0 <= k < |frags| && frags[k] == f;
      PieceFacts(frags[k], base, body, aligned, 0 + k * aligned);
    }
    PieceExists(|body|, aligned, 0);
    FragmentsFit(base, body, mtu, |frags| - 1);
  }

  lemma PieceCovers(f: Fragment, base: Header, body: seq<Byte>, aligned: nat, off: nat, p: nat)
    requires Carries(f, base, body, aligned, off) && off <= p < off + aligned && p < |body|
    ensures Covers(f, p)
  {
    PieceFacts(f, base, body, aligned, off);
  }

  lemma SomeoneCovers(base: Header, body: seq<Byte>, mtu: int, p: nat)
    requires mtu - base.len >= 8 && 0 < |body| <= 65535 && p < |body|
    ensures exists f :: f in FragmentsFrom(base, body, Aligned(base, mtu), 0) && Covers(f, p)
  {
    hide FragmentsFrom, Carries, AllCarry, Covers, PieceOf, Pieces;
    var aligned := Aligned(base, mtu);
    FragmentsCarry(base, body, aligned, 0);
    var frags := FragmentsFrom(base, body, aligned, 0);
    var k := PieceWith(|body|, aligned, p);
    CarryAt(frags, base, body, aligned, 0, k);
    PieceCovers(frags[k], base, body, aligned, 0 + k * aligned, p);
    assert frags[k] in frags;
  }

  lemma PieceWith(n: nat, aligned: nat, p: nat) returns (k: nat)
    requires aligned > 0 && p < n
    ensures k < Pieces(n, aligned) && 0 + k * aligned <= p < 0 + k * aligned + aligned
  {
    k := p / aligned;
    PieceExists(n, aligned, p);
    DivBounds(p, aligned);
  }

  lemma DivBounds(p: nat, d: nat)
    requires d > 0
    ensures p / d * d <= p < p / d * d + d
  {
  }

  /** In whatever order the fragments arrive, and however often, once all of them
      are there reassembly by offset gives back the body. */
  lemma ReassemblyRestores(base: Header, body: seq<Byte>, mtu: int, arrived: seq<Fragment>)
    requires mtu - base.len >= 8 && 0 < |body| <= 65535
    requires forall f :: f in arrived <==> f in FragmentsFrom(base, body, Aligned(base, mtu), 0)
    ensures Reassemble(arrived) == Some(seq(|body|, p requires 0 <= p < |body| => Some(body[p])))
  {
    hide FragmentsFrom, PlaceAll, TotalLength, PieceOf, Covers;
    var frags := FragmentsFrom(base, body, Aligned(base, mtu), 0);
    AllArePieces(base, body, mtu);
    assert frags[|frags| - 1] in arrived;
    LengthIsKnown(arrived, |body|, frags[|frags| - 1]);
    var empty: Buffer := seq(|body|, p => None);
    forall p | 0 <= p < |body| ensures |PlaceAll(empty, arrived)| == |body| && PlaceAll(empty, arrived)[p] == Some(body[p]) {
      OneByteRestored(base, body, mtu, arrived, empty, p);
    }
    OneByteRestored(base, body, mtu, arrived, empty, 0);
    assert PlaceAll(empty, arrived) == seq(|body|, p requires 0 <= p < |body| => Some(body[p]));
  }

  lemma OneByteRestored(base: Header, body: seq<Byte>, mtu: int, arrived: seq<Fragment>, empty: Buffer, p: nat)
    requires mtu - base.len >= 8 && p < |body| <= 65535 && |empty| == |body| && empty[p] == None
    requires forall f :: f in arrived <==> f in FragmentsFrom(base, body, Aligned(base, mtu), 0)
    ensures |PlaceAll(empty, arrived)| == |body| && PlaceAll(empty, arrived)[p] == Some(body[p])
  {
    hide FragmentsFrom, PlaceAll, TotalLength, PieceOf, Covers;
    AllArePieces(base, body, mtu);
    PlacedBytes(empty, arrived, body, p);
    SomeoneCovers(base, body, mtu, p);
    var f :| f in FragmentsFrom(base, body, Aligned(base, mtu), 0) && Covers(f, p);
    var j :| 0 <= j < |arrived| && arrived[j] == f;
    assert Covers(arrived[j], p);
  }

  lemma PieceExists(n: nat, aligned: nat, p: nat)
    requires aligned > 0 && p < n
    ensures p / aligned < (n + aligned - 1) / aligned
  {
    var k, c := p / aligned, (n + aligned - 1) / aligned;
    assert k * aligned <= p;
    assert n + aligned - 1 < c * aligned + aligned;
    if k >= c {
      MulMonotone(c, k, aligned);
    }
  }
}
