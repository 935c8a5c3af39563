/** The geofeed table: rows sorted by their mask, written in hexadecimal, and
    looked up by first match.  First match should be longest prefix match
    (section 5.1 of RFC 4632); here is exactly when it is.

    The text of addresses and prefixes is parsed elsewhere, so the parsers are
    parameters, and so is the library's sort, of which only that it sorts is
    used. */
module GeoFeed {
  import opened Text

  type Bytes = seq<bv8>

  // ----------------------------------------------------------- addresses and masks

  const MAPPED_PREFIX: Bytes := [0, 0, 0, 0, 0, 0, 0, 0, 0, 0, 0xFF, 0xFF]

  /** The four-byte form of an address that has one. */
  function To4(ip: Bytes): Option<Bytes> {
    if |ip| == 4 then Some(ip)
    else if |ip| == 16 && ip[..12] == MAPPED_PREFIX then Some(ip[12..])
    else None
  }

  /** A byte whose first k bits are set. */
  function MaskByte(k: int): bv8 {
    if k <= 0 then 0x00 else if k == 1 then 0x80 else if k == 2 then 0xC0 else if k == 3 then 0xE0
    else if k == 4 then 0xF0 else if k == 5 then 0xF8 else if k == 6 then 0xFC else if k == 7 then 0xFE else 0xFF
  }

  /** As many bytes as asked for, the first `ones` bits set. */
  function CIDRMask(ones: nat, size: nat): (mask: Bytes)
    ensures |mask| == size
    ensures forall i :: 0 <= i < size ==> mask[i] == MaskByte(ones - 8 * i)
  {
    seq(size, i => MaskByte(ones - 8 * i))
  }

  function And(x: bv8, y: bv8): bv8 {
    x & y
  }

  function Masked(ip: Bytes, mask: Bytes): (r: Bytes)
    requires |ip| == |mask|
    ensures |r| == |ip|
    ensures forall i :: 0 <= i < |ip| ==> r[i] == And(ip[i], mask[i])
  {
    seq(|ip|, i requires 0 <= i < |ip| => And(ip[i], mask[i]))
  }

  /** A prefix as written: sixteen address bytes, whether it was written as an
      IPv4 address, and the number after the slash. */
  datatype Written = Written(addr: Bytes, dotted: bool, ones: nat)

  predicate IsWritten(p: Written) {
    && |p.addr| == 16
    && (p.dotted ==> p.addr[..12] == MAPPED_PREFIX && p.ones <= 32)
    && p.ones <= 128
  }

  datatype IPNet = IPNet(ip: Bytes, mask: Bytes)

  /** The network the library makes of it: four bytes when written dotted. */
  function NetOf(p: Written): IPNet
    requires IsWritten(p)
  {
    if p.dotted then IPNet(Masked(p.addr[12..], CIDRMask(p.ones, 4)), CIDRMask(p.ones, 4))
    else IPNet(Masked(p.addr, CIDRMask(p.ones, 16)), CIDRMask(p.ones, 16))
  }

  /** Number and mask to compare with, both four or both sixteen bytes. */
  function NumberAndMask(n: IPNet): Option<(Bytes, Bytes)> {
    var ip := match To4(n.ip) case Some(v4) => v4 case None => n.ip;
    if |ip| != 4 && |ip| != 16 then None
    else if |n.mask| == |ip| then Some((ip, n.mask))
    else if |n.mask| == 16 && |ip| == 4 then Some((ip, n.mask[12..]))
    else None
  }

  predicate Contains(n: IPNet, ip: Bytes) {
    var x := match To4(ip) case Some(v4) => v4 case None => ip;
    match NumberAndMask(n)
    case None => false
    case Some((number, mask)) =>
      |x| == |number| && |mask| == |number| &&
      forall i :: 0 <= i < |x| ==> And(number[i], mask[i]) == And(x[i], mask[i])
  }

  // ------------------------------------------------------------- the order of the masks

  function HexDigit(v: bv8): char {
    if v == 0 then '0' else if v == 8 then '8' else if v == 12 then 'c' else if v == 14 then 'e'
    else if v == 15 then 'f' else OtherDigit(v)
  }

  /** The digits that no mask of a prefix contains. */
  function OtherDigit(v: bv8): char {
    if v == 1 then '1' else if v == 2 then '2' else if v == 3 then '3' else if v == 4 then '4'
    else if v == 5 then '5' else if v == 6 then '6' else if v == 7 then '7' else if v == 9 then '9'
    else if v == 10 then 'a' else if v == 11 then 'b' else 'd'
  }

  function HighDigit(b: bv8): char {
    HexDigit(b >> 4)
  }

  function LowDigit(b: bv8): char {
    HexDigit(b & 0x0F)
  }

  function MaskString(mask: Bytes): string {
    seq(2 * |mask|, j requires 0 <= j < 2 * |mask| =>
      if j % 2 == 0 then HighDigit(mask[j / 2]) else LowDigit(mask[j / 2]))
  }

  /** Strings are compared as a dictionary does. */
  predicate Less(a: string, b: string) {
    b != "" && (a == "" || a[0] < b[0] || (a[0] == b[0] && Less(a[1..], b[1..])))
  }

  lemma {:induction false} LessAt(a: string, b: string, j: nat)
    requires j <= |a| && j < |b| && a[..j] == b[..j]
    requires j == |a| || a[j] < b[j]
    ensures Less(a, b) && !Less(b, a)
    decreases j
  {
    if j > 0 {
      assert a[0] == a[..j][0] == b[..j][0] == b[0];
      assert a[1..][..j - 1] == a[..j][1..] == b[..j][1..] == b[1..][..j - 1];
      LessAt(a[1..], b[1..], j - 1);
    }
  }

  /** The hexadecimal digit with the first k bits set. */
  function MaskDigit(k: int): char {
    if k <= 0 then '0' else if k == 1 then '8' else if k == 2 then 'c' else if k == 3 then 'e' else 'f'
  }

  lemma DigitOfByte(k: int)
    ensures HighDigit(MaskByte(k)) == MaskDigit(k)
    ensures LowDigit(MaskByte(k)) == MaskDigit(k - 4)
  {
  }

  lemma DigitOfMask(ones: nat, size: nat, j: nat)
    requires j < 2 * size
    ensures MaskString(CIDRMask(ones, size))[j] == MaskDigit(ones - 4 * j)
  {
    DigitOfByte(ones - 8 * (j / 2));
  }

  /** Among masks of one size, more ones is a greater string. */
  lemma LongerIsGreater(few: nat, many: nat, size: nat)
    requires few < many <= 8 * size
    ensures Less(MaskString(CIDRMask(few, size)), MaskString(CIDRMask(many, size)))
    ensures !Less(MaskString(CIDRMask(many, size)), MaskString(CIDRMask(few, size)))
  {
    var a, b, j := MaskString(CIDRMask(few, size)), MaskString(CIDRMask(many, size)), few / 4;
    forall k | 0 <= k < j ensures a[k] == b[k] {
      DigitOfMask(few, size, k);
      DigitOfMask(many, size, k);
    }
    assert a[..j] == b[..j];
    DigitOfMask(few, size, j);
    DigitOfMask(many, size, j);
    LessAt(a, b, j);
  }

  /** Any four-byte mask is less than a sixteen-byte mask of 96 ones or more. */
  lemma MappedIsGreater(ones4: nat, ones16: nat)
    requires ones4 <= 32 && 96 <= ones16 <= 128
    ensures Less(MaskString(CIDRMask(ones4, 4)), MaskString(CIDRMask(ones16, 16)))
    ensures !Less(MaskString(CIDRMask(ones16, 16)), MaskString(CIDRMask(ones4, 4)))
  {
    var a, b, j := MaskString(CIDRMask(ones4, 4)), MaskString(CIDRMask(ones16, 16)), ones4 / 4;
    forall k | 0 <= k < j ensures a[k] == b[k] {
      DigitOfMask(ones4, 4, k);
      DigitOfMask(ones16, 16, k);
    }
    assert a[..j] == b[..j];
    if j < 8 {
      DigitOfMask(ones4, 4, j);
      DigitOfMask(ones16, 16, j);
    }
    LessAt(a, b, j);
  }

  // ------------------------------------------------------ containment means prefix

  predicate Bit(b: bv8, k: nat) {
    And(b, if k == 0 then 0x80 else if k == 1 then 0x40 else if k == 2 then 0x20 else if k == 3 then 0x10
           else if k == 4 then 0x08 else if k == 5 then 0x04 else if k == 6 then 0x02 else 0x01) != 0
  }

  predicate BitAt(ip: Bytes, i: nat)
    requires i < 8 * |ip|
  {
    Bit(ip[i / 8], i % 8)
  }

  predicate AgreeOn(a: Bytes, b: Bytes, n: nat)
    requires |a| == |b| && n <= 8 * |a|
  {
    forall i :: 0 <= i < n ==> BitAt(a, i) == BitAt(b, i)
  }

  predicate SameBit(x: bv8, y: bv8, k: nat) {
    Bit(x, k) == Bit(y, k)
  }

  /** Bytes agree under a mask when they agree in its ones. */
  lemma MaskedByteAgrees(x: bv8, y: bv8, k: int)
    ensures And(x, MaskByte(k)) == And(y, MaskByte(k)) <==>
      (k > 0 ==> SameBit(x, y, 0)) && (k > 1 ==> SameBit(x, y, 1)) &&
      (k > 2 ==> SameBit(x, y, 2)) && (k > 3 ==> SameBit(x, y, 3)) &&
      (k > 4 ==> SameBit(x, y, 4)) && (k > 5 ==> SameBit(x, y, 5)) &&
      (k > 6 ==> SameBit(x, y, 6)) && (k > 7 ==> SameBit(x, y, 7))
  {
    if k <= 4 { LowMaskAgrees(x, y, k); } else { HighMaskAgrees(x, y, k); }
  }

  lemma LowMaskAgrees(x: bv8, y: bv8, k: int)
    requires k <= 4
    ensures And(x, MaskByte(k)) == And(y, MaskByte(k)) <==>
      (k > 0 ==> SameBit(x, y, 0)) && (k > 1 ==> SameBit(x, y, 1)) &&
      (k > 2 ==> SameBit(x, y, 2)) && (k > 3 ==> SameBit(x, y, 3))
  {
  }

  lemma NibbleAgrees(x: bv8, y: bv8, m: bv8)
    requires m == 0x08 || m == 0x0C || m == 0x0E || m == 0x0F
    ensures And(x, m) == And(y, m) <==>
      SameBit(x, y, 4) && (m != 0x08 ==> SameBit(x, y, 5)) &&
      (m == 0x0E || m == 0x0F ==> SameBit(x, y, 6)) && (m == 0x0F ==> SameBit(x, y, 7))
  {
  }

  lemma SplitAgrees(x: bv8, y: bv8, k: int)
    requires k > 4
    ensures And(x, MaskByte(k)) == And(y, MaskByte(k)) <==>
      And(x, 0xF0) == And(y, 0xF0) && And(x, And(MaskByte(k), 0x0F)) == And(y, And(MaskByte(k), 0x0F))
  {
  }

  lemma HighMaskAgrees(x: bv8, y: bv8, k: int)
    requires k > 4
    ensures And(x, MaskByte(k)) == And(y, MaskByte(k)) <==>
      SameBit(x, y, 0) && SameBit(x, y, 1) && SameBit(x, y, 2) && SameBit(x, y, 3) && SameBit(x, y, 4) &&
      (k > 5 ==> SameBit(x, y, 5)) && (k > 6 ==> SameBit(x, y, 6)) && (k > 7 ==> SameBit(x, y, 7))
  {
    hide SameBit;
    SplitAgrees(x, y, k);
    LowMaskAgrees(x, y, 4);
    NibbleAgrees(x, y, And(MaskByte(k), 0x0F));
  }

  predicate AgreeUnder(a: Bytes, b: Bytes, mask: Bytes)
    requires |a| == |b| == |mask|
  {
    forall i :: 0 <= i < |a| ==> And(a[i], mask[i]) == And(b[i], mask[i])
  }

  lemma MaskedAgree(a: Bytes, b: Bytes, ones: nat)
    requires |a| == |b| && ones <= 8 * |a|
    ensures AgreeUnder(a, b, CIDRMask(ones, |a|)) <==> AgreeOn(a, b, ones)
  {
    hide Bit, MaskByte, And;
    var mask := CIDRMask(ones, |a|);
    if AgreeUnder(a, b, mask) {
      forall i | 0 <= i < ones ensures BitAt(a, i) == BitAt(b, i) {
        MaskedByteAgrees(a[i / 8], b[i / 8], ones - 8 * (i / 8));
        assert And(a[i / 8], mask[i / 8]) == And(b[i / 8], mask[i / 8]);
        EachBit(i % 8);
      }
    }
    if AgreeOn(a, b, ones) {
      forall k | 0 <= k < |a| ensures And(a[k], mask[k]) == And(b[k], mask[k]) {
        forall j: nat | j < 8 && j < ones - 8 * k ensures Bit(a[k], j) == Bit(b[k], j) {
          assert BitAt(a, 8 * k + j) == BitAt(b, 8 * k + j);
        }
        MaskedByteAgrees(a[k], b[k], ones - 8 * k);
      }
    }
  }

  /** Which of the eight bits is meant, spelled out. */
  lemma EachBit(j: nat)
    requires j < 8
    ensures j == 0 || j == 1 || j == 2 || j == 3 || j == 4 || j == 5 || j == 6 || j == 7
  {
  }

  /** An IPv4 prefix written as a mapped IPv6 one. */
  predicate IsMapped(p: Written)
    requires IsWritten(p)
  {
    !p.dotted && p.ones >= 96 && p.addr[..12] == MAPPED_PREFIX
  }

  /** The address bytes a prefix constrains. */
  function Number(p: Written): Bytes
    requires IsWritten(p)
  {
    if p.dotted || IsMapped(p) then p.addr[12..] else p.addr
  }

  /** How many of their bits. */
  function PrefixLength(p: Written): nat
    requires IsWritten(p)
  {
    if IsMapped(p) then p.ones - 96 else p.ones
  }

  /** Prefix match: same family, and the first bits agree. */
  predicate Covers(p: Written, ip: Bytes)
    requires IsWritten(p) && |ip| == 16
  {
    var x := match To4(ip) case Some(v4) => v4 case None => ip;
    |x| == |Number(p)| && AgreeOn(Number(p), x, PrefixLength(p))
  }

  lemma MaskingTwice(x: bv8, m: bv8)
    ensures And(And(x, m), m) == And(x, m)
  {
  }

  lemma UnderMasked(a: Bytes, b: Bytes, mask: Bytes)
    requires |a| == |b| == |mask|
    ensures AgreeUnder(Masked(a, mask), b, mask) <==> AgreeUnder(a, b, mask)
  {
    hide And;
    forall i | 0 <= i < |a| ensures And(Masked(a, mask)[i], mask[i]) == And(a[i], mask[i]) {
      MaskingTwice(a[i], mask[i]);
    }
  }

  /** A full mask byte leaves a byte alone; a partial one cannot give 0xFF. */
  lemma FullByte(x: bv8, k: int)
    ensures k >= 8 ==> And(x, MaskByte(k)) == x
    ensures And(x, MaskByte(k)) == 0xFF ==> k >= 8
  {
  }

  /** The network of an IPv6 prefix has a four-byte form only if it is mapped. */
  lemma MaskedTo4(p: Written)
    requires IsWritten(p) && !p.dotted
    ensures var ip := Masked(p.addr, CIDRMask(p.ones, 16));
      && (To4(ip).Some? <==> IsMapped(p))
      && (IsMapped(p) ==> To4(ip).value == Masked(p.addr[12..], CIDRMask(p.ones - 96, 4)))
  {
    hide And, MaskByte;
    var ip := Masked(p.addr, CIDRMask(p.ones, 16));
    forall i | 0 <= i < 16 ensures p.ones >= 8 * i + 8 ==> ip[i] == p.addr[i] {
      FullByte(p.addr[i], p.ones - 8 * i);
    }
    FullByte(p.addr[11], p.ones - 88);
    if p.ones >= 96 {
      assert ip[..12] == p.addr[..12];
      assert ip[12..] == Masked(p.addr[12..], CIDRMask(p.ones - 96, 4));
    } else {
      assert ip[..12][11] == ip[11] != 0xFF;
    }
  }

  lemma TailOfMask(ones: nat)
    requires 96 <= ones <= 128
    ensures CIDRMask(ones, 16)[12..] == CIDRMask(ones - 96, 4)
  {
  }

  /** What Contains computes with masks is the prefix match. */
  lemma ContainsIsPrefix(p: Written, ip: Bytes)
    requires IsWritten(p) && |ip| == 16
    ensures Contains(NetOf(p), ip) <==> Covers(p, ip)
  {
    hide And, MaskByte, AgreeOn, To4;
    var x := match To4(ip) case Some(v4) => v4 case None => ip;
    assert |x| == 4 || |x| == 16 by { FormSize(ip); }
    var n, ones := Number(p), PrefixLength(p);
    var mask := CIDRMask(ones, |n|);
    assert NumberAndMask(NetOf(p)) == Some((Masked(n, mask), mask)) by {
      if p.dotted {
        FormOfFour(Masked(n, mask));
      } else {
        MaskedTo4(p);
        if IsMapped(p) { TailOfMask(p.ones); }
      }
    }
    if |x| == |n| {
      UnderMasked(n, x, mask);
      MaskedAgree(n, x, ones);
    }
  }

  lemma FormSize(ip: Bytes)
    requires |ip| == 16
    ensures To4(ip).Some? ==> |To4(ip).value| == 4
  {
  }

  lemma FormOfFour(ip: Bytes)
    requires |ip| == 4
    ensures To4(ip) == Some(ip)
  {
  }

  // ---------------------------------------------------------------------- the table

  datatype GeoFeedRow = GeoFeedRow(
    prefix: Written, cidr: string, ltdCode: string, iso3166: string, city: string,
    asn: string, ipWhois: string)

  predicate IsTable(rows: seq<GeoFeedRow>) {
    forall k :: 0 <= k < |rows| ==> IsWritten(rows[k].prefix)
  }

  function MaskText(row: GeoFeedRow): string
    requires IsWritten(row.prefix)
  {
    MaskString(NetOf(row.prefix).mask)
  }

  /** No row has a greater mask than one before it. */
  predicate SortedByMask(rows: seq<GeoFeedRow>)
    requires IsTable(rows)
  {
    forall j, k :: 0 <= j < k < |rows| ==> !Less(MaskText(rows[j]), MaskText(rows[k]))
  }

  type CidrParser = string -> Option<Written>

  ghost predicate ParserOk(parse: CidrParser) {
    forall s :: parse(s).Some? ==> IsWritten(parse(s).value)
  }

  /** One line of the file: four fields, or six and more; other lines, and lines
      whose prefix cannot be read, give no row. */
  function RowOf(parse: CidrParser, fields: seq<string>): Option<GeoFeedRow>
    requires |fields| > 0
  {
    match parse(fields[0])
    case None => None
    case Some(p) =>
      if |fields| == 4 then Some(GeoFeedRow(p, fields[0], fields[1], fields[2], fields[3], "", ""))
      else if |fields| >= 6 then
        Some(GeoFeedRow(p, fields[0], fields[1], fields[2], fields[3], fields[4], fields[5]))
      else None
  }

  /** All the library's sort promises; it need not be stable. */
  ghost predicate Sorts(sort: seq<GeoFeedRow> -> seq<GeoFeedRow>) {
    forall rows :: IsTable(rows) ==>
      multiset(sort(rows)) == multiset(rows) && IsTable(sort(rows)) && SortedByMask(sort(rows))
  }

  /** The rows of all readable lines, in the order of the file. */
  function RowsOf(parse: CidrParser, records: seq<seq<string>>): seq<GeoFeedRow>
    requires forall k :: 0 <= k < |records| ==> |records[k]| > 0
  {
    if records == [] then []
    else
      RowsOf(parse, records[..|records| - 1]) +
      (match RowOf(parse, records[|records| - 1]) case Some(row) => [row] case None => [])
  }

  /** The row of a line: its prefix is that of the first field, and the fields fill
      the columns in their order, the last two columns only from six fields on. */
  predicate IsRowOfLine(parse: CidrParser, fields: seq<string>, row: GeoFeedRow) {
    && (|fields| == 4 || |fields| >= 6)
    && parse(fields[0]) == Some(row.prefix)
    && [row.cidr, row.ltdCode, row.iso3166, row.city] == fields[..4]
    && [row.asn, row.ipWhois] == if |fields| == 4 then ["", ""] else fields[4..6]
  }

  lemma RowOfLine(parse: CidrParser, fields: seq<string>)
    requires |fields| > 0
    ensures forall row :: RowOf(parse, fields) == Some(row) <==> IsRowOfLine(parse, fields, row)
    ensures parse(fields[0]).Some? && (|fields| == 4 || |fields| >= 6) ==> RowOf(parse, fields).Some?
  {
    forall row ensures RowOf(parse, fields) == Some(row) <==> IsRowOfLine(parse, fields, row) {
      if |fields| >= 4 {
        assert fields[..4] == [fields[0], fields[1], fields[2], fields[3]];
      }
      if |fields| >= 6 {
        assert fields[4..6] == [fields[4], fields[5]];
      }
      if IsRowOfLine(parse, fields, row) {
        var cells := [row.cidr, row.ltdCode, row.iso3166, row.city];
        assert cells[0] == fields[0] && cells[1] == fields[1] && cells[2] == fields[2] && cells[3] == fields[3];
        var last := [row.asn, row.ipWhois];
        assert last[0] == (if |fields| == 4 then "" else fields[4]) && last[1] == (if |fields| == 4 then "" else fields[5]);
      }
    }
  }

  /** The lines that give the row. */
  ghost function LinesOf(parse: CidrParser, records: seq<seq<string>>, row: GeoFeedRow): set<int> {
    set k: int | 0 <= k < |records| && IsRowOfLine(parse, records[k], row)
  }

  /** A row stands in the file's rows once for every line that gives it. */
  lemma {:induction false} RowPerLine(parse: CidrParser, records: seq<seq<string>>, row: GeoFeedRow)
    requires forall k :: 0 <= k < |records| ==> |records[k]| > 0
    ensures multiset(RowsOf(parse, records))[row] == |LinesOf(parse, records, row)|
  {
    hide RowOf, IsRowOfLine, LinesOf;
    if records == [] {
      NoLines(parse, row);
    } else {
      var n := |records| - 1;
      RowPerLine(parse, records[..n], row);
      RowOfLine(parse, records[n]);
      OneMoreLine(parse, records, row);
    }
  }

  lemma NoLines(parse: CidrParser, row: GeoFeedRow)
    ensures LinesOf(parse, [], row) == {}
  {
  }

  lemma OneMoreLine(parse: CidrParser, records: seq<seq<string>>, row: GeoFeedRow)
    requires records != []
    ensures var n := |records| - 1;
      |LinesOf(parse, records, row)| ==
        |LinesOf(parse, records[..n], row)| + if IsRowOfLine(parse, records[n], row) then 1 else 0
  {
    hide IsRowOfLine;
    var n := |records| - 1;
    var init := records[..n];
    forall k | 0 <= k < n ensures init[k] == records[k] {
    }
    var before := LinesOf(parse, init, row);
    assert n !in before;
    assert LinesOf(parse, records, row) == if IsRowOfLine(parse, records[n], row) then before + {n} else before;
  }

  lemma SameCounts(a: seq<GeoFeedRow>, b: seq<GeoFeedRow>, row: GeoFeedRow)
    requires multiset(a) == multiset(b)
    ensures multiset(a)[row] == multiset(b)[row]
  {
  }

  /** The table holds the row of every readable line, as often as there are such
      lines, and nothing else, sorted by mask. */
  method ReadGeoFeed(records: seq<seq<string>>, parse: CidrParser, sort: seq<GeoFeedRow> -> seq<GeoFeedRow>)
    returns (table: seq<GeoFeedRow>)
    requires forall k :: 0 <= k < |records| ==> |records[k]| > 0
    requires ParserOk(parse) && Sorts(sort)
    ensures IsTable(table) && SortedByMask(table)
    ensures forall row :: multiset(table)[row] == |LinesOf(parse, records, row)|
  {
    hide RowOf, SortedByMask, IsWritten, Less, Sorts, ParserOk, IsRowOfLine;
    var rows := [];
    for k := 0 to |records|
      invariant IsTable(rows)
      invariant rows == RowsOf(parse, records[..k])
    {
      RowIsWritten(parse, records[k]);
      assert records[..k + 1][..k] == records[..k];
      match RowOf(parse, records[k])
      case Some(row) => rows := rows + [row];
      case None =>
    }
    assert records[..|records|] == records;
    table := sort(rows);
    SortGives(sort, rows);
    forall row ensures multiset(table)[row] == |LinesOf(parse, records, row)| {
      RowPerLine(parse, records, row);
      SameCounts(table, rows, row);
    }
  }

  lemma SortGives(sort: seq<GeoFeedRow> -> seq<GeoFeedRow>, rows: seq<GeoFeedRow>)
    requires Sorts(sort) && IsTable(rows)
    ensures IsTable(sort(rows)) && SortedByMask(sort(rows)) && multiset(sort(rows)) == multiset(rows)
  {
    hide SortedByMask;
  }

  lemma RowIsWritten(parse: CidrParser, fields: seq<string>)
    requires ParserOk(parse) && |fields| > 0
    ensures RowOf(parse, fields).Some? ==> IsWritten(RowOf(parse, fields).value.prefix)
  {
  }

  function FirstMatch(rows: seq<GeoFeedRow>, ip: Bytes): (r: Option<GeoFeedRow>)
    requires IsTable(rows)
    ensures r.None? ==> forall k :: 0 <= k < |rows| ==> !Contains(NetOf(rows[k].prefix), ip)
    ensures r.Some? ==> exists k :: 0 <= k < |rows| && rows[k] == r.value && IsFirst(rows, ip, k)
  {
    if rows == [] then None
    else if Contains(NetOf(rows[0].prefix), ip) then
      assert IsFirst(rows, ip, 0);
      Some(rows[0])
    else
      FirstBehind(rows, ip);
      FirstMatch(rows[1..], ip)
  }

  predicate IsFirst(rows: seq<GeoFeedRow>, ip: Bytes, k: nat)
    requires IsTable(rows)
  {
    && k < |rows|
    && Contains(NetOf(rows[k].prefix), ip)
    && forall j :: 0 <= j < k ==> !Contains(NetOf(rows[j].prefix), ip)
  }

  /** Behind a row that does not contain the address, the first is the first of the rest. */
  lemma FirstBehind(rows: seq<GeoFeedRow>, ip: Bytes)
    requires IsTable(rows) && rows != [] && !Contains(NetOf(rows[0].prefix), ip)
    ensures forall j :: 0 <= j < |rows| - 1 && IsFirst(rows[1..], ip, j) ==> IsFirst(rows, ip, j + 1)
  {
    hide Contains;
    forall j | 0 <= j < |rows| - 1 && IsFirst(rows[1..], ip, j) ensures IsFirst(rows, ip, j + 1) {
      forall i | 0 <= i < j + 1 ensures !Contains(NetOf(rows[i].prefix), ip) {
        assert i > 0 ==> rows[i] == rows[1..][i - 1];
      }
    }
  }

  /** An address that cannot be read finds nothing. */
  method FindGeoFeedRow(ip: Option<Bytes>, rows: seq<GeoFeedRow>) returns (found: Option<GeoFeedRow>)
    requires IsTable(rows)
    ensures found == if ip.None? then None else FirstMatch(rows, ip.value)
  {
    if ip.None? {
      return None;
    }
    var k := 0;
    while k < |rows|
      invariant 0 <= k <= |rows|
      invariant FirstMatch(rows, ip.value) == FirstMatch(rows[k..], ip.value)
    {
      if Contains(NetOf(rows[k].prefix), ip.value) {
        return Some(rows[k]);
      }
      assert rows[k..][1..] == rows[k + 1..];
      k := k + 1;
    }
    return None;
  }

  // --------------------------------------------------- first match and longest match

  /** A row that covers the address, and none that does is longer. */
  predicate IsLongest(rows: seq<GeoFeedRow>, ip: Bytes, row: GeoFeedRow)
    requires IsTable(rows) && |ip| == 16
  {
    && IsWritten(row.prefix)
    && row in rows
    && Covers(row.prefix, ip)
    && forall k :: 0 <= k < |rows| && Covers(rows[k].prefix, ip) ==>
         PrefixLength(rows[k].prefix) <= PrefixLength(row.prefix)
  }

  predicate MappedCovers(rows: seq<GeoFeedRow>, ip: Bytes, k: nat)
    requires IsTable(rows) && |ip| == 16
  {
    k < |rows| && IsMapped(rows[k].prefix) && Covers(rows[k].prefix, ip)
  }

  /** No mapped row covers the address, or every dotted row that does is
      matched by a mapped one that is at least as long. */
  ghost predicate MappedRowsReach(rows: seq<GeoFeedRow>, ip: Bytes)
    requires IsTable(rows) && |ip| == 16
  {
    (exists q: nat :: MappedCovers(rows, ip, q)) ==>
      forall k :: 0 <= k < |rows| && rows[k].prefix.dotted && Covers(rows[k].prefix, ip) ==>
        exists q: nat :: MappedCovers(rows, ip, q) && PrefixLength(rows[k].prefix) <= PrefixLength(rows[q].prefix)
  }

  /** Rows that cover the same address: the one with the smaller mask string is
      the shorter one, except that mapped rows count as greater than dotted ones. */
  lemma MaskOrder(r: GeoFeedRow, s: GeoFeedRow, ip: Bytes)
    requires IsWritten(r.prefix) && IsWritten(s.prefix) && |ip| == 16
    requires Covers(r.prefix, ip) && Covers(s.prefix, ip)
    ensures IsMapped(r.prefix) == IsMapped(s.prefix) && PrefixLength(r.prefix) < PrefixLength(s.prefix) ==>
      Less(MaskText(r), MaskText(s))
    ensures r.prefix.dotted && IsMapped(s.prefix) ==> Less(MaskText(r), MaskText(s))
    ensures IsMapped(r.prefix) != IsMapped(s.prefix) ==> r.prefix.dotted || s.prefix.dotted
  {
    hide Less, AgreeOn, MaskString;
    var p, q := r.prefix, s.prefix;
    if p.dotted && IsMapped(q) {
      MappedIsGreater(p.ones, q.ones);
    }
    if IsMapped(p) == IsMapped(q) && PrefixLength(p) < PrefixLength(q) {
      assert p.dotted == q.dotted;
      LongerIsGreater(p.ones, q.ones, if p.dotted then 4 else 16);
    }
  }

  /** On a sorted table, the row found is the longest match if and only if the
      mapped rows covering the address reach as far as the dotted ones; and a
      row is found whenever any covers the address. */
  lemma FirstMatchIsLongest(rows: seq<GeoFeedRow>, ip: Bytes)
    requires IsTable(rows) && SortedByMask(rows) && |ip| == 16
    ensures var found := FirstMatch(rows, ip);
      && (found.None? <==> forall k :: 0 <= k < |rows| ==> !Covers(rows[k].prefix, ip))
      && (found.Some? ==> (IsLongest(rows, ip, found.value) <==> MappedRowsReach(rows, ip)))
  {
    hide Contains, Covers, Less, MaskText, NetOf, IsMapped;
    forall k | 0 <= k < |rows|
      ensures Contains(NetOf(rows[k].prefix), ip) <==> Covers(rows[k].prefix, ip)
    {
      ContainsIsPrefix(rows[k].prefix, ip);
    }
    var found := FirstMatch(rows, ip);
    if found.Some? {
      var f :| 0 <= f < |rows| && rows[f] == found.value && IsFirst(rows, ip, f);
      FirstLongest(rows, ip, f);
    }
  }

  lemma FirstLongest(rows: seq<GeoFeedRow>, ip: Bytes, f: nat)
    requires IsTable(rows) && SortedByMask(rows) && |ip| == 16 && f < |rows|
    requires Covers(rows[f].prefix, ip) && forall j :: 0 <= j < f ==> !Covers(rows[j].prefix, ip)
    ensures IsLongest(rows, ip, rows[f]) <==> MappedRowsReach(rows, ip)
  {
    hide Covers, Less, MaskText, IsMapped, PrefixLength;
    forall k | 0 <= k < |rows| && Covers(rows[k].prefix, ip)
      ensures IsMapped(rows[k].prefix) == IsMapped(rows[f].prefix) ==>
        PrefixLength(rows[k].prefix) <= PrefixLength(rows[f].prefix)
      ensures IsMapped(rows[k].prefix) != IsMapped(rows[f].prefix) ==>
        IsMapped(rows[f].prefix) && rows[k].prefix.dotted
    {
      MaskOrder(rows[f], rows[k], ip);
      MappedIsNotDotted(rows[k]);
      MappedIsNotDotted(rows[f]);
    }
    if IsMapped(rows[f].prefix) {
      assert MappedCovers(rows, ip, f);
      if MappedRowsReach(rows, ip) {
        forall k | 0 <= k < |rows| && Covers(rows[k].prefix, ip)
          ensures PrefixLength(rows[k].prefix) <= PrefixLength(rows[f].prefix)
        {
          if !IsMapped(rows[k].prefix) {
            var q: nat :| MappedCovers(rows, ip, q) && PrefixLength(rows[k].prefix) <= PrefixLength(rows[q].prefix);
            assert Covers(rows[q].prefix, ip);
          }
        }
      }
    } else {
      assert forall q: nat :: !MappedCovers(rows, ip, q);
    }
  }

  lemma MappedIsNotDotted(row: GeoFeedRow)
    requires IsWritten(row.prefix)
    ensures IsMapped(row.prefix) ==> !row.prefix.dotted
  {
  }

  /** Without mapped rows the table is longest prefix match. */
  lemma WithoutMappedRows(rows: seq<GeoFeedRow>, ip: Bytes)
    requires IsTable(rows) && SortedByMask(rows) && |ip| == 16
    requires forall k :: 0 <= k < |rows| ==> !IsMapped(rows[k].prefix)
    ensures FirstMatch(rows, ip).Some? ==> IsLongest(rows, ip, FirstMatch(rows, ip).value)
  {
    FirstMatchIsLongest(rows, ip);
  }

  /** A mapped 10.0.0.0/8 hides a dotted 10.1.0.0/16 from addresses in both. */
  lemma MappedRowHides(wide: GeoFeedRow, narrow: GeoFeedRow)
    requires wide.prefix == Written(MAPPED_PREFIX + [10, 0, 0, 0], false, 104)
    requires narrow.prefix == Written(MAPPED_PREFIX + [10, 1, 0, 0], true, 16)
    ensures IsTable([wide, narrow]) && SortedByMask([wide, narrow])
    ensures var ip := MAPPED_PREFIX + [10, 1, 2, 3];
      && FirstMatch([wide, narrow], ip) == Some(wide)
      && Covers(narrow.prefix, ip) && PrefixLength(narrow.prefix) == 16 && PrefixLength(wide.prefix) == 8
  {
    hide Less, AgreeOn, Contains, MaskString;
    var ip, four := MAPPED_PREFIX + [10, 1, 2, 3], [10, 1, 2, 3];
    assert ip[..12] == MAPPED_PREFIX && ip[12..] == four;
    assert wide.prefix.addr[..12] == MAPPED_PREFIX && wide.prefix.addr[12..] == [10, 0, 0, 0];
    assert narrow.prefix.addr[..12] == MAPPED_PREFIX && narrow.prefix.addr[12..] == [10, 1, 0, 0];
    MappedIsGreater(16, 104);
    MaskedAgree([10, 0, 0, 0], four, 8);
    MaskedAgree([10, 1, 0, 0], four, 16);
    ContainsIsPrefix(wide.prefix, ip);
  }
}
