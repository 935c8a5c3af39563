/** The ICMP extension structure at the end of a message (RFC 4884), found and
    read as hexadecimal text, and its MPLS label stacks (RFC 4950, RFC 3032). */
module Mpls {
  import opened Text
  import opened Checksum

  /** A label stack entry: 20, 3, 1 and 8 bits. */
  datatype Lse = Lse(lbl: nat, tc: nat, bottom: nat, ttl: nat)

  // ----- Hexadecimal text -----

  function HexDigit(d: int): char
    requires 0 <= d < 16
  {
    if d < 10 then ('0' as int + d) as char else ('a' as int + d - 10) as char
  }

  /** The text of "%x". */
  function HexOf(bytes: seq<Byte>): string {
    if bytes == [] then ""
    else [HexDigit(bytes[0] / 16), HexDigit(bytes[0] % 16)] + HexOf(bytes[1..])
  }

  function DigitValue(c: char): Option<nat> {
    if '0' <= c <= '9' then Some(c as int - '0' as int)
    else if 'a' <= c <= 'f' then Some(c as int - 'a' as int + 10)
    else if 'A' <= c <= 'F' then Some(c as int - 'A' as int + 10)
    else None
  }

  /** strconv.ParseUint to base 16 of a text short enough for its width. */
  function ParseHex(s: string): Option<nat> {
    if s == "" then None
    else if |s| == 1 then DigitValue(s[0])
    else
      match (ParseHex(s[..|s| - 1]), DigitValue(s[|s| - 1]))
      case (Some(v), Some(d)) => Some(v * 16 + d)
      case _ => None
  }

  function BigEndian(bytes: seq<Byte>): nat {
    if bytes == [] then 0 else BigEndian(bytes[..|bytes| - 1]) * 256 + bytes[|bytes| - 1]
  }

  lemma {:induction false} HexLength(bytes: seq<Byte>)
    ensures |HexOf(bytes)| == 2 * |bytes|
  {
    if bytes != [] {
      HexLength(bytes[1..]);
    }
  }

  function HexPair(b: Byte): string {
    [HexDigit(b / 16), HexDigit(b % 16)]
  }

  lemma HexHead(bytes: seq<Byte>)
    ensures bytes == [] ==> HexOf(bytes) == ""
    ensures bytes != [] ==> HexOf(bytes) == HexPair(bytes[0]) + HexOf(bytes[1..])
  {
  }

  lemma {:induction false} HexConcat(a: seq<Byte>, b: seq<Byte>)
    ensures HexOf(a + b) == HexOf(a) + HexOf(b)
  {
    hide HexOf, HexPair;
    HexHead(a);
    if a == [] {
      assert a + b == b;
    } else {
      HexConcat(a[1..], b);
      HexHead(a + b);
      assert (a + b)[1..] == a[1..] + b;
    }
  }

  lemma Middle(x: string, y: string, z: string)
    ensures (x + y + z)[|x|..|x| + |y|] == y
  {
  }

  lemma HexSlice(bytes: seq<Byte>, i: nat, j: nat)
    requires i <= j <= |bytes|
    ensures |HexOf(bytes)| == 2 * |bytes|
    ensures HexOf(bytes)[2 * i..2 * j] == HexOf(bytes[i..j])
  {
    hide HexOf;
    var front, middle, back := bytes[..i], bytes[i..j], bytes[j..];
    HexLength(bytes);
    HexLength(front);
    HexLength(middle);
    HexConcat(front, middle);
    HexConcat(front + middle, back);
    assert front + middle + back == bytes;
    Middle(HexOf(front), HexOf(middle), HexOf(back));
  }

  lemma DigitBack(d: int)
    requires 0 <= d < 16
    ensures DigitValue(HexDigit(d)) == Some(d)
  {
  }

  lemma {:induction false} ParseBack(bytes: seq<Byte>)
    requires bytes != []
    ensures ParseHex(HexOf(bytes)) == Some(BigEndian(bytes))
  {
    hide HexOf, HexDigit, DigitValue, ParseHex;
    var init, b := bytes[..|bytes| - 1], bytes[|bytes| - 1];
    DigitBack(b / 16);
    DigitBack(b % 16);
    HexConcat(init, [b]);
    assert bytes == init + [b];
    PairOf(b);
    HexLength(init);
    if init != [] {
      ParseBack(init);
    }
    ParseAppend(HexOf(init), HexDigit(b / 16), HexDigit(b % 16));
  }

  lemma PairOf(b: Byte)
    ensures HexOf([b]) == [HexDigit(b / 16), HexDigit(b % 16)]
  {
    assert HexOf([b][1..]) == "";
  }

  /** Two more digits behind a number. */
  lemma ParseAppend(s: string, hi: char, lo: char)
    requires DigitValue(hi).Some? && DigitValue(lo).Some? && (s == "" || ParseHex(s).Some?)
    ensures ParseHex(s + [hi, lo]) ==
      Some((if s == "" then 0 else ParseHex(s).value) * 256 + (DigitValue(hi).value * 16 + DigitValue(lo).value))
  {
    hide DigitValue, ParseHex;
    ParseOneMore(s, hi);
    ParseOneMore(s + [hi], lo);
    assert s + [hi] + [lo] == s + [hi, lo];
  }

  lemma ParseOneMore(s: string, d: char)
    requires DigitValue(d).Some? && (s == "" || ParseHex(s).Some?)
    ensures ParseHex(s + [d]) == Some((if s == "" then 0 else ParseHex(s).value) * 16 + DigitValue(d).value)
  {
    hide DigitValue;
    var t := s + [d];
    assert t[..|t| - 1] == s;
  }

  // ----- Where the structure starts -----

  /** An aligned word starting 0x2000 with at least eight bytes after it. */
  predicate IsStart(hex: string, i: int) {
    0 <= i && i + 24 <= |hex| && (|hex| - i) % 8 == 0 && hex[i..i + 4] == "2000"
  }

  method FindValid(hex: string) returns (i: int)
    ensures |hex| % 2 != 0 ==> i == -1
    ensures -1 <= i && (i >= 0 ==> IsStart(hex, i))
    ensures |hex| % 2 == 0 ==> forall k :: i < k ==> !IsStart(hex, k)
  {
    var n := |hex|;
    if n < 8 || n % 2 != 0 { return -1; }
    i := n - 8;
    while i >= 0
      invariant i <= n - 8 && (n - i) % 8 == 0
      invariant forall k :: i < k ==> !IsStart(hex, k)
      decreases i
    {
      if hex[i..i + 4] == "2000" {
        var remHex := n - (i + 8);
        if remHex > 0 && remHex / 2 >= 8 {
          return i;
        }
      }
      i := i - 8;
    }
    i := -1;
  }

  // ----- The objects -----

  function EntryOf(v: nat): Lse {
    Lse(v / 0x1000 % 0x100000, v / 0x200 % 8, v / 0x100 % 2, v % 256)
  }

  /** The entries of a payload of whole words. */
  function Entries(hex: string): Option<seq<Lse>>
  {
    if |hex| < 8 then Some([])
    else
      match (ParseHex(hex[..8]), Entries(hex[8..]))
      case (Some(v), Some(rest)) => Some([EntryOf(v)] + rest)
      case _ => None
  }

  /** The entries of all objects from position j on; None where the program
      gives up. */
  function Objects(ext: string, j: nat): Option<seq<Lse>>
    decreases |ext| - j
  {
    if j + 8 > |ext| then Some([])
    else
      match ParseHex(ext[j..j + 4])
      case None => None
      case Some(length) =>
        if length < 4 || j + length * 2 > |ext| then None
        else
          match ParseHex(ext[j + 4..j + 6])
          case None => None
          case Some(cls) =>
            if cls == 1 then
              if length <= 4 || (length - 4) % 4 != 0 then None
              else
                match (Entries(ext[j + 8..j + length * 2]), Objects(ext, j + length * 2))
                case (Some(here), Some(rest)) => Some(here + rest)
                case _ => None
            else Objects(ext, j + length * 2)
  }

  function OrEmpty(entries: Option<seq<Lse>>): seq<Lse> {
    if entries.Some? then entries.value else []
  }

  method ReadEntries(hex: string) returns (entries: Option<seq<Lse>>)
    ensures entries == Entries(hex)
  {
    var done: seq<Lse> := [];
    var off := 0;
    assert hex[0..] == hex;
    while off + 8 <= |hex|
      invariant 0 <= off <= |hex|
      invariant Entries(hex).Some? <==> Entries(hex[off..]).Some?
      invariant Entries(hex).Some? ==> Entries(hex).value == done + Entries(hex[off..]).value
    {
      assert hex[off..][..8] == hex[off..off + 8] && hex[off..][8..] == hex[off + 8..];
      match ParseHex(hex[off..off + 8]) {
        case None => return None;
        case Some(v) => done := done + [EntryOf(v)];
      }
      off := off + 8;
    }
    assert Entries(hex[off..]) == Some([]);
    assert done + [] == done;
    return Some(done);
  }

  /** One object: its entries, and where the next one starts. */
  function ObjectAt(ext: string, j: nat): (r: Option<(seq<Lse>, nat)>)
    requires j + 8 <= |ext|
    ensures r.Some? ==> j < r.value.1 <= |ext|
  {
    match ParseHex(ext[j..j + 4])
    case None => None
    case Some(length) =>
      if length < 4 || j + length * 2 > |ext| then None
      else
        match ParseHex(ext[j + 4..j + 6])
        case None => None
        case Some(cls) =>
          if cls != 1 then Some(([], j + length * 2))
          else if length <= 4 || (length - 4) % 4 != 0 then None
          else
            match Entries(ext[j + 8..j + length * 2])
            case None => None
            case Some(here) => Some((here, j + length * 2))
  }

  lemma ObjectsStep(ext: string, j: nat)
    requires j + 8 <= |ext|
    ensures ObjectAt(ext, j).None? ==> Objects(ext, j).None?
    ensures ObjectAt(ext, j).Some? ==>
      var (here, next) := ObjectAt(ext, j).value;
      && (Objects(ext, j).Some? <==> Objects(ext, next).Some?)
      && (Objects(ext, j).Some? ==> Objects(ext, j).value == here + Objects(ext, next).value)
  {
    hide ParseHex, Entries;
  }

  method ReadObjects(ext: string) returns (entries: seq<Lse>)
    ensures entries == OrEmpty(Objects(ext, 8))
  {
    hide ParseHex, Entries, Objects;
    entries := [];
    var j: nat := 8;
    ghost var all := Objects(ext, 8);
    while j + 8 <= |ext|
      invariant all.Some? <==> Objects(ext, j).Some?
      invariant all.Some? ==> all.value == entries + Objects(ext, j).value
      decreases |ext| - j
    {
      ObjectsStep(ext, j);
      var parsed := ParseHex(ext[j..j + 4]);
      if parsed.None? || parsed.value < 4 { return []; }
      var length := parsed.value;
      if j + length * 2 > |ext| { return []; }
      var cls := ParseHex(ext[j + 4..j + 6]);
      if cls.None? { return []; }
      if cls.value == 1 {
        if length <= 4 || (length - 4) % 4 != 0 { return []; }
        var here := ReadEntries(ext[j + 8..j + length * 2]);
        if here.None? { return []; }
        entries := entries + here.value;
      }
      j := j + length * 2;
    }
    NoMoreObjects(ext, j);
  }

  lemma NoMoreObjects(ext: string, j: nat)
    requires j + 8 > |ext|
    ensures Objects(ext, j) == Some([])
  {
  }

  /** The last place that looks like a start, or -1. */
  function LastStart(hex: string, below: int): int
    decreases if below < 0 then 0 else below
  {
    if below <= 0 then -1
    else if IsStart(hex, below - 1) then below - 1
    else LastStart(hex, below - 1)
  }

  lemma {:induction false} LastStartIsLast(hex: string, below: int)
    ensures var i := LastStart(hex, below);
      && -1 <= i && (i >= 0 ==> i < below && IsStart(hex, i))
      && forall k :: i < k < below ==> !IsStart(hex, k)
    decreases if below < 0 then 0 else below
  {
    if below > 0 && !IsStart(hex, below - 1) {
      LastStartIsLast(hex, below - 1);
    }
  }

  /** What the program reads out of a message. */
  function Extracted(msg: seq<Byte>): seq<Lse> {
    var i := LastStart(HexOf(msg), |HexOf(msg)|);
    if i < 0 || i > |HexOf(msg)| then [] else OrEmpty(Objects(HexOf(msg)[i..], 8))
  }

  method ExtractMpls(msg: seq<Byte>, disabled: bool) returns (entries: seq<Lse>)
    ensures entries == if disabled then [] else Extracted(msg)
  {
    if disabled { return []; }
    var hex := HexOf(msg);
    HexLength(msg);
    LastStartIsLast(hex, |hex|);
    StartsAreInside(hex);
    var i := FindValid(hex);
    assert i == LastStart(hex, |hex|);
    if i < 0 { return []; }
    entries := ReadObjects(hex[i..]);
  }

  // ----- Structures as the RFCs write them -----

  datatype Object = Stack(ctype: Byte, entries: seq<Lse>) | Other(cls: Byte, ctype: Byte, payload: seq<Byte>)

  ghost predicate ValidLse(e: Lse) {
    e.lbl < 0x100000 && e.tc < 8 && e.bottom < 2 && e.ttl < 256
  }

  /** Objects are whole words and have 16-bit lengths; a stack is not empty. */
  ghost predicate ValidObject(o: Object) {
    match o
    case Stack(_, entries) => 0 < |entries| && 4 + 4 * |entries| <= 0xFFFF && forall k :: 0 <= k < |entries| ==> ValidLse(entries[k])
    case Other(cls, _, payload) => cls != 1 && |payload| % 4 == 0 && 4 + |payload| <= 0xFFFF
  }

  /** Section 2.1 of RFC 3032. */
  function EncodeLse(e: Lse): seq<Byte>
    requires ValidLse(e)
  {
    [e.lbl / 0x1000, e.lbl / 0x10 % 256, e.lbl % 0x10 * 16 + e.tc * 2 + e.bottom, e.ttl]
  }

  function EncodeStack(entries: seq<Lse>): seq<Byte>
    requires forall k :: 0 <= k < |entries| ==> ValidLse(entries[k])
  {
    if entries == [] then [] else EncodeLse(entries[0]) + EncodeStack(entries[1..])
  }

  function PayloadOf(o: Object): seq<Byte>
    requires ValidObject(o)
  {
    match o
    case Stack(_, entries) => EncodeStack(entries)
    case Other(_, _, payload) => payload
  }

  function ClassOf(o: Object): Byte {
    match o
    case Stack(_, _) => 1
    case Other(cls, _, _) => cls
  }

  function EncodeObject(o: Object): seq<Byte>
    requires ValidObject(o)
  {
    TwoBytes(4 + |PayloadOf(o)|) + [ClassOf(o), o.ctype] + PayloadOf(o)
  }

  ghost predicate ValidObjects(objects: seq<Object>) {
    forall k :: 0 <= k < |objects| ==> ValidObject(objects[k])
  }

  function EncodeObjects(objects: seq<Object>): seq<Byte>
    requires ValidObjects(objects)
  {
    if objects == [] then [] else EncodeObject(objects[0]) + EncodeObjects(objects[1..])
  }

  function Structure(checksum: int, objects: seq<Object>): seq<Byte>
    requires ValidObjects(objects)
  {
    [0x20, 0x00] + TwoBytes(checksum) + EncodeObjects(objects)
  }

  /** The entries of all stacks, in order. */
  function AllEntries(objects: seq<Object>): seq<Lse> {
    if objects == [] then []
    else (if objects[0].Stack? then objects[0].entries else []) + AllEntries(objects[1..])
  }

  // ----- Reading back -----

  lemma LseBack(e: Lse)
    requires ValidLse(e)
    ensures ParseHex(HexOf(EncodeLse(e))).Some? && EntryOf(ParseHex(HexOf(EncodeLse(e))).value) == e
  {
    var b := EncodeLse(e);
    ParseBack(b);
    var v := BigEndian(b);
    Four(b[0], b[1], b[2], b[3]);
    assert b == [b[0], b[1], b[2], b[3]];
    Pack(e);
  }

  lemma Four(a: Byte, b: Byte, c: Byte, d: Byte)
    ensures BigEndian([a, b, c, d]) == ((a as int * 256 + b) * 256 + c) * 256 + d
  {
    assert [a][..0] == [];
    assert BigEndian([a]) == a as int;
    assert [a, b][..1] == [a];
    assert BigEndian([a, b]) == a as int * 256 + b;
    assert [a, b, c][..2] == [a, b];
    assert BigEndian([a, b, c]) == (a as int * 256 + b) * 256 + c;
    assert [a, b, c, d][..3] == [a, b, c];
  }

  lemma LabelParts(l: nat)
    ensures l == (l / 0x1000 * 0x100 + l / 0x10 % 0x100) * 0x10 + l % 0x10
  {
  }

  lemma LabelOf(lbl: nat, low: nat)
    requires low < 0x1000 && lbl < 0x100000
    ensures (lbl * 0x1000 + low) / 0x1000 % 0x100000 == lbl
  {
  }

  lemma ClassBitsOf(high: nat, tc: nat, low: nat)
    requires tc < 8 && low < 0x200
    ensures ((high * 8 + tc) * 0x200 + low) / 0x200 % 8 == tc
  {
    assert ((high * 8 + tc) * 0x200 + low) / 0x200 == high * 8 + tc;
  }

  lemma LastBitsOf(high: nat, bottom: nat, ttl: nat)
    requires bottom < 2 && ttl < 0x100
    ensures ((high * 2 + bottom) * 0x100 + ttl) / 0x100 % 2 == bottom
    ensures ((high * 2 + bottom) * 0x100 + ttl) % 0x100 == ttl
  {
    assert ((high * 2 + bottom) * 0x100 + ttl) / 0x100 == high * 2 + bottom;
  }

  lemma Pack(e: Lse)
    requires ValidLse(e)
    ensures var v := ((e.lbl / 0x1000 * 256 + e.lbl / 0x10 % 256) * 256 + (e.lbl % 0x10 * 16 + e.tc * 2 + e.bottom)) * 256 + e.ttl;
      v == e.lbl * 0x1000 + e.tc * 0x200 + e.bottom * 0x100 + e.ttl && EntryOf(v) == e
  {
    LabelParts(e.lbl);
    LabelOf(e.lbl, e.tc * 0x200 + e.bottom * 0x100 + e.ttl);
    ClassBitsOf(e.lbl, e.tc, e.bottom * 0x100 + e.ttl);
    LastBitsOf(e.lbl * 8 + e.tc, e.bottom, e.ttl);
    var v := e.lbl * 0x1000 + e.tc * 0x200 + e.bottom * 0x100 + e.ttl;
    assert v == (e.lbl * 8 + e.tc) * 0x200 + (e.bottom * 0x100 + e.ttl);
    assert v == ((e.lbl * 8 + e.tc) * 2 + e.bottom) * 0x100 + e.ttl;
    assert v == e.lbl * 0x1000 + (e.tc * 0x200 + e.bottom * 0x100 + e.ttl);
  }

  lemma {:induction false} StackLength(entries: seq<Lse>)
    requires forall k :: 0 <= k < |entries| ==> ValidLse(entries[k])
    ensures |EncodeStack(entries)| == 4 * |entries|
  {
    if entries != [] {
      StackLength(entries[1..]);
    }
  }

  lemma {:induction false} StackBack(entries: seq<Lse>)
    requires forall k :: 0 <= k < |entries| ==> ValidLse(entries[k])
    ensures Entries(HexOf(EncodeStack(entries))) == Some(entries)
  {
    hide EncodeLse, ParseHex;
    StackLength(entries);
    HexLength(EncodeStack(entries));
    if entries != [] {
      var first, rest := EncodeLse(entries[0]), EncodeStack(entries[1..]);
      StackBack(entries[1..]);
      LseBack(entries[0]);
      StackLength(entries[1..]);
      HexConcat(first, rest);
      HexLength(first);
      var hex := HexOf(EncodeStack(entries));
      assert hex[..8] == HexOf(first) && hex[8..] == HexOf(rest);
      assert [entries[0]] + entries[1..] == entries;
      assert Entries(hex) == Some([entries[0]] + entries[1..]);
    } else {
      assert HexOf(EncodeStack(entries)) == "";
    }
  }

  lemma PayloadLength(o: Object)
    requires ValidObject(o)
    ensures |PayloadOf(o)| % 4 == 0 && 4 + |PayloadOf(o)| <= 0xFFFF
    ensures o.Stack? ==> |PayloadOf(o)| == 4 * |o.entries|
  {
    if o.Stack? {
      StackLength(o.entries);
    }
  }

  lemma TwoBytesBack(x: nat)
    requires x <= 0xFFFF
    ensures BigEndian(TwoBytes(x)) == x
  {
    var hi, lo := TwoBytes(x)[0], TwoBytes(x)[1];
    OneByte(hi);
    assert TwoBytes(x)[..1] == [hi];
  }

  lemma ObjectSlices(prefix: seq<Byte>, o: Object, rest: seq<Byte>)
    requires ValidObject(o)
    ensures var msg, n, length := prefix + EncodeObject(o) + rest, |prefix|, 4 + |PayloadOf(o)|;
      && |msg| >= n + length
      && msg[n..n + 2] == TwoBytes(length)
      && msg[n + 2..n + 3] == [ClassOf(o)]
      && msg[n + 4..n + length] == PayloadOf(o)
  {
    hide PayloadOf;
    PayloadLength(o);
    var length := 4 + |PayloadOf(o)|;
    var body := EncodeObject(o);
    assert body[..2] == TwoBytes(length) && body[2..3] == [ClassOf(o)] && body[4..] == PayloadOf(o);
    var msg, n := prefix + body + rest, |prefix|;
    assert msg[n..n + |body|] == body;
    Inner(msg, body, n, 0, 2);
    Inner(msg, body, n, 2, 3);
    Inner(msg, body, n, 4, length);
  }

  lemma Inner(msg: seq<Byte>, body: seq<Byte>, n: nat, i: nat, j: nat)
    requires n + |body| <= |msg| && msg[n..n + |body|] == body && i <= j <= |body|
    ensures msg[n + i..n + j] == body[i..j]
  {
    forall k | 0 <= k < j - i ensures msg[n + i..n + j][k] == body[i..j][k] {
      assert msg[n..n + |body|][i + k] == body[i + k];
    }
  }

  /** The fields of the object that starts after prefix. */
  lemma HeaderOfObject(prefix: seq<Byte>, o: Object, rest: seq<Byte>)
    requires ValidObject(o)
    ensures var msg := prefix + EncodeObject(o) + rest;
      var hex, j, length := HexOf(msg), 2 * |prefix|, 4 + |PayloadOf(o)|;
      && |hex| == 2 * |msg| && j + length * 2 <= |hex|
      && ParseHex(hex[j..j + 4]) == Some(length) && ParseHex(hex[j + 4..j + 6]) == Some(ClassOf(o) as nat)
      && hex[j + 8..j + length * 2] == HexOf(PayloadOf(o))
  {
    hide PayloadOf, TwoBytes, ParseHex, BigEndian;
    PayloadLength(o);
    var n := |prefix|;
    var msg := prefix + EncodeObject(o) + rest;
    var length := 4 + |PayloadOf(o)|;
    EvenTwo(length);
    HexLength(msg);
    HexSlice(msg, n, n + 2);
    HexSlice(msg, n + 2, n + 3);
    HexSlice(msg, n + 4, n + length);
    ObjectSlices(prefix, o, rest);
    ParseBack(TwoBytes(length));
    TwoBytesBack(length);
    ParseBack([ClassOf(o)]);
    OneByte(ClassOf(o));
  }

  lemma OneByte(b: Byte)
    ensures BigEndian([b]) == b
  {
    assert [b][..0] == [];
  }

  lemma {:induction false} ObjectsBack(prefix: seq<Byte>, objects: seq<Object>)
    requires ValidObjects(objects)
    ensures Objects(HexOf(prefix + EncodeObjects(objects)), 2 * |prefix|) == Some(AllEntries(objects))
    decreases |objects|
  {
    hide EncodeObject, ParseHex, PayloadOf, ClassOf;
    var msg := prefix + EncodeObjects(objects);
    HexLength(msg);
    if objects != [] {
      var o, rest := objects[0], EncodeObjects(objects[1..]);
      assert ValidObject(o);
      HeaderOfObject(prefix, o, rest);
      assert msg == prefix + EncodeObject(o) + rest;
      ObjectSize(o);
      ObjectsBack(prefix + EncodeObject(o), objects[1..]);
      ClassAndEntries(o);
      var hex, j, length := HexOf(msg), 2 * |prefix|, 4 + |PayloadOf(o)|;
      assert Objects(hex, j + length * 2) == Some(AllEntries(objects[1..]));
      var none: seq<Lse> := [];
      assert none + AllEntries(objects[1..]) == AllEntries(objects[1..]);
      if o.Stack? {
        assert Objects(hex, j) == Some(o.entries + AllEntries(objects[1..]));
      } else {
        assert Objects(hex, j) == Objects(hex, j + length * 2);
      }
    } else {
      assert msg == prefix;
      assert Objects(HexOf(msg), 2 * |prefix|) == Some([]);
    }
  }

  lemma ObjectSize(o: Object)
    requires ValidObject(o)
    ensures |EncodeObject(o)| == 4 + |PayloadOf(o)|
  {
  }

  lemma ClassAndEntries(o: Object)
    requires ValidObject(o)
    ensures ClassOf(o) == 1 <==> o.Stack?
    ensures o.Stack? ==> Entries(HexOf(PayloadOf(o))) == Some(o.entries) && |PayloadOf(o)| > 0 && |PayloadOf(o)| % 4 == 0
  {
    hide Entries, HexOf, EncodeStack;
    if o.Stack? {
      StackBack(o.entries);
      StackLength(o.entries);
    }
  }

  lemma {:induction false} ObjectsAreWords(objects: seq<Object>)
    requires ValidObjects(objects)
    ensures |EncodeObjects(objects)| % 4 == 0
  {
    hide EncodeObject;
    if objects != [] {
      ObjectsAreWords(objects[1..]);
      ObjectSize(objects[0]);
      PayloadLength(objects[0]);
    }
  }

  lemma FirstWord(msg: seq<Byte>, n: nat)
    requires n + 2 <= |msg| && msg[n] == 0x20 && msg[n + 1] == 0
    ensures |HexOf(msg)| == 2 * |msg| && HexOf(msg)[2 * n..2 * n + 4] == "2000"
  {
    HexSlice(msg, n, n + 2);
    assert msg[n..n + 2] == [0x20, 0x00];
    assert HexOf([0x20, 0x00]) == "2000" by { assert HexOf([0x00]) == "00" by { assert HexOf([0x00][1..]) == ""; } }
  }

  /** A structure at the end of a message looks like a start; read from there it
      gives exactly its entries, in order. */
  lemma StructureIsRead(before: seq<Byte>, checksum: int, objects: seq<Object>)
    requires ValidObjects(objects) && |EncodeObjects(objects)| >= 8
    ensures var hex, i := HexOf(before + Structure(checksum, objects)), 2 * |before|;
      && IsStart(hex, i) && i <= |hex|
      && Objects(hex[i..], 8) == Some(AllEntries(objects))
  {
    hide Objects, EncodeObjects, TwoBytes;
    var s := Structure(checksum, objects);
    var msg := before + s;
    EvenTwo(checksum);
    ObjectsAreWords(objects);
    FirstWord(msg, |before|);
    HexSlice(msg, |before|, |msg|);
    assert msg[|before|..|msg|] == s;
    var head := [0x20, 0x00] + TwoBytes(checksum);
    assert s == head + EncodeObjects(objects);
    ObjectsBack(head, objects);
    assert HexOf(msg)[2 * |before|..] == HexOf(msg)[2 * |before|..2 * |msg|];
  }

  /** The structure is found exactly when no later aligned word looks like the
      start of one, and then its entries come out. */
  lemma StructureIsFound(before: seq<Byte>, checksum: int, objects: seq<Object>)
    requires ValidObjects(objects) && |EncodeObjects(objects)| >= 8
    ensures var msg := before + Structure(checksum, objects);
      var clear := forall k :: 2 * |before| < k ==> !IsStart(HexOf(msg), k);
      && (LastStart(HexOf(msg), |HexOf(msg)|) == 2 * |before| <==> clear)
      && (clear ==> Extracted(msg) == AllEntries(objects))
  {
    hide Objects, EncodeObjects, IsStart;
    var msg := before + Structure(checksum, objects);
    var hex := HexOf(msg);
    StructureIsRead(before, checksum, objects);
    LastStartIsLast(hex, |hex|);
    StartsAreInside(hex);
  }

  lemma {:induction false} EntriesFit(hex: string)
    ensures Entries(hex).Some? ==> 8 * |Entries(hex).value| <= |hex|
    decreases |hex|
  {
    hide ParseHex;
    if |hex| >= 8 {
      EntriesFit(hex[8..]);
    }
  }

  lemma ObjectFits(ext: string, j: nat)
    requires j + 8 <= |ext| && ObjectAt(ext, j).Some?
    ensures var (here, next) := ObjectAt(ext, j).value; here != [] ==> 8 * |here| + 8 <= next - j
  {
    hide ParseHex, Entries;
    var (here, next) := ObjectAt(ext, j).value;
    if here != [] {
      EntriesFit(ext[j + 8..next]);
    }
  }

  /** Entries that come out have been there, with the header of an object. */
  lemma {:induction false} ObjectsFit(ext: string, j: nat)
    requires j <= |ext|
    ensures Objects(ext, j).Some? && Objects(ext, j).value != [] ==> 8 * |Objects(ext, j).value| + 8 <= |ext| - j
    decreases |ext| - j
  {
    hide Objects, ObjectAt;
    if j + 8 > |ext| {
      NoMoreObjects(ext, j);
    } else {
      ObjectsStep(ext, j);
      if ObjectAt(ext, j).Some? {
        var (here, next) := ObjectAt(ext, j).value;
        ObjectFits(ext, j);
        ObjectsFit(ext, next);
      }
    }
  }

  lemma StackSize(checksum: int, ctype: Byte, entries: seq<Lse>)
    requires ValidObject(Stack(ctype, entries))
    ensures ValidObjects([Stack(ctype, entries)]) && AllEntries([Stack(ctype, entries)]) == entries
    ensures |EncodeObjects([Stack(ctype, entries)])| == 4 + 4 * |entries|
    ensures |Structure(checksum, [Stack(ctype, entries)])| == 8 + 4 * |entries|
  {
    hide PayloadOf, EncodeStack;
    var o := Stack(ctype, entries);
    ObjectSize(o);
    PayloadLength(o);
    assert [o][1..] == [];
    assert EncodeObjects([o]) == EncodeObject(o) + EncodeObjects([]);
    EvenTwo(checksum);
  }

  /** With one label stack, not empty, its entries come out if and only if no
      later aligned word looks like a start: from a later one fewer are left. */
  lemma StackIsExtractedExactly(before: seq<Byte>, checksum: int, ctype: Byte, entries: seq<Lse>)
    requires ValidObject(Stack(ctype, entries)) && entries != []
    ensures ValidObjects([Stack(ctype, entries)])
    ensures var msg := before + Structure(checksum, [Stack(ctype, entries)]);
      Extracted(msg) == entries <==> forall k :: 2 * |before| < k ==> !IsStart(HexOf(msg), k)
  {
    hide Objects, EncodeObjects, Structure, ValidObject, AllEntries, HexOf, LastStart;
    StackSize(checksum, ctype, entries);
    var msg := before + Structure(checksum, [Stack(ctype, entries)]);
    var hex := HexOf(msg);
    StructureIsFound(before, checksum, [Stack(ctype, entries)]);
    StructureIsRead(before, checksum, [Stack(ctype, entries)]);
    LastStartIsLast(hex, |hex|);
    StartsAreInside(hex);
    HexLength(msg);
    var i := LastStart(hex, |hex|);
    if i > 2 * |before| {
      assert i >= 2 * |before| + 8;
      ObjectsFit(hex[i..], 8);
    }
  }

  lemma StartsAreInside(hex: string)
    ensures forall k :: IsStart(hex, k) ==> 0 <= k < |hex|
  {
  }

  /** A label whose entry starts 0x2000, with two entries after it, hides the
      whole stack: three entries are encoded and none is extracted. */
  lemma LaterStartHides()
    ensures var zero := Lse(0, 0, 0, 0);
      var objects := [Stack(1, [Lse(0x20000, 0, 0, 0), zero, zero])];
      && ValidObjects(objects) && |EncodeObjects(objects)| >= 8
      && |AllEntries(objects)| == 3 && Extracted(Structure(0, objects)) == []
  {
    hide HexOf, ParseHex, Objects, LastStart, Extracted, EncodeLse, EncodeStack;
    var zero, first := Lse(0, 0, 0, 0), Lse(0x20000, 0, 0, 0);
    var entries := [first, zero, zero];
    var objects := [Stack(1, entries)];
    assert ValidObject(objects[0]);
    StackLength(entries);
    assert EncodeObjects(objects) == EncodeObject(objects[0]) by { assert EncodeObjects(objects[1..]) == []; }
    StackBytes(first, zero);
    EntryBytes(first, 0x20);
    EntryBytes(zero, 0);
    var msg := Structure(0, objects);
    assert |msg| == 20 && forall k :: 0 <= k < 12 ==> msg[8 + k] == EncodeStack(entries)[k];
    assert msg[8] == 0x20 && msg[9] == 0 && msg[12] == 0 && msg[13] == 0;
    SecondStartWins(msg);
    assert AllEntries(objects) == entries by { assert AllEntries(objects[1..]) == []; }
  }

  lemma EntryBytes(e: Lse, top: nat)
    requires ValidLse(e) && e.lbl == top * 0x1000
    ensures |EncodeLse(e)| == 4 && EncodeLse(e)[0] == top && EncodeLse(e)[1] == 0
  {
    assert e.lbl / 0x10 == top * 0x100;
  }

  lemma StackBytes(a: Lse, b: Lse)
    requires ValidLse(a) && ValidLse(b)
    ensures EncodeStack([a, b, b]) == EncodeLse(a) + EncodeLse(b) + EncodeLse(b)
  {
    hide EncodeLse;
    assert [a, b, b][1..] == [b, b] && [b, b][1..] == [b];
    assert EncodeStack([b]) == EncodeLse(b) by { assert EncodeStack([b][1..]) == []; }
  }

  lemma SecondStartWins(msg: seq<Byte>)
    requires |msg| == 20 && msg[8] == 0x20 && msg[9] == 0 && msg[12] == 0 && msg[13] == 0
    ensures Extracted(msg) == []
  {
    hide HexOf, ParseHex, BigEndian;
    var hex := HexOf(msg);
    FirstWord(msg, 8);
    LastStartIsLast(hex, |hex|);
    assert IsStart(hex, 16);
    assert LastStart(hex, |hex|) == 16;
    HexSlice(msg, 12, 14);
    assert msg[12..14] == TwoBytes(0);
    ParseBack(TwoBytes(0));
    TwoBytesBack(0);
    assert hex[16..][8..12] == hex[24..28];
  }
}
