/** Finding IP addresses in a line of text and annotating them.

    Lines are sequences of bytes, written as characters.  What counts as an
    address is up to a parser, which here is any function at all: nothing below
    depends on which strings it accepts. */
module Nali {
  import opened Text

  datatype Family = AnyFamily | Family4 | Family6

  /** A parsed address; `bare` is its text without the zone. */
  datatype Address = Address(is4: bool, zoned: bool, bare: string)

  type Parser = string -> Option<Address>

  datatype Span = Span(
    start: nat, end: nat, insertEnd: nat, text: string, lookupIP: string, family: Family)

  // ---------------------------------------------------------------------- bytes

  predicate IsHexByte(c: char) {
    '0' <= c <= '9' || 'a' <= c <= 'f' || 'A' <= c <= 'F'
  }

  predicate IsWordByte(c: char) {
    '0' <= c <= '9' || 'a' <= c <= 'z' || 'A' <= c <= 'Z' || c == '_' || c == '-'
  }

  predicate IsZoneByte(c: char) {
    IsWordByte(c)
  }

  predicate IsIPStart(c: char) {
    IsHexByte(c) || c == ':'
  }

  predicate IsCandidateByte(c: char) {
    IsHexByte(c) || c == '.' || c == ':'
  }

  predicate IsLeftBoundary(line: string, start: nat)
    requires start <= |line|
  {
    start == 0 || !IsWordByte(line[start - 1])
  }

  // ------------------------------------------------------------- the candidate token

  /** The end of the longest run of zone bytes from i on. */
  function ZoneEnd(line: string, i: nat): (end: nat)
    requires i <= |line|
    ensures i <= end <= |line|
    ensures forall k :: i <= k < end ==> IsZoneByte(line[k])
    ensures end == |line| || !IsZoneByte(line[end])
    decreases |line| - i
  {
    if i < |line| && IsZoneByte(line[i]) then ZoneEnd(line, i + 1) else i
  }

  /** The end of the longest run of candidate bytes from i on. */
  function RunEnd(line: string, i: nat): (end: nat)
    requires i <= |line|
    ensures i <= end <= |line|
    ensures forall k :: i <= k < end ==> IsCandidateByte(line[k])
    ensures end == |line| || !IsCandidateByte(line[end])
    decreases |line| - i
  {
    if i < |line| && IsCandidateByte(line[i]) then RunEnd(line, i + 1) else i
  }

  /** Candidate bytes, then possibly a zone. */
  function CandidateEnd(line: string, i: nat): (end: nat)
    requires i <= |line|
    ensures i <= end <= |line|
  {
    var stop := RunEnd(line, i);
    if stop < |line| && line[stop] == '%' then ZoneEnd(line, stop + 1) else stop
  }

  method ScanCandidateEnd(line: string, start: nat) returns (end: nat)
    requires start <= |line|
    ensures end == CandidateEnd(line, start)
  {
    var i := start;
    while i < |line|
      invariant start <= i <= |line|
      invariant RunEnd(line, i) == RunEnd(line, start)
    {
      if IsCandidateByte(line[i]) {
        i := i + 1;
      } else if line[i] == '%' {
        i := i + 1;
        ghost var zone := i;
        while i < |line| && IsZoneByte(line[i])
          invariant zone <= i <= |line|
          invariant ZoneEnd(line, i) == ZoneEnd(line, zone)
        {
          i := i + 1;
        }
        return i;
      } else {
        return i;
      }
    }
    return |line|;
  }

  // -------------------------------------------------------------- parsing a token

  function TrimDots(token: string): (r: string)
    ensures r <= token
    ensures r != "" ==> r[|r| - 1] != '.'
    ensures forall k :: |r| <= k < |token| ==> token[k] == '.'
  {
    if token != "" && token[|token| - 1] == '.' then TrimDots(token[..|token| - 1]) else token
  }

  function LastColon(token: string): (idx: int)
    ensures -1 <= idx < |token|
    ensures idx >= 0 ==> token[idx] == ':'
    ensures forall k :: idx < k < |token| ==> token[k] != ':'
  {
    if token == "" then -1
    else if token[|token| - 1] == ':' then |token| - 1
    else LastColon(token[..|token| - 1])
  }

  predicate IsDigit(c: char) {
    '0' <= c <= '9'
  }

  predicate AllDigits(s: string) {
    forall k :: 0 <= k < |s| ==> IsDigit(s[k])
  }

  function Decimal(s: string): nat
    requires AllDigits(s)
  {
    if s == "" then 0
    else
      assert IsDigit(s[|s| - 1]);
      10 * Decimal(s[..|s| - 1]) + (s[|s| - 1] as int - '0' as int)
  }

  function WithoutSign(s: string): string {
    if s != "" && (s[0] == '-' || s[0] == '+') then s[1..] else s
  }

  /** What Go's Atoi accepts: an optional sign and digits, within 64 bits. */
  predicate IsInteger(s: string) {
    var digits := WithoutSign(s);
    && digits != "" && AllDigits(digits)
    && Decimal(digits) <= 0x7FFF_FFFF_FFFF_FFFF + (if s[0] == '-' then 1 else 0)
  }

  function SplitIPv4Port(parse: Parser, token: string): Option<string> {
    var idx := LastColon(token);
    if idx <= 0 || idx == |token| - 1 then None
    else if !IsInteger(token[idx + 1..]) then None
    else
      match parse(token[..idx])
      case Some(a) => if a.is4 then Some(token[..idx]) else None
      case None => None
  }

  function ParseAddr(parse: Parser, raw: string, start: nat): Option<Span> {
    match parse(raw)
    case None => None
    case Some(a) =>
      Some(Span(start, start + |raw|, start + |raw|, raw,
                if a.zoned then a.bare else raw, if a.is4 then Family4 else Family6))
  }

  function ParseCandidate(parse: Parser, token: string, base: nat): Option<Span>
    decreases |token|
  {
    if token == "" then None
    else if TrimDots(token) != token then ParseCandidate(parse, TrimDots(token), base)
    else if '.' !in token && ':' !in token then None
    else if token[0] == ':' && !(|token| >= 2 && token[1] == ':') then ParseCandidate(parse, token[1..], base + 1)
    else
      match SplitIPv4Port(parse, token)
      case Some(host) => ParseAddr(parse, host, base)
      case None => ParseAddr(parse, token, base)
  }

  /** The span stands for a piece of the token that the parser accepts. */
  predicate SpanIn(parse: Parser, token: string, base: nat, span: Span) {
    && base <= span.start < span.end <= base + |token|
    && span.insertEnd == span.end
    && span.text == token[span.start - base..span.end - base]
    && parse(span.text).Some?
    && (var a := parse(span.text).value;
        && span.family == (if a.is4 then Family4 else Family6)
        && span.lookupIP == (if a.zoned then a.bare else span.text))
  }

  lemma AddrGivesSpan(parse: Parser, raw: string, base: nat)
    requires raw != ""
    ensures var r := ParseAddr(parse, raw, base); r.Some? ==> SpanIn(parse, raw, base, r.value)
  {
    assert raw[0..|raw|] == raw;
  }

  /** A span in a piece of a token is a span in the token. */
  lemma SpanWidens(parse: Parser, piece: string, token: string, base: nat, k: nat, s: Span)
    requires k + |piece| <= |token| && piece == token[k..k + |piece|]
    requires SpanIn(parse, piece, base + k, s)
    ensures SpanIn(parse, token, base, s)
  {
    var from, to := s.start - (base + k), s.end - (base + k);
    assert 0 <= from < to <= |piece|;
    forall j | 0 <= j < to - from ensures piece[from..to][j] == token[k + from..k + to][j] {
    }
    assert piece[from..to] == token[k + from..k + to];
  }

  lemma {:induction false} CandidateGivesSpan(parse: Parser, token: string, base: nat)
    ensures var r := ParseCandidate(parse, token, base); r.Some? ==> SpanIn(parse, token, base, r.value)
    decreases |token|
  {
    hide SpanIn, ParseAddr, IsInteger;
    var r := ParseCandidate(parse, token, base);
    if r.Some? {
      var trimmed := TrimDots(token);
      if trimmed != token {
        CandidateGivesSpan(parse, trimmed, base);
        SpanWidens(parse, trimmed, token, base, 0, r.value);
      } else if token[0] == ':' && !(|token| >= 2 && token[1] == ':') {
        CandidateGivesSpan(parse, token[1..], base + 1);
        SpanWidens(parse, token[1..], token, base, 1, r.value);
      } else {
        match SplitIPv4Port(parse, token)
        case Some(host) =>
          AddrGivesSpan(parse, host, base);
          SpanWidens(parse, host, token, base, 0, r.value);
        case None => AddrGivesSpan(parse, token, base);
      }
    }
  }

  /** A span in square brackets is annotated behind the bracket. */
  function InsertionEnd(line: string, span: Span): nat
    requires span.start < span.end <= |line|
  {
    if span.start > 0 && line[span.start - 1] == '[' && span.end < |line| && line[span.end] == ']'
    then span.end + 1 else span.end
  }

  // ------------------------------------------------------------------- all the spans

  lemma CandidateFits(parse: Parser, line: string, i: nat, end: nat)
    requires i <= end <= |line|
    ensures var r := ParseCandidate(parse, line[i..end], i); r.Some? ==> i <= r.value.start < r.value.end <= end
  {
    CandidateGivesSpan(parse, line[i..end], i);
  }

  /** What the scan does at one position: a span or none, and where it goes on. */
  function Look(parse: Parser, line: string, i: nat): (r: (Option<Span>, nat))
    requires i < |line|
    ensures i < r.1 <= |line|
  {
    if !IsIPStart(line[i]) || !IsLeftBoundary(line, i) then (None, i + 1)
    else
      var end := CandidateEnd(line, i);
      if end <= i then (None, i + 1)
      else
        CandidateFits(parse, line, i, end);
        match ParseCandidate(parse, line[i..end], i)
        case None => (None, if "::" <= line[i..end] then end else i + 1)
        case Some(s) =>
          var insertEnd := InsertionEnd(line, s);
          (Some(s.(insertEnd := insertEnd)), if insertEnd > end then insertEnd else end)
  }

  function SpansFrom(parse: Parser, line: string, i: nat): seq<Span>
    requires i <= |line|
    decreases |line| - i
  {
    if i == |line| then []
    else
      var (found, next) := Look(parse, line, i);
      (match found case Some(s) => [s] case None => []) + SpansFrom(parse, line, next)
  }

  lemma LookIs(parse: Parser, line: string, i: nat)
    requires i < |line|
    ensures var end := CandidateEnd(line, i);
      && (!IsIPStart(line[i]) || !IsLeftBoundary(line, i) || end <= i ==> Look(parse, line, i) == (None, i + 1))
      && (IsIPStart(line[i]) && IsLeftBoundary(line, i) && end > i ==>
            var parsed := ParseCandidate(parse, line[i..end], i);
            && (parsed.None? ==> Look(parse, line, i) == (None, if "::" <= line[i..end] then end else i + 1))
            && (parsed.Some? ==>
                  && parsed.value.start < parsed.value.end <= |line|
                  && (var insertEnd := InsertionEnd(line, parsed.value);
                      Look(parse, line, i) ==
                        (Some(parsed.value.(insertEnd := insertEnd)), if insertEnd > end then insertEnd else end))))
  {
    CandidateFits(parse, line, i, CandidateEnd(line, i));
    hide CandidateEnd, ParseCandidate, InsertionEnd, IsIPStart;
  }

  lemma SpansStep(parse: Parser, line: string, i: nat, spans: seq<Span>)
    requires i < |line|
    ensures var (found, next) := Look(parse, line, i);
      spans + SpansFrom(parse, line, i) ==
        spans + (match found case Some(s) => [s] case None => []) + SpansFrom(parse, line, next)
  {
    hide Look;
  }

  method FindIPSpans(parse: Parser, line: string) returns (spans: seq<Span>)
    ensures spans == SpansFrom(parse, line, 0)
  {
    hide CandidateEnd, ParseCandidate, InsertionEnd, IsIPStart, IsLeftBoundary, Look, SpansFrom;
    spans := [];
    var i := 0;
    while i < |line|
      invariant i <= |line|
      invariant spans + SpansFrom(parse, line, i) == SpansFrom(parse, line, 0)
      decreases |line| - i
    {
      LookIs(parse, line, i);
      SpansStep(parse, line, i, spans);
      if !IsIPStart(line[i]) || !IsLeftBoundary(line, i) {
        i := i + 1;
        continue;
      }
      var end := ScanCandidateEnd(line, i);
      if end <= i {
        i := i + 1;
        continue;
      }
      var candidate := line[i..end];
      var parsed := ParseCandidate(parse, candidate, i);
      if parsed.None? {
        i := if "::" <= candidate then end else i + 1;
        continue;
      }
      var insertEnd := InsertionEnd(line, parsed.value);
      spans := spans + [parsed.value.(insertEnd := insertEnd)];
      i := if insertEnd > end then insertEnd else end;
    }
    NothingLeft(parse, line);
  }

  lemma NothingLeft(parse: Parser, line: string)
    ensures SpansFrom(parse, line, |line|) == []
  {
  }

  /** A span lies in the line and is a piece the parser accepts; the insertion
      point is its end, or the closing bracket after it. */
  predicate GoodSpan(parse: Parser, line: string, from: nat, s: Span) {
    && from <= s.start < s.end <= s.insertEnd <= |line|
    && s.text == line[s.start..s.end]
    && parse(s.text).Some?
    && s.family == (if parse(s.text).value.is4 then Family4 else Family6)
    && s.lookupIP == (if parse(s.text).value.zoned then parse(s.text).value.bare else s.text)
    && (s.insertEnd == s.end + 1 <==>
          s.start > 0 && line[s.start - 1] == '[' && s.end < |line| && line[s.end] == ']')
    && s.insertEnd <= s.end + 1
  }

  /** Spans come in order, none reaching into the next. */
  predicate InOrder(spans: seq<Span>) {
    forall j, k :: 0 <= j < k < |spans| ==> spans[j].insertEnd <= spans[k].start
  }

  lemma LookGivesGoodSpan(parse: Parser, line: string, i: nat)
    requires i < |line|
    ensures var (found, next) := Look(parse, line, i);
      found.Some? ==> GoodSpan(parse, line, i, found.value) && found.value.insertEnd <= next
  {
    hide ParseCandidate, CandidateEnd, IsIPStart;
    if IsIPStart(line[i]) && IsLeftBoundary(line, i) {
      var end := CandidateEnd(line, i);
      if end > i {
        var token := line[i..end];
        CandidateGivesSpan(parse, token, i);
        var parsed := ParseCandidate(parse, token, i);
        if parsed.Some? {
          var s := parsed.value;
          assert token[s.start - i..s.end - i] == line[s.start..s.end];
        }
      }
    }
  }

  /** The spans are increasing, disjoint, inside the line, and addresses. */
  lemma {:induction false} SpansAreGood(parse: Parser, line: string, i: nat)
    requires i <= |line|
    ensures var spans := SpansFrom(parse, line, i);
      InOrder(spans) && forall k :: 0 <= k < |spans| ==> GoodSpan(parse, line, i, spans[k])
    decreases |line| - i
  {
    hide Look;
    if i < |line| {
      var (found, next) := Look(parse, line, i);
      LookGivesGoodSpan(parse, line, i);
      SpansAreGood(parse, line, next);
      var rest := SpansFrom(parse, line, next);
      assert forall k :: 0 <= k < |rest| ==> GoodSpan(parse, line, i, rest[k]);
    }
  }

  // ------------------------------------------------------------ a plain address is found

  /** An address written the usual way: candidate bytes only, starting and
      ending where the scan starts and ends, and not a host with a port. */
  predicate PlainAddress(parse: Parser, text: string) {
    && text != "" && IsIPStart(text[0]) && text[|text| - 1] != '.'
    && ('.' in text || ':' in text)
    && !(text[0] == ':' && !(|text| >= 2 && text[1] == ':'))
    && (forall k :: 0 <= k < |text| ==> IsCandidateByte(text[k]))
    && parse(text).Some?
    && SplitIPv4Port(parse, text).None?
  }

  lemma {:induction false} RunEndIs(line: string, i: nat, end: nat)
    requires i <= end <= |line|
    requires forall k :: i <= k < end ==> IsCandidateByte(line[k])
    requires end == |line| || !IsCandidateByte(line[end])
    ensures RunEnd(line, i) == end
    decreases end - i
  {
    if i < end {
      RunEndIs(line, i + 1, end);
    }
  }

  lemma QuietStep(parse: Parser, line: string, i: nat)
    requires i < |line| && !IsIPStart(line[i])
    ensures SpansFrom(parse, line, i) == SpansFrom(parse, line, i + 1)
  {
    hide CandidateEnd, ParseCandidate, InsertionEnd;
    assert Look(parse, line, i) == (None, i + 1);
  }

  lemma {:induction false} SkipsQuietText(parse: Parser, line: string, i: nat, end: nat)
    requires i <= end <= |line|
    requires forall k :: i <= k < end ==> !IsIPStart(line[k])
    ensures SpansFrom(parse, line, i) == SpansFrom(parse, line, end)
    decreases end - i
  {
    hide SpansFrom, IsIPStart;
    if i < end {
      QuietStep(parse, line, i);
      SkipsQuietText(parse, line, i + 1, end);
    }
  }

  lemma PlainAddressParses(parse: Parser, text: string, base: nat)
    requires PlainAddress(parse, text)
    ensures ParseCandidate(parse, text, base) == ParseAddr(parse, text, base)
    ensures ParseAddr(parse, text, base).Some?
  {
    hide SplitIPv4Port;
    assert TrimDots(text) == text;
  }

  /** At an address that stands by itself the scan takes all of it. */
  lemma LookTakesAddress(parse: Parser, line: string, i: nat, end: nat)
    requires i < end <= |line| && PlainAddress(parse, line[i..end])
    requires IsLeftBoundary(line, i)
    requires end == |line| || (!IsCandidateByte(line[end]) && line[end] != '%')
    ensures var found := Look(parse, line, i).0;
      found.Some? && found.value.text == line[i..end] && found.value.start == i && found.value.end == end
  {
    assert forall k :: i <= k < end ==> IsCandidateByte(line[k]) by {
      forall k | i <= k < end ensures IsCandidateByte(line[k]) {
        assert line[k] == line[i..end][k - i];
      }
    }
    assert IsIPStart(line[i]) by { assert line[i] == line[i..end][0]; }
    RunEndIs(line, i, end);
    PlainAddressParses(parse, line[i..end], i);
    hide RunEnd, PlainAddress, ParseCandidate, IsCandidateByte, IsIPStart;
  }

  /** An address between text that cannot be part of one is found, whole. */
  lemma PlainAddressIsFound(parse: Parser, before: string, text: string, after: string)
    requires PlainAddress(parse, text)
    requires forall k :: 0 <= k < |before| ==> !IsIPStart(before[k])
    requires before == "" || !IsWordByte(before[|before| - 1])
    requires after == "" || (!IsCandidateByte(after[0]) && after[0] != '%')
    ensures var spans := SpansFrom(parse, before + text + after, 0);
      && |spans| > 0 && spans[0].text == text
      && spans[0].start == |before| && spans[0].end == |before| + |text|
  {
    assert text != "";
    hide PlainAddress, Look, SpansFrom, IsIPStart, IsWordByte, IsCandidateByte;
    var line, i, end := before + text + after, |before|, |before| + |text|;
    assert line[..i] == before && line[i..end] == text && line[end..] == after;
    assert before != "" ==> line[i - 1] == before[|before| - 1];
    assert after != "" ==> line[end] == after[0];
    SkipsQuietText(parse, line, 0, i);
    LookTakesAddress(parse, line, i, end);
    FoundFirst(parse, line, i);
  }

  lemma FoundFirst(parse: Parser, line: string, i: nat)
    requires i < |line|
    ensures Look(parse, line, i).0.Some? ==>
      |SpansFrom(parse, line, i)| > 0 && SpansFrom(parse, line, i)[0] == Look(parse, line, i).0.value
  {
    hide Look;
  }
}
