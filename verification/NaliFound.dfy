/** Which spans a line gives: when everything between the addresses is free of
    dots and colons, exactly the addresses, in their order, and what each of the
    usual ways of writing one gives. */
module NaliFound {
  import opened Text
  import opened Nali

  // ------------------------------------------------------------------ the bytes

  /** The classes of bytes by their codes: hexadecimal digits, the colon (58) and
      the dot (46), and letters, digits, hyphen (45) and underscore (95). */
  lemma ByteClasses(c: char)
    ensures var n := c as int;
      var hex, word := 48 <= n <= 57 || 65 <= n <= 70 || 97 <= n <= 102,
                       48 <= n <= 57 || 65 <= n <= 90 || 97 <= n <= 122 || n == 45 || n == 95;
      && (IsIPStart(c) <==> hex || n == 58)
      && (IsCandidateByte(c) <==> hex || n == 58 || n == 46)
      && (IsWordByte(c) <==> word) && (IsZoneByte(c) <==> word)
  {
  }

  // ------------------------------------------------------- text without addresses

  predicate Dotless(line: string, i: nat, end: nat) {
    forall k :: i <= k < end && k < |line| ==> line[k] != '.' && line[k] != ':'
  }

  lemma {:induction false} RunStopsAt(line: string, i: nat, stop: nat)
    requires i <= stop < |line| && !IsCandidateByte(line[stop])
    ensures RunEnd(line, i) <= stop
    decreases stop - i
  {
    if i < stop {
      RunStopsAt(line, i + 1, stop);
    }
  }

  /** No token without a dot or a colon is an address. */
  lemma DotlessToken(parse: Parser, token: string, base: nat)
    requires Dotless(token, 0, |token|)
    ensures ParseCandidate(parse, token, base) == None && !("::" <= token)
  {
    hide SplitIPv4Port, ParseAddr;
    if token != "" {
      assert token[|token| - 1] != '.';
      assert TrimDots(token) == token;
    }
    NoColons(token);
  }

  lemma NoColons(token: string)
    requires token == "" || token[0] != ':'
    ensures !("::" <= token)
  {
    assert "::"[0] == ':';
  }

  /** Before stop the scan finds nothing and goes on by one byte. */
  lemma DotlessLook(parse: Parser, line: string, i: nat, stop: nat)
    requires i < stop <= |line| && Dotless(line, i, stop)
    requires stop == |line| || !IsWordByte(line[stop - 1])
    ensures Look(parse, line, i) == (None, i + 1)
  {
    hide ParseCandidate, IsWordByte, TrimDots;
    LookIs(parse, line, i);
    var end := CandidateEnd(line, i);
    if end > i {
      if stop < |line| {
        NotAWord(line[stop - 1]);
        RunStopsAt(line, i, stop - 1);
      }
      var run := RunEnd(line, i);
      forall k | i <= k < end ensures line[k] != '.' && line[k] != ':' {
        if k > run {
          assert IsZoneByte(line[k]);
          NotInZone(line[k]);
        }
      }
      DotlessToken(parse, line[i..end], i);
    }
  }

  lemma NotAWord(c: char)
    requires !IsWordByte(c) && c != '.' && c != ':'
    ensures !IsCandidateByte(c)
  {
  }

  lemma NotInZone(c: char)
    requires IsZoneByte(c)
    ensures c != '.' && c != ':'
  {
  }

  lemma {:induction false} SkipsDotless(parse: Parser, line: string, i: nat, stop: nat)
    requires i <= stop <= |line| && Dotless(line, i, stop)
    requires i == stop || stop == |line| || !IsWordByte(line[stop - 1])
    ensures SpansFrom(parse, line, i) == SpansFrom(parse, line, stop)
    decreases stop - i
  {
    hide Look, IsWordByte;
    if i < stop {
      DotlessLook(parse, line, i, stop);
      SkipsDotless(parse, line, i + 1, stop);
    }
  }

  // ---------------------------------------------------------- lines of addresses

  /** Candidate bytes as far as they go, and then possibly a zone as far as that goes. */
  ghost predicate IsToken(line: string, i: nat, stop: nat, end: nat) {
    && i < stop <= end <= |line|
    && (forall k :: i <= k < stop ==> IsCandidateByte(line[k]))
    && if stop < |line| && line[stop] == '%' then
         && stop < end && (forall k :: stop < k < end ==> IsZoneByte(line[k]))
         && (end == |line| || !IsZoneByte(line[end]))
       else end == stop && (end == |line| || !IsCandidateByte(line[end]))
  }

  lemma {:induction false} ZoneEndIs(line: string, i: nat, end: nat)
    requires i <= end <= |line|
    requires forall k :: i <= k < end ==> IsZoneByte(line[k])
    requires end == |line| || !IsZoneByte(line[end])
    ensures ZoneEnd(line, i) == end
    decreases end - i
  {
    if i < end {
      ZoneEndIs(line, i + 1, end);
    }
  }

  lemma TokenEnds(line: string, i: nat, stop: nat, end: nat)
    requires IsToken(line, i, stop, end)
    ensures CandidateEnd(line, i) == end
  {
    hide IsZoneByte;
    if stop < |line| && line[stop] == '%' {
      NotCandidate('%');
      RunEndIs(line, i, stop);
      ZoneEndIs(line, stop + 1, end);
    } else {
      RunEndIs(line, i, stop);
    }
  }

  lemma NotCandidate(c: char)
    requires c == '%'
    ensures !IsCandidateByte(c)
  {
  }

  /** A token in the line that is an address, or is none but starts with two
      colons, and then is passed over whole: where it starts, where its candidate bytes stop, where it ends. */
  datatype Mark = Mark(start: nat, stop: nat, end: nat)

  ghost predicate IsMark(parse: Parser, line: string, m: Mark) {
    && IsToken(line, m.start, m.stop, m.end)
    && IsIPStart(line[m.start]) && (m.start == 0 || !IsWordByte(line[m.start - 1]))
    && (ParseCandidate(parse, line[m.start..m.end], m.start).Some? || StartsWithTwoColons(line, m))
  }

  predicate StartsWithTwoColons(line: string, m: Mark) {
    m.start + 1 < m.end <= |line| && line[m.start] == ':' && line[m.start + 1] == ':'
  }

  /** From here on there are these tokens, with no dot or colon between them. */
  ghost predicate Marked(parse: Parser, line: string, from: nat, marks: seq<Mark>)
    decreases |marks|
  {
    if marks == [] then from <= |line| && Dotless(line, from, |line|)
    else
      && from <= marks[0].start && Dotless(line, from, marks[0].start)
      && IsMark(parse, line, marks[0])
      && Marked(parse, line, marks[0].end, marks[1..])
  }

  /** The span of a token, annotated behind a closing bracket if it stands in brackets. */
  ghost function SpanAt(parse: Parser, line: string, m: Mark): Option<Span>
    requires IsMark(parse, line, m)
  {
    CandidateFits(parse, line, m.start, m.end);
    match ParseCandidate(parse, line[m.start..m.end], m.start)
    case None => None
    case Some(s) =>
      var bracketed := s.start > 0 && line[s.start - 1] == '[' && s.end < |line| && line[s.end] == ']';
      Some(s.(insertEnd := if bracketed then s.end + 1 else s.end))
  }

  ghost function SpansAt(parse: Parser, line: string, from: nat, marks: seq<Mark>): seq<Span>
    requires Marked(parse, line, from, marks)
    decreases |marks|
  {
    if marks == [] then []
    else
      var m := marks[0];
      (match SpanAt(parse, line, m) case Some(s) => [s] case None => []) + SpansAt(parse, line, m.end, marks[1..])
  }

  lemma MarkFound(parse: Parser, line: string, m: Mark)
    requires IsMark(parse, line, m)
    ensures Look(parse, line, m.start).0 == SpanAt(parse, line, m)
    ensures m.end <= Look(parse, line, m.start).1 <= m.end + 1 <= |line| + 1
    ensures Look(parse, line, m.start).1 == m.end + 1 ==> m.end < |line| && line[m.end] == ']'
  {
    hide ParseCandidate, IsCandidateByte, IsZoneByte, CandidateEnd;
    TokenEnds(line, m.start, m.stop, m.end);
    LookIs(parse, line, m.start);
    CandidateFits(parse, line, m.start, m.end);
    if StartsWithTwoColons(line, m) {
      TwoColons(line[m.start..m.end]);
    }
  }

  lemma TwoColons(token: string)
    requires |token| >= 2 && token[0] == ':' && token[1] == ':'
    ensures "::" <= token
  {
  }

  /** Such a line gives exactly the spans of its tokens, in their order. */
  lemma {:induction false} ExactlyTheMarked(parse: Parser, line: string, from: nat, marks: seq<Mark>)
    requires Marked(parse, line, from, marks)
    ensures SpansFrom(parse, line, from) == SpansAt(parse, line, from, marks)
    decreases |marks|
  {
    hide IsMark, Look, SpanAt;
    if marks == [] {
      SkipsDotless(parse, line, from, |line|);
      NothingLeft(parse, line);
    } else {
      var m := marks[0];
      MarkBasics(parse, line, m);
      SkipsDotless(parse, line, from, m.start);
      MarkFound(parse, line, m);
      SpansStep(parse, line, m.start, []);
      ExactlyTheMarked(parse, line, m.end, marks[1..]);
      var next := Look(parse, line, m.start).1;
      if next == m.end + 1 {
        BracketStep(parse, line, m.end);
      }
    }
  }

  lemma MarkBasics(parse: Parser, line: string, m: Mark)
    requires IsMark(parse, line, m)
    ensures m.start < m.end <= |line| && (m.start == 0 || !IsWordByte(line[m.start - 1]))
  {
  }

  lemma BracketStep(parse: Parser, line: string, i: nat)
    requires i < |line| && line[i] == ']'
    ensures SpansFrom(parse, line, i) == SpansFrom(parse, line, i + 1)
  {
    QuietStep(parse, line, i);
  }

  // ----------------------------------------------------------- ways to write an address

  /** What the parser says of an accepted text, as a span. */
  function Whole(parse: Parser, text: string, base: nat): Span
    requires parse(text).Some?
  {
    var a := parse(text).value;
    Span(base, base + |text|, base + |text|, text, if a.zoned then a.bare else text, if a.is4 then Family4 else Family6)
  }

  /** Dots behind a token do not belong to it. */
  lemma {:induction false} DotsBehind(parse: Parser, token: string, dots: string, base: nat)
    requires forall k :: 0 <= k < |dots| ==> dots[k] == '.'
    requires token != "" && token[|token| - 1] != '.'
    ensures ParseCandidate(parse, token + dots, base) == ParseCandidate(parse, token, base)
  {
    hide SplitIPv4Port, ParseAddr;
    DotsTrimmed(token, dots);
    assert dots == "" ==> token + dots == token;
  }

  lemma {:induction false} DotsTrimmed(token: string, dots: string)
    requires forall k :: 0 <= k < |dots| ==> dots[k] == '.'
    requires token != "" && token[|token| - 1] != '.'
    ensures TrimDots(token + dots) == token
    decreases |dots|
  {
    if dots == "" {
      assert token + dots == token;
    } else {
      var n := |dots| - 1;
      DotsTrimmed(token, dots[..n]);
      assert (token + dots)[..|token + dots| - 1] == token + dots[..n];
    }
  }

  /** A single colon in front does not belong to a token. */
  lemma ColonBefore(parse: Parser, token: string, base: nat)
    requires token != "" && token[0] != ':' && token[|token| - 1] != '.'
    ensures ParseCandidate(parse, ":" + token, base) == ParseCandidate(parse, token, base + 1)
  {
    hide SplitIPv4Port, ParseAddr;
    var t := ":" + token;
    assert TrimDots(t) == t;
    assert t[1..] == token;
  }

  lemma {:induction false} ColonAt(host: string, port: string)
    requires AllDigits(port)
    ensures LastColon(host + ":" + port) == |host|
    decreases |port|
  {
    var t := host + ":" + port;
    if port == "" {
      assert t[|t| - 1] == ':';
    } else {
      var n := |port| - 1;
      ColonAt(host, port[..n]);
      assert t[..|t| - 1] == host + ":" + port[..n];
      assert t[|t| - 1] == port[n];
      assert IsDigit(port[n]);
    }
  }

  /** An IPv4 address with a port is that address. */
  lemma PortBehind(parse: Parser, host: string, port: string, base: nat)
    requires host != "" && host[0] != ':' && parse(host).Some? && parse(host).value.is4
    requires port != "" && AllDigits(port) && Decimal(port) <= 0x7FFF_FFFF_FFFF_FFFF
    ensures ParseCandidate(parse, host + ":" + port, base) == Some(Whole(parse, host, base))
  {
    hide LastColon, TrimDots, Decimal;
    var t := host + ":" + port;
    ColonAt(host, port);
    assert t[..|host|] == host && t[|host| + 1..] == port;
    assert IsInteger(port) by { assert IsDigit(port[0]); }
    assert SplitIPv4Port(parse, t) == Some(host);
    assert t[|t| - 1] == port[|port| - 1] && IsDigit(port[|port| - 1]);
    LastNoDot(t);
    assert ':' in t by { assert t[|host|] == ':'; }
    assert t[0] == host[0];
  }

  lemma LastNoDot(t: string)
    requires t == "" || t[|t| - 1] != '.'
    ensures TrimDots(t) == t
  {
  }

  /** Digits behind a sign or none, within 64 bits. */
  predicate Reads(s: string, sign: string, digits: string) {
    && s == sign + digits && (sign == "" || sign == "+" || sign == "-") && digits != ""
    && AllDigits(digits)
    && Decimal(digits) <= if sign == "-" then 0x8000_0000_0000_0000 else 0x7FFF_FFFF_FFFF_FFFF
  }

  /** A port is what reads as a 64-bit number. */
  lemma IntegerText(s: string)
    ensures IsInteger(s) <==> exists sign, digits :: Reads(s, sign, digits)
  {
    hide Decimal, AllDigits;
    if IsInteger(s) {
      var signed := s[0] == '-' || s[0] == '+';
      var sign := if signed then s[..1] else "";
      assert s == sign + WithoutSign(s) && (signed ==> sign == [s[0]]);
      assert Reads(s, sign, WithoutSign(s));
    }
    forall sign, digits | Reads(s, sign, digits) ensures IsInteger(s) {
      if sign != "" {
        assert s[0] == sign[0] && s[1..] == digits;
      } else {
        FirstDigit(digits);
        assert s == digits;
      }
    }
  }

  lemma FirstDigit(digits: string)
    requires digits != "" && AllDigits(digits)
    ensures digits[0] != '-' && digits[0] != '+' && digits[0] != ':' && digits[|digits| - 1] != '.' && digits[|digits| - 1] != ':'
  {
    assert IsDigit(digits[0]) && IsDigit(digits[|digits| - 1]);
  }

  /** Any other text with a dot or a colon is an address when the parser says so;
      a zone in it belongs to its text but not to what is looked up. */
  lemma NoPortBehind(parse: Parser, text: string, base: nat)
    requires text != "" && text[|text| - 1] != '.' && ('.' in text || ':' in text)
    requires text[0] == ':' ==> |text| >= 2 && text[1] == ':'
    requires forall port: string, host: string ::
      text == host + ":" + port && parse(host).Some? && parse(host).value.is4 ==> !IsInteger(port)
    ensures ParseCandidate(parse, text, base) == if parse(text).Some? then Some(Whole(parse, text, base)) else None
  {
    hide IsInteger, LastColon;
    LastNoDot(text);
    var idx := LastColon(text);
    if 0 < idx < |text| - 1 {
      assert text == text[..idx] + ":" + text[idx + 1..];
    }
    assert SplitIPv4Port(parse, text) == None;
  }

  /** Text on both sides that cannot belong to a token of candidate bytes. */
  predicate Apart(before: string, after: string) {
    && Dotless(before, 0, |before|) && Dotless(after, 0, |after|)
    && (before == "" || !IsWordByte(before[|before| - 1]))
    && (after == "" || (!IsHexByte(after[0]) && after[0] != '%'))
  }

  lemma MarkBetween(parse: Parser, before: string, token: string, after: string)
    requires Apart(before, after) && token != "" && IsIPStart(token[0])
    requires forall k :: 0 <= k < |token| ==> IsCandidateByte(token[k])
    requires ParseCandidate(parse, token, |before|).Some?
    ensures var m := Mark(|before|, |before| + |token|, |before| + |token|);
      && IsMark(parse, before + token + after, m) && Marked(parse, before + token + after, 0, [m])
      && (before + token + after)[m.start..m.end] == token
  {
    hide ParseCandidate, IsWordByte, IsZoneByte, IsCandidateByte, IsIPStart;
    var line := before + token + after;
    var m := Mark(|before|, |before| + |token|, |before| + |token|);
    InBetween(before, token, after);
    if after != "" {
      NoCandidate(after[0]);
      assert line[m.end] == after[0];
    }
    assert IsToken(line, m.start, m.stop, m.end);
    assert [m][1..] == [];
  }

  lemma NoCandidate(c: char)
    requires !IsHexByte(c) && c != '.' && c != ':'
    ensures !IsCandidateByte(c)
  {
  }

  lemma InBetween(before: string, token: string, after: string)
    ensures var line := before + token + after;
      && |line| == |before| + |token| + |after|
      && line[|before|..|before| + |token|] == token
      && (forall k :: 0 <= k < |before| ==> line[k] == before[k])
      && (forall k :: |before| <= k < |before| + |token| ==> line[k] == token[k - |before|])
      && (forall k :: |before| + |token| <= k < |line| ==> line[k] == after[k - |before| - |token|])
  {
  }

  /** An address that is all of its token stands alone in such a line. */
  lemma OnlyMark(parse: Parser, before: string, token: string, after: string)
    requires Apart(before, after) && token != "" && IsIPStart(token[0])
    requires forall k :: 0 <= k < |token| ==> IsCandidateByte(token[k])
    requires ParseCandidate(parse, token, |before|).Some?
    ensures var line, found := before + token + after, ParseCandidate(parse, token, |before|).value;
      && found.start < found.end <= |before| + |token|
      && SpansFrom(parse, line, 0) == [found.(insertEnd := InsertionEnd(line, found))]
  {
    hide ParseCandidate, SpansFrom, IsIPStart, IsCandidateByte, Apart, IsMark, Marked, SpansAt, InsertionEnd;
    var line := before + token + after;
    var m := Mark(|before|, |before| + |token|, |before| + |token|);
    MarkBetween(parse, before, token, after);
    ExactlyTheMarked(parse, line, 0, [m]);
    OneSpan(parse, line, m);
    CandidateFits(parse, line, m.start, m.end);
  }

  lemma OneSpan(parse: Parser, line: string, m: Mark)
    requires IsMark(parse, line, m) && Marked(parse, line, 0, [m])
    ensures m.end <= |line|
    ensures var found := ParseCandidate(parse, line[m.start..m.end], m.start);
      found.Some? ==>
        && found.value.start < found.value.end <= |line|
        && SpansAt(parse, line, 0, [m]) == [found.value.(insertEnd := InsertionEnd(line, found.value))]
  {
    hide ParseCandidate, IsToken;
    MarkBasics(parse, line, m);
    CandidateFits(parse, line, m.start, m.end);
    assert [m][1..] == [];
    assert SpansAt(parse, line, m.end, [m][1..]) == [];
  }

  /** An IPv4 address with a port between text without dots and colons is found
      as that address, and nothing else is. */
  lemma AddressWithPortIsFound(parse: Parser, before: string, host: string, port: string, after: string)
    requires Apart(before, after)
    requires host != "" && IsHexByte(host[0]) && (forall k :: 0 <= k < |host| ==> IsCandidateByte(host[k]))
    requires parse(host).Some? && parse(host).value.is4
    requires port != "" && AllDigits(port) && Decimal(port) <= 0x7FFF_FFFF_FFFF_FFFF
    ensures SpansFrom(parse, before + (host + ":" + port) + after, 0) == [Whole(parse, host, |before|)]
  {
    hide ParseCandidate, SpansFrom, Decimal, IsWordByte, Apart;
    var token := host + ":" + port;
    PortBehind(parse, host, port, |before|);
    forall k | 0 <= k < |token| ensures IsCandidateByte(token[k]) {
      if k < |host| {
        assert token[k] == host[k];
      } else if k > |host| {
        assert token[k] == port[k - |host| - 1] && IsDigit(port[k - |host| - 1]);
      }
    }
    assert token[0] == host[0];
    OnlyMark(parse, before, token, after);
    assert (before + token + after)[|before| + |host|] == ':';
  }
}
