/** Annotating a line with labels, and the bounded cache of labels behind it. */
module NaliAnnotator {
  import opened Nali

  // ------------------------------------------------------------------- insertions

  /** One label to insert behind the first `at` bytes of the line. */
  datatype Insertion = Insertion(at: nat, text: string)

  function Bracketed(text: string): string {
    " [" + text + "]"
  }

  /** Insertion points increase, none is at the very start, all are in the line. */
  predicate Insertable(line: string, ins: seq<Insertion>) {
    && (forall k :: 0 <= k < |ins| ==> 0 < ins[k].at <= |line|)
    && (forall j, k :: 0 <= j < k < |ins| ==> ins[j].at < ins[k].at)
  }

  function LastAt(ins: seq<Insertion>): nat {
    if ins == [] then 0 else ins[|ins| - 1].at
  }

  /** The line up to the last insertion, labels in place. */
  function Head(line: string, ins: seq<Insertion>): string
    requires Insertable(line, ins)
    decreases |ins|
  {
    if ins == [] then ""
    else
      var front, last := ins[..|ins| - 1], ins[|ins| - 1];
      Head(line, front) + line[LastAt(front)..last.at] + Bracketed(last.text)
  }

  function Annotated(line: string, ins: seq<Insertion>): string
    requires Insertable(line, ins)
  {
    Head(line, ins) + line[LastAt(ins)..]
  }

  function LabelBytes(ins: seq<Insertion>): nat
    decreases |ins|
  {
    if ins == [] then 0 else LabelBytes(ins[..|ins| - 1]) + |ins[|ins| - 1].text| + 3
  }

  /** Cutting the labels out again, last one first, told only where they went
      and how long they are. */
  function CutOut(out: string, ins: seq<Insertion>): string
    decreases |ins|
  {
    if ins == [] then out
    else
      var front, last := ins[..|ins| - 1], ins[|ins| - 1];
      var p := last.at + LabelBytes(front);
      if |out| < p + |last.text| + 3 then out
      else CutOut(out[..p] + out[p + |last.text| + 3..], front)
  }

  lemma {:induction false} HeadLength(line: string, ins: seq<Insertion>)
    requires Insertable(line, ins)
    ensures |Head(line, ins)| == LastAt(ins) + LabelBytes(ins)
    decreases |ins|
  {
    if ins != [] {
      HeadLength(line, ins[..|ins| - 1]);
    }
  }

  lemma CutMiddle(front: string, middle: string, back: string)
    ensures (front + middle + back)[..|front|] == front
    ensures (front + middle + back)[|front| + |middle|..] == back
  {
  }

  lemma Rejoin(line: string, i: nat, j: nat)
    requires i <= j <= |line|
    ensures line[i..j] + line[j..] == line[i..]
  {
  }

  /** Cutting the last label leaves the line annotated with the others. */
  lemma LastLabelCut(line: string, ins: seq<Insertion>)
    requires Insertable(line, ins) && ins != []
    ensures var front, last := ins[..|ins| - 1], ins[|ins| - 1];
      var p, out := last.at + LabelBytes(front), Annotated(line, ins);
      && |out| >= p + |last.text| + 3
      && out[..p] + out[p + |last.text| + 3..] == Annotated(line, front)
  {
    hide Head, LabelBytes;
    var front, last := ins[..|ins| - 1], ins[|ins| - 1];
    LastInsertion(line, ins);
    HeadLength(line, front);
    var head, plain := Head(line, front), line[LastAt(front)..last.at];
    CutMiddle(head + plain, Bracketed(last.text), line[last.at..]);
    Rejoin(line, LastAt(front), last.at);
    assert head + plain + line[last.at..] == head + (plain + line[last.at..]);
  }

  /** Nothing but labels is added: cutting them out gives the line back. */
  lemma {:induction false} CutOutRestores(line: string, ins: seq<Insertion>)
    requires Insertable(line, ins)
    ensures CutOut(Annotated(line, ins), ins) == line
    ensures |Annotated(line, ins)| == |line| + LabelBytes(ins)
    decreases |ins|
  {
    HeadLength(line, ins);
    hide Head;
    if ins != [] {
      LastLabelCut(line, ins);
      CutOutRestores(line, ins[..|ins| - 1]);
    } else {
      assert Annotated(line, ins) == line by { EmptyHead(line); }
    }
  }

  lemma EmptyHead(line: string)
    ensures Insertable(line, []) && Head(line, []) == "" && Annotated(line, []) == line
  {
  }

  lemma {:induction false} HeadGrows(line: string, ins: seq<Insertion>, k: nat)
    requires Insertable(line, ins) && k <= |ins|
    ensures Insertable(line, ins[..k]) && Head(line, ins[..k]) <= Head(line, ins)
    decreases |ins|
  {
    if k == |ins| {
      assert ins[..k] == ins;
    } else {
      var front := ins[..|ins| - 1];
      HeadGrows(line, front, k);
      assert front[..k] == ins[..k];
    }
  }

  /** In the annotated line each label stands at its place, behind a blank and in
      square brackets. */
  lemma LabelsReadAsWritten(line: string, ins: seq<Insertion>, k: nat)
    requires Insertable(line, ins) && k < |ins|
    ensures var out, p, n := Annotated(line, ins), ins[k].at + LabelBytes(ins[..k]), |ins[k].text|;
      && p + n + 3 <= |out|
      && out[p] == ' ' && out[p + 1] == '[' && out[p + 2..p + 2 + n] == ins[k].text && out[p + 2 + n] == ']'
  {
    hide Head, LabelBytes;
    var upTo := ins[..k + 1];
    HeadGrows(line, ins, k + 1);
    HeadGrows(line, ins, k);
    assert upTo[..k] == ins[..k] && upTo[k] == ins[k];
    HeadLength(line, ins[..k]);
    LastInsertion(line, upTo);
  }

  lemma LastInsertion(line: string, ins: seq<Insertion>)
    requires Insertable(line, ins) && ins != []
    ensures var front, last := ins[..|ins| - 1], ins[|ins| - 1];
      && Insertable(line, front)
      && Head(line, ins) == Head(line, front) + line[LastAt(front)..last.at] + (" [" + last.text + "]")
      && LastAt(front) <= last.at
  {
  }

  /** Without a last insertion point there was no insertion. */
  lemma NoLastNoLabels(line: string, ins: seq<Insertion>)
    requires Insertable(line, ins) && LastAt(ins) == 0
    ensures Annotated(line, ins) == line
  {
  }

  // ------------------------------------------------------------------- the label cache

  const MAX_ENTRIES: nat := 4096

  /** What callers see of the cache: the labels, and the keys from oldest to newest. */
  datatype Cache = Cache(labels: map<string, string>, age: seq<string>)

  predicate NoRepeats(keys: seq<string>) {
    forall j, k :: 0 <= j < k < |keys| ==> keys[j] != keys[k]
  }

  /** The ages list exactly the keys, each once, and never more than fit. */
  ghost predicate CacheOk(c: Cache) {
    && NoRepeats(c.age)
    && |c.age| <= MAX_ENTRIES
    && (forall ip :: ip in c.labels <==> ip in c.age)
  }

  /** First in, first out: a new key pushes out the oldest when the cache is full. */
  function Stored(c: Cache, ip: string, text: string): Cache {
    if ip in c.labels then c.(labels := c.labels[ip := text])
    else if |c.age| < MAX_ENTRIES then Cache(c.labels[ip := text], c.age + [ip])
    else Cache((c.labels - {c.age[0]})[ip := text], c.age[1..] + [ip])
  }

  lemma StoredKeepsOk(c: Cache, ip: string, text: string)
    requires CacheOk(c)
    ensures CacheOk(Stored(c, ip, text))
    ensures Stored(c, ip, text).labels[ip] == text
    ensures forall other :: other in Stored(c, ip, text).labels && other != ip ==>
              other in c.labels && Stored(c, ip, text).labels[other] == c.labels[other]
  {
    var next := Stored(c, ip, text);
    if ip !in c.labels && |c.age| == MAX_ENTRIES {
      assert c.age == [c.age[0]] + c.age[1..];
      forall other ensures other in next.labels <==> other in next.age {
        assert other in c.age <==> other == c.age[0] || other in c.age[1..];
      }
    }
  }

  // What is cached after any stores, told without the cache.

  datatype Store = Store(ip: string, text: string)

  /** The newest entries that fit. */
  function Newest(keys: seq<string>): seq<string> {
    if |keys| <= 4096 then keys else keys[|keys| - 4096..]
  }

  /** The addresses in the order in which they entered: again each time after they
      were pushed out. */
  function Entered(stores: seq<Store>): seq<string> {
    if stores == [] then []
    else
      var before, ip := Entered(stores[..|stores| - 1]), stores[|stores| - 1].ip;
      if ip in Newest(before) then before else before + [ip]
  }

  /** The text stored for an address last. */
  function LatestText(stores: seq<Store>, ip: string): string {
    if stores == [] then ""
    else if stores[|stores| - 1].ip == ip then stores[|stores| - 1].text
    else LatestText(stores[..|stores| - 1], ip)
  }

  function StoreAll(stores: seq<Store>): Cache {
    if stores == [] then Cache(map[], [])
    else
      var s := stores[|stores| - 1];
      Stored(StoreAll(stores[..|stores| - 1]), s.ip, s.text)
  }

  /** One more key, and the oldest pushed out if need be. */
  lemma NewestMore(keys: seq<string>, ip: string)
    ensures Newest(keys + [ip]) == (if |Newest(keys)| < 4096 then Newest(keys) else Newest(keys)[1..]) + [ip]
  {
  }

  /** After any stores the cache holds exactly the 4096 addresses that entered last,
      oldest first, each with the text stored for it last. */
  lemma {:induction false} CacheHoldsNewest(stores: seq<Store>)
    ensures var c := StoreAll(stores);
      && c.age == Newest(Entered(stores)) && NoRepeats(c.age)
      && (forall ip :: ip in c.labels <==> ip in c.age)
      && (forall ip :: ip in c.labels ==> c.labels[ip] == LatestText(stores, ip))
  {
    hide Newest, NoRepeats;
    NothingStored();
    if stores != [] {
      var init, s := stores[..|stores| - 1], stores[|stores| - 1];
      CacheHoldsNewest(init);
      var c := StoreAll(init);
      NewestMore(Entered(init), s.ip);
      NewestFits(Entered(init));
      assert CacheOk(c);
      StoredKeepsOk(c, s.ip, s.text);
    }
  }

  lemma NothingStored()
    ensures Newest([]) == [] && NoRepeats([])
  {
  }

  lemma NewestFits(keys: seq<string>)
    ensures |Newest(keys)| <= 4096
  {
  }

  /** The ring read from its oldest entry. */
  function RingView(labels: map<string, string>, ring: seq<string>, next: nat): Cache {
    Cache(labels, if next <= |ring| then ring[next..] + ring[..next] else ring)
  }

  /** Overwriting the oldest slot of a full ring and turning it by one drops the
      oldest entry and appends the new one. */
  lemma RingTurns(ring: seq<string>, next: nat, ip: string)
    requires |ring| == MAX_ENTRIES && next < MAX_ENTRIES
    ensures var after, n := ring[next := ip], (next + 1) % MAX_ENTRIES;
      after[n..] + after[..n] == (ring[next..] + ring[..next])[1..] + [ip]
  {
    var after, n := ring[next := ip], (next + 1) % MAX_ENTRIES;
    assert after[next + 1..] == ring[next + 1..] && after[..next + 1] == ring[..next] + [ip];
    assert (ring[next..] + ring[..next])[1..] == ring[next + 1..] + ring[..next];
  }

  /** What storing does to the ring, told as first in, first out. */
  lemma RingStores(labels: map<string, string>, ring: seq<string>, next: nat, ip: string, text: string)
    requires |ring| <= MAX_ENTRIES && (|ring| < MAX_ENTRIES ==> next == 0) && (|ring| == MAX_ENTRIES ==> next < MAX_ENTRIES)
    ensures var c := RingView(labels, ring, next);
      && c.labels == labels
      && (ip in labels ==> Stored(c, ip, text) == RingView(labels[ip := text], ring, next))
      && (ip !in labels && |ring| < MAX_ENTRIES ==>
            Stored(c, ip, text) == RingView(labels[ip := text], ring + [ip], next))
      && (ip !in labels && |ring| == MAX_ENTRIES ==>
            Stored(c, ip, text) ==
              RingView((labels - {ring[next]})[ip := text], ring[next := ip], (next + 1) % MAX_ENTRIES))
  {
    assert ring[0..] + ring[..0] == ring;
    assert (ring + [ip])[0..] + (ring + [ip])[..0] == ring + [ip];
    if |ring| == MAX_ENTRIES {
      RingTurns(ring, next, ip);
    }
  }

  // --------------------------------------------------------------------- the annotator

  /** What the outside says about an address when asked for the n-th time: a
      label, or "" for nothing. */
  type LabelSource = (nat, string) -> string

  predicate Allowed(wanted: Family, f: Family) {
    wanted == AnyFamily || wanted == f
  }

  ghost predicate FromSource(source: LabelSource, ip: string, text: string) {
    exists n: nat :: text == source(n, ip)
  }

  /** A span of the wanted family has a label the source once gave; others have none. */
  ghost predicate LabelFits(source: LabelSource, wanted: Family, s: Span, text: string) {
    if (wanted == AnyFamily || s.family == wanted) && s.lookupIP != "" then FromSource(source, s.lookupIP, text) else text == ""
  }

  ghost predicate LabelsFit(source: LabelSource, wanted: Family, spans: seq<Span>, labels: seq<string>) {
    |labels| == |spans| && forall k :: 0 <= k < |spans| ==> LabelFits(source, wanted, spans[k], labels[k])
  }

  /** An insertion for every span that has a label. */
  function Labelled(spans: seq<Span>, labels: seq<string>): seq<Insertion>
    requires |labels| == |spans|
    decreases |spans|
  {
    if spans == [] then []
    else
      var n := |spans| - 1;
      Labelled(spans[..n], labels[..n]) +
      (if labels[n] != "" then [Insertion(spans[n].insertEnd, labels[n])] else [])
  }

  ghost predicate SpansOf(parse: Parser, line: string, spans: seq<Span>) {
    InOrder(spans) && forall k :: 0 <= k < |spans| ==> GoodSpan(parse, line, 0, spans[k])
  }

  lemma SpanPlace(parse: Parser, line: string, s: Span)
    requires GoodSpan(parse, line, 0, s)
    ensures s.start < s.insertEnd <= |line|
  {
  }

  lemma {:induction false} LabelledIsInsertable(parse: Parser, line: string, spans: seq<Span>, labels: seq<string>)
    requires SpansOf(parse, line, spans) && |labels| == |spans|
    ensures var ins := Labelled(spans, labels);
      && Insertable(line, ins)
      && (spans != [] ==> LastAt(ins) <= spans[|spans| - 1].insertEnd)
      && (spans == [] ==> ins == [])
    decreases |spans|
  {
    hide GoodSpan, Insertable, LastAt;
    if spans == [] {
      EmptyHead(line);
    } else {
      var n := |spans| - 1;
      SpanPlace(parse, line, spans[n]);
      LabelledIsInsertable(parse, line, spans[..n], labels[..n]);
      var ins := Labelled(spans[..n], labels[..n]);
      if n == 0 {
        LastOfNone();
      } else {
        assert spans[..n][n - 1] == spans[n - 1];
        assert spans[n - 1].insertEnd <= spans[n].start;
      }
      InsertableAdd(line, ins, Insertion(spans[n].insertEnd, labels[n]));
      assert ins + [] == ins;
    }
  }

  lemma LastOfNone()
    ensures LastAt([]) == 0
  {
  }

  lemma InsertableAdd(line: string, ins: seq<Insertion>, last: Insertion)
    requires Insertable(line, ins) && LastAt(ins) < last.at <= |line|
    ensures Insertable(line, ins + [last]) && LastAt(ins + [last]) == last.at
  {
    var next := ins + [last];
    forall j, k | 0 <= j < k < |next| ensures next[j].at < next[k].at {
      if k == |ins| && j < |ins| - 1 {
        assert ins[j].at < ins[|ins| - 1].at;
      }
    }
  }

  lemma LineIsInsertable(parse: Parser, line: string, labels: seq<string>)
    requires |labels| == |SpansFrom(parse, line, 0)|
    ensures SpansOf(parse, line, SpansFrom(parse, line, 0))
    ensures Insertable(line, Labelled(SpansFrom(parse, line, 0), labels))
  {
    SpansAreGood(parse, line, 0);
    LabelledIsInsertable(parse, line, SpansFrom(parse, line, 0), labels);
  }

  /** The line with the given labels behind its addresses. */
  function AnnotatedLine(parse: Parser, line: string, labels: seq<string>): string
    requires |labels| == |SpansFrom(parse, line, 0)|
  {
    LineIsInsertable(parse, line, labels);
    Annotated(line, Labelled(SpansFrom(parse, line, 0), labels))
  }

  /** Annotating adds labels and changes nothing else, whatever the labels are. */
  lemma AnnotatingOnlyAdds(parse: Parser, line: string, labels: seq<string>)
    requires |labels| == |SpansFrom(parse, line, 0)|
    ensures CutOut(AnnotatedLine(parse, line, labels), Labelled(SpansFrom(parse, line, 0), labels)) == line
  {
    LineIsInsertable(parse, line, labels);
    CutOutRestores(line, Labelled(SpansFrom(parse, line, 0), labels));
  }

  /** The insertions are exactly one per labelled span, behind that span. */
  lemma {:induction false} LabelledExactly(spans: seq<Span>, labels: seq<string>, i: Insertion)
    requires |labels| == |spans|
    ensures i in Labelled(spans, labels) <==>
      exists k :: 0 <= k < |spans| && labels[k] != "" && i == Insertion(spans[k].insertEnd, labels[k])
    decreases |spans|
  {
    if spans != [] {
      var n := |spans| - 1;
      LabelledExactly(spans[..n], labels[..n], i);
      forall k | 0 <= k < n ensures spans[..n][k] == spans[k] && labels[..n][k] == labels[k] {
      }
    }
  }

  /** A source that answers the same whenever it is asked. */
  ghost predicate Steady(source: LabelSource) {
    forall n: nat, ip: string :: source(n, ip) == source(0, ip)
  }

  function SteadyLabels(source: LabelSource, wanted: Family, spans: seq<Span>): seq<string> {
    seq(|spans|, k requires 0 <= k < |spans| =>
      if (wanted == AnyFamily || spans[k].family == wanted) && spans[k].lookupIP != "" then source(0, spans[k].lookupIP) else "")
  }

  /** The cache does not show: with a steady source the labels are what the
      source says, however often and in whatever order addresses came before. */
  lemma CacheIsInvisible(source: LabelSource, wanted: Family, spans: seq<Span>, labels: seq<string>)
    requires Steady(source) && LabelsFit(source, wanted, spans, labels)
    ensures labels == SteadyLabels(source, wanted, spans)
  {
    forall k | 0 <= k < |spans| ensures labels[k] == SteadyLabels(source, wanted, spans)[k] {
      assert LabelFits(source, wanted, spans[k], labels[k]);
    }
  }

  class Annotator {
    const parse: Parser
    const source: LabelSource
    const wanted: Family
    var cache: map<string, string>
    var cacheRing: seq<string>
    var cacheNext: nat
    var queries: nat

    constructor (parse: Parser, source: LabelSource, wanted: Family)
      ensures Valid() && View() == Cache(map[], [])
      ensures this.parse == parse && this.source == source && this.wanted == wanted
    {
      this.parse, this.source, this.wanted := parse, source, wanted;
      cache, cacheRing, cacheNext, queries := map[], [], 0, 0;
    }

    ghost function View(): Cache
      reads this
    {
      RingView(cache, cacheRing, cacheNext)
    }

    /** The ring lists the cached addresses, and every label came from the source. */
    ghost predicate Valid()
      reads this
    {
      && CacheOk(View())
      && |cacheRing| <= MAX_ENTRIES
      && (|cacheRing| < MAX_ENTRIES ==> cacheNext == 0)
      && (|cacheRing| == MAX_ENTRIES ==> cacheNext < MAX_ENTRIES)
      && (forall ip :: ip in cache ==> cache[ip] != "" && FromSource(source, ip, cache[ip]))
    }

    method StoreLabel(ip: string, text: string)
      requires Valid() && text != "" && FromSource(source, ip, text)
      modifies this`cache, this`cacheRing, this`cacheNext
      ensures Valid()
      ensures View() == Stored(old(View()), ip, text)
    {
      hide CacheOk, FromSource, RingView, Stored;
      StoredKeepsOk(View(), ip, text);
      RingStores(cache, cacheRing, cacheNext, ip, text);
      if ip in cache {
        cache := cache[ip := text];
        return;
      }
      if |cacheRing| < MAX_ENTRIES {
        cacheRing := cacheRing + [ip];
      } else {
        var oldest := cacheRing[cacheNext];
        cache := cache - {oldest};
        cacheRing := cacheRing[cacheNext := ip];
        cacheNext := (cacheNext + 1) % MAX_ENTRIES;
      }
      cache := cache[ip := text];
    }

    /** The label of an address: from the cache, or from the source and then cached. */
    method LookupLabel(ip: string) returns (text: string)
      requires Valid()
      modifies this
      ensures Valid()
      ensures if ip == "" then text == "" else FromSource(source, ip, text)
      ensures ip in old(cache) && ip != "" ==> text == old(cache[ip]) && queries == old(queries)
      ensures ip != "" && text != "" ==> ip in cache && cache[ip] == text
    {
      if ip == "" {
        return "";
      }
      if ip in cache {
        return cache[ip];
      }
      text := source(queries, ip);
      queries := queries + 1;
      if text != "" {
        StoredKeepsOk(View(), ip, text);
        StoreLabel(ip, text);
      }
    }

    method AnnotateLine(line: string) returns (out: string, ghost labels: seq<string>)
      requires Valid()
      modifies this
      ensures Valid()
      ensures LabelsFit(source, wanted, SpansFrom(parse, line, 0), labels)
      ensures out == AnnotatedLine(parse, line, labels)
    {
      hide CacheOk, NoRepeats, FromSource, SpansFrom, GoodSpan, InOrder, SpansOf, Labelled, Head, Insertable, RingView, LastAt,
        Bracketed;
      BracketedIs();
      var spans := FindIPSpans(parse, line);
      LineIsInsertable(parse, line, seq(|spans|, k => ""));
      out, labels := "", [];
      EmptyHead(line);
      NoLabelsYet();
      if |spans| == 0 {
        return line, [];
      }
      var cursor := 0;
      var k := 0;
      while k < |spans|
        invariant 0 <= k <= |spans|
        invariant Valid()
        invariant LabelsFit(source, wanted, spans[..k], labels)
        invariant Insertable(line, Labelled(spans[..k], labels))
        invariant cursor == LastAt(Labelled(spans[..k], labels)) && out == Head(line, Labelled(spans[..k], labels))
        modifies this
      {
        var span := spans[k];
        var text := "";
        if Allowed(wanted, span.family) {
          text := LookupLabel(span.lookupIP);
        }
        SpanAdded(parse, line, spans, k, labels, text);
        labels := labels + [text];
        k := k + 1;
        if text == "" {
          continue;
        }
        out := out + line[cursor..span.insertEnd] + " [" + text + "]";
        cursor := span.insertEnd;
      }
      assert spans[..k] == spans;
      LineIsInsertable(parse, line, labels);
      if cursor == 0 {
        NoLastNoLabels(line, Labelled(spans, labels));
      }
      if cursor == 0 {
        return line, labels;
      }
      LastInLine(line, Labelled(spans, labels));
      out := out + line[cursor..];
    }
  }

  lemma LastInLine(line: string, ins: seq<Insertion>)
    requires Insertable(line, ins)
    ensures LastAt(ins) <= |line|
  {
  }

  lemma BracketedIs()
    ensures forall text :: Bracketed(text) == " [" + text + "]"
    ensures LastAt([]) == 0
  {
  }

  lemma NoLabelsYet()
    ensures Labelled([], []) == []
  {
  }

  lemma LabelledStep(spans: seq<Span>, k: nat, labels: seq<string>, text: string)
    requires k < |spans| && |labels| == k
    ensures Labelled(spans[..k + 1], labels + [text]) ==
      Labelled(spans[..k], labels) + (if text != "" then [Insertion(spans[k].insertEnd, text)] else [])
  {
    assert spans[..k + 1][..k] == spans[..k] && (labels + [text])[..k] == labels;
  }

  lemma HeadStep(line: string, ins: seq<Insertion>, last: Insertion)
    requires Insertable(line, ins) && Insertable(line, ins + [last])
    ensures LastAt(ins) <= last.at <= |line|
    ensures Head(line, ins + [last]) == Head(line, ins) + line[LastAt(ins)..last.at] + Bracketed(last.text)
  {
    var next := ins + [last];
    assert next[..|next| - 1] == ins && next[|ins|] == last;
    if ins != [] {
      assert next[|ins| - 1].at < next[|ins|].at;
    }
  }

  /** One more span and its label: the line up to the new insertion. */
  lemma SpanAdded(parse: Parser, line: string, spans: seq<Span>, k: nat, labels: seq<string>, text: string)
    requires k < |spans| && |labels| == k && SpansOf(parse, line, spans)
    ensures var ins, next := Labelled(spans[..k], labels), Labelled(spans[..k + 1], labels + [text]);
      && Insertable(line, ins) && Insertable(line, next)
      && (text == "" ==> next == ins)
      && (text != "" ==>
            && LastAt(ins) <= spans[k].insertEnd <= |line|
            && LastAt(next) == spans[k].insertEnd
            && Head(line, next) == Head(line, ins) + line[LastAt(ins)..spans[k].insertEnd] + Bracketed(text))
  {
    hide Insertable, Head, Labelled, GoodSpan;
    LabelledIsInsertable(parse, line, spans[..k], labels);
    LabelledIsInsertable(parse, line, spans[..k + 1], labels + [text]);
    LabelledStep(spans, k, labels, text);
    if text != "" {
      HeadStep(line, Labelled(spans[..k], labels), Insertion(spans[k].insertEnd, text));
    }
  }
}
