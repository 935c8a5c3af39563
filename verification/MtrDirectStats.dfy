/** The statistics of one TTL computed directly from the list of its attempts,
    and the theorem that the incremental aggregation agrees with them. */
module MtrDirectStats {
  import opened Text
  import opened MtrAccum
  import opened MtrRows

  // ----- The direct definitions -----

  /** The RTTs of the successful attempts, in order. */
  function Rtts(xs: seq<Attempt>): seq<real> {
    if xs == [] then []
    else
      var a := xs[|xs| - 1];
      if a.success then Rtts(xs[..|xs| - 1]) + [RttMs(a.rtt)] else Rtts(xs[..|xs| - 1])
  }

  /** The labels that any of the attempts came with. */
  function AllLabels(xs: seq<Attempt>): set<string> {
    set x, l | x in xs && l in x.mpls && Trim(l) != "" :: Trim(l)
  }

  function Sum(rs: seq<real>): real {
    if rs == [] then 0.0 else Sum(rs[..|rs| - 1]) + rs[|rs| - 1]
  }

  function SumOfSquares(rs: seq<real>): real {
    if rs == [] then 0.0 else SumOfSquares(rs[..|rs| - 1]) + rs[|rs| - 1] * rs[|rs| - 1]
  }

  function LastOf(rs: seq<real>): real {
    if rs == [] then 0.0 else rs[|rs| - 1]
  }

  function Average(rs: seq<real>): real {
    if rs == [] then 0.0 else Sum(rs) / |rs| as real
  }

  /** The summed squared distance from m. */
  function Deviation(rs: seq<real>, m: real): real {
    if rs == [] then 0.0
    else Deviation(rs[..|rs| - 1], m) + (rs[|rs| - 1] - m) * (rs[|rs| - 1] - m)
  }

  function DirectVariance(rs: seq<real>): real {
    if |rs| <= 1 then 0.0 else Deviation(rs, Average(rs)) / (|rs| as real - 1.0)
  }

  /** best is the least positive RTT, or 0 when there is none. */
  ghost predicate IsLeastPositive(best: real, rs: seq<real>) {
    if forall i :: 0 <= i < |rs| ==> rs[i] <= 0.0 then best == 0.0
    else best > 0.0 && best in rs && forall i :: 0 <= i < |rs| && rs[i] > 0.0 ==> best <= rs[i]
  }

  /** worst is the greatest RTT, or 0 when none is positive. */
  ghost predicate IsGreatest(worst: real, rs: seq<real>) {
    worst >= 0.0 && (worst == 0.0 || worst in rs) && forall i :: 0 <= i < |rs| ==> rs[i] <= worst
  }

  // ----- The running statistics of a list -----

  function Measure(rs: seq<real>): Moments {
    if rs == [] then NO_MOMENTS else AddRtt(Measure(rs[..|rs| - 1]), rs[|rs| - 1])
  }

  /** An RTT is an int64 number of nanoseconds, far below the sentinel. */
  ghost predicate BelowSentinel(rs: seq<real>) {
    forall i :: 0 <= i < |rs| ==> rs[i] < MAX_FLOAT64
  }

  lemma {:induction false} RttsBelowSentinel(xs: seq<Attempt>)
    ensures BelowSentinel(Rtts(xs))
  {
    if xs != [] {
      RttsBelowSentinel(xs[..|xs| - 1]);
    }
  }

  lemma {:induction false} MeasureSums(rs: seq<real>)
    ensures Measure(rs).received == |rs|
    ensures Measure(rs).sum == Sum(rs)
    ensures Measure(rs).sumSq == SumOfSquares(rs)
    ensures Measure(rs).last == LastOf(rs)
  {
    if rs != [] {
      MeasureSums(rs[..|rs| - 1]);
    }
  }

  lemma AddRttExtremes(m: Moments, r: real)
    ensures AddRtt(m, r).best == if r > 0.0 && r < m.best then r else m.best
    ensures AddRtt(m, r).worst == if r > m.worst then r else m.worst
  {
  }

  lemma {:induction false} BestIsLeast(rs: seq<real>)
    requires BelowSentinel(rs)
    ensures 0.0 < Measure(rs).best <= MAX_FLOAT64
    ensures IsLeastPositive(if Measure(rs).best == MAX_FLOAT64 then 0.0 else Measure(rs).best, rs)
  {
    hide AddRtt;
    if rs != [] {
      var init := rs[..|rs| - 1];
      BestIsLeast(init);
      AddRttExtremes(Measure(init), rs[|rs| - 1]);
      assert rs == init + [rs[|rs| - 1]];
      var b := Measure(rs).best;
      if b == MAX_FLOAT64 {
        forall i | 0 <= i < |rs| ensures rs[i] <= 0.0 {
          if i < |init| { assert rs[i] == init[i]; }
        }
      } else {
        assert b in rs;
        forall i | 0 <= i < |rs| && rs[i] > 0.0 ensures b <= rs[i] {
          if i < |init| { assert rs[i] == init[i]; }
        }
      }
    }
  }

  lemma {:induction false} WorstIsGreatest(rs: seq<real>)
    ensures IsGreatest(Measure(rs).worst, rs)
  {
    hide AddRtt;
    if rs != [] {
      var init := rs[..|rs| - 1];
      WorstIsGreatest(init);
      AddRttExtremes(Measure(init), rs[|rs| - 1]);
      assert rs == init + [rs[|rs| - 1]];
      forall i | 0 <= i < |rs| ensures rs[i] <= Measure(rs).worst {
        if i < |init| { assert rs[i] == init[i]; }
      }
    }
  }

  /** Moments that some list can have. */
  ghost predicate Bounded(m: Moments) {
    0.0 < m.best <= MAX_FLOAT64 && m.worst >= 0.0 && (m.received == 0 ==> m == NO_MOMENTS)
  }

  lemma AddRttBounded(m: Moments, r: real)
    requires Bounded(m)
    ensures Bounded(AddRtt(m, r))
  {
  }

  lemma {:induction false} MeasureBounded(rs: seq<real>)
    ensures Bounded(Measure(rs))
  {
    if rs != [] {
      hide AddRtt, Bounded;
      MeasureBounded(rs[..|rs| - 1]);
      AddRttBounded(Measure(rs[..|rs| - 1]), rs[|rs| - 1]);
    } else {
      assert Measure(rs) == NO_MOMENTS;
    }
  }

  /** Adding group moments and then one RTT, or the RTT first. */
  lemma AddThenMerge(a: Moments, b: Moments, r: real)
    requires Bounded(a) && Bounded(b) && r < MAX_FLOAT64
    ensures AddGroupMoments(a, AddRtt(b, r)) == AddRtt(AddGroupMoments(a, b), r)
  {
    var sq := r * r;
  }

  lemma {:induction false} MeasureConcat(a: seq<real>, b: seq<real>)
    requires BelowSentinel(b)
    ensures Measure(a + b) == AddGroupMoments(Measure(a), Measure(b))
  {
    if b == [] {
      assert a + b == a;
    } else {
      hide AddRtt, AddGroupMoments, Bounded;
      var init, r := b[..|b| - 1], b[|b| - 1];
      MeasureConcat(a, init);
      assert (a + b)[..|a + b| - 1] == a + init;
      MeasureBounded(a);
      MeasureBounded(init);
      AddThenMerge(Measure(a), Measure(init), r);
    }
  }

  lemma {:induction false} RttsConcat(xs: seq<Attempt>, ys: seq<Attempt>)
    ensures Rtts(xs + ys) == Rtts(xs) + Rtts(ys)
  {
    if ys == [] {
      assert xs + ys == xs;
    } else {
      RttsConcat(xs, ys[..|ys| - 1]);
      assert (xs + ys)[..|xs + ys| - 1] == xs + ys[..|ys| - 1];
    }
  }

  lemma OneMoreLabels(xs: seq<Attempt>, a: Attempt)
    ensures AllLabels(xs + [a]) == AllLabels(xs) + Labels(a.mpls)
  {
    forall l | l in AllLabels(xs + [a]) ensures l in AllLabels(xs) + Labels(a.mpls) {
    }
    forall l | l in AllLabels(xs) ensures l in AllLabels(xs + [a]) {
      var x, k :| x in xs && k in x.mpls && Trim(k) != "" && l == Trim(k);
      assert x in xs + [a];
    }
    forall l | l in Labels(a.mpls) ensures l in AllLabels(xs + [a]) {
      assert a in xs + [a];
    }
  }

  // ----- The variance computed from the moments is the direct one -----

  lemma {:induction false} DeviationFromMoments(rs: seq<real>, m: real)
    ensures Deviation(rs, m) == FromMoments(|rs| as real, Sum(rs), SumOfSquares(rs), m)
    ensures Deviation(rs, m) >= 0.0
  {
    hide FromMoments;
    if rs == [] {
      NothingDeviates(m);
    } else {
      var init, r := rs[..|rs| - 1], rs[|rs| - 1];
      DeviationFromMoments(init, m);
      DeviationStep(|init| as real, Sum(init), SumOfSquares(init), m, r);
      assert Deviation(rs, m) == Deviation(init, m) + (r - m) * (r - m);
      assert Sum(rs) == Sum(init) + r && SumOfSquares(rs) == SumOfSquares(init) + r * r;
      assert |rs| as real == |init| as real + 1.0;
    }
  }

  lemma NothingDeviates(m: real)
    ensures FromMoments(0.0, 0.0, 0.0, m) == 0.0
  {
  }

  function FromMoments(n: real, s: real, q: real, m: real): real {
    q - 2.0 * m * s + n * (m * m)
  }

  lemma DeviationStep(n: real, s: real, q: real, m: real, r: real)
    ensures FromMoments(n, s, q, m) + (r - m) * (r - m) == FromMoments(n + 1.0, s + r, q + r * r, m)
    ensures (r - m) * (r - m) >= 0.0
  {
    assert (r - m) * (r - m) == r * r - 2.0 * m * r + m * m;
    assert 2.0 * m * (s + r) == 2.0 * m * s + 2.0 * m * r;
    assert (n + 1.0) * (m * m) == n * (m * m) + m * m;
  }

  lemma MomentsGiveVariance(rs: seq<real>)
    ensures SampleVariance(|rs|, Sum(rs), SumOfSquares(rs)) == DirectVariance(rs)
  {
    if |rs| > 1 {
      var n, s, q := |rs| as real, Sum(rs), SumOfSquares(rs);
      var m := Average(rs);
      DeviationFromMoments(rs, m);
      MeanSquare(s, n, q, m);
      RatioNonNegative(Deviation(rs, m), n - 1.0);
    }
  }

  lemma MeanSquare(s: real, n: real, q: real, m: real)
    requires n > 0.0 && m == s / n
    ensures FromMoments(n, s, q, m) == q - SquareOver(s, n)
  {
    var r := SquareOver(s, n);
    assert n * m == s;
    assert n * (m * m) == s * m by { assert n * (m * m) == (n * m) * m; }
    assert n * r == s * s;
    assert n * (s * m) == s * s by { assert n * (s * m) == s * (n * m); }
    CancelLeft(n, r, s * m);
    assert 2.0 * m * s == s * m + s * m;
  }

  lemma CancelLeft(k: real, x: real, y: real)
    requires k > 0.0 && k * x == k * y
    ensures x == y
  {
    assert k * (x - y) == 0.0;
  }

  // ----- What a group and an accumulator have measured -----

  ghost predicate GroupMeasures(g: Group, n: nat, rs: seq<real>) {
    g.count == n && g.m == Measure(rs)
  }

  ghost predicate AccumMeasures(a: Accum, n: nat, rs: seq<real>) {
    a.sent == n && a.m == Measure(rs)
  }

  lemma IncludeMeasures(g: Group, n: nat, rs: seq<real>, a: Attempt)
    requires GroupMeasures(g, n, rs)
    ensures GroupMeasures(IncludeAttempt(g, a), n + 1, if a.success then rs + [RttMs(a.rtt)] else rs)
  {
    hide AddRtt, RttMs;
    if a.success {
      var more := rs + [RttMs(a.rtt)];
      assert more[..|more| - 1] == rs;
    }
  }

  lemma MergeGroupMeasures(acc: Accum, n: nat, rs: seq<real>, g: Group, k: nat, ts: seq<real>)
    requires AccumMeasures(acc, n, rs) && GroupMeasures(g, k, ts) && BelowSentinel(ts)
    ensures AccumMeasures(MergeGroup(acc, g), n + k, rs + ts)
  {
    hide AddGroupMoments;
    MeasureConcat(rs, ts);
  }

  lemma MergeSilentAccum(acc: Accum, n: nat, rs: seq<real>, unk: Accum, k: nat)
    requires AccumMeasures(acc, n, rs) && AccumMeasures(unk, k, [])
    ensures AccumMeasures(MergeAccum(acc, unk), n + k, rs)
  {
  }

  // ----- One responding address -----

  /** Answered by addr, or silent: no address, no host, no success. */
  ghost predicate FromOrSilent(a: Attempt, addr: string) {
    if a.ip == addr then true else a.ip == "" && a.host == "" && !a.success
  }

  ghost predicate OnlyFrom(xs: seq<Attempt>, addr: string) {
    forall i :: 0 <= i < |xs| ==> FromOrSilent(xs[i], addr)
  }

  function CountFrom(xs: seq<Attempt>, addr: string): (n: nat)
    ensures n <= |xs|
  {
    if xs == [] then 0
    else CountFrom(xs[..|xs| - 1], addr) + if xs[|xs| - 1].ip == addr then 1 else 0
  }

  lemma KeyOfAttempt(a: Attempt, addr: string)
    requires IsAddress(addr) && FromOrSilent(a, addr)
    ensures AttemptKey(a) == if a.ip == addr then IpKey(addr) else UnknownKey
    ensures Trim(a.ip) == if a.ip == addr then addr else ""
  {
  }

  /** The groups of one batch: at most the address and the silent attempts. */
  ghost predicate BatchGroups(groups: map<Key, Group>, addr: string, answered: nat, silent: nat, rs: seq<real>) {
    && (forall k :: k in groups ==> k == IpKey(addr) || k == UnknownKey)
    && (IpKey(addr) in groups <==> answered > 0)
    && (UnknownKey in groups <==> silent > 0)
    && (answered == 0 ==> rs == [])
    && (answered > 0 ==> GroupMeasures(groups[IpKey(addr)], answered, rs) && groups[IpKey(addr)].ip == addr)
    && (silent > 0 ==> GroupMeasures(groups[UnknownKey], silent, []) && groups[UnknownKey].ip == "")
  }

  lemma {:induction false} GroupsOfBatch(xs: seq<Attempt>, addr: string)
    requires IsAddress(addr) && OnlyFrom(xs, addr)
    ensures BatchGroups(Groups(xs), addr, CountFrom(xs, addr), |xs| - CountFrom(xs, addr), Rtts(xs))
  {
    hide IncludeAttempt, GroupFor, AttemptKey, IsAddress, BatchGroups, RttMs;
    if xs == [] {
      NoGroups(addr);
    } else {
      var init, a := xs[..|xs| - 1], xs[|xs| - 1];
      GroupsOfBatch(init, addr);
      var before, n := Groups(init), CountFrom(init, addr);
      BatchStep(before, addr, n, |init| - n, Rtts(init), a);
      var after := before[AttemptKey(a) := IncludeAttempt(GroupFor(before, a), a)];
      assert Groups(xs) == after;
      assert FromOrSilent(a, addr);
      assert BatchGroups(after, addr, CountFrom(xs, addr), |xs| - CountFrom(xs, addr), Rtts(xs));
    }
  }

  lemma NoGroups(addr: string)
    ensures BatchGroups(map[], addr, 0, 0, [])
  {
  }

  lemma BatchStep(before: map<Key, Group>, addr: string, answered: nat, silent: nat, rs: seq<real>, a: Attempt)
    requires IsAddress(addr) && FromOrSilent(a, addr) && BatchGroups(before, addr, answered, silent, rs)
    ensures var after := before[AttemptKey(a) := IncludeAttempt(GroupFor(before, a), a)];
      if a.ip == addr
      then BatchGroups(after, addr, answered + 1, silent, if a.success then rs + [RttMs(a.rtt)] else rs)
      else BatchGroups(after, addr, answered, silent + 1, rs)
  {
    hide IncludeAttempt, GroupFor, AttemptKey, IsAddress, RttMs;
    KeyOfAttempt(a, addr);
    var g := GroupFor(before, a);
    IncludeKeepsIp(g, a);
    if a.ip == addr {
      GroupForMeasures(before, a, IpKey(addr), answered, rs);
      IncludeMeasures(g, answered, rs, a);
      PutAnswer(before, addr, answered, silent, rs, IncludeAttempt(g, a), if a.success then rs + [RttMs(a.rtt)] else rs);
    } else {
      GroupForMeasures(before, a, UnknownKey, silent, []);
      IncludeMeasures(g, silent, [], a);
      PutSilence(before, addr, answered, silent, rs, IncludeAttempt(g, a));
    }
  }

  lemma PutAnswer(before: map<Key, Group>, addr: string, answered: nat, silent: nat, rs: seq<real>, g: Group, more: seq<real>)
    requires BatchGroups(before, addr, answered, silent, rs)
    requires GroupMeasures(g, answered + 1, more) && g.ip == addr
    ensures BatchGroups(before[IpKey(addr) := g], addr, answered + 1, silent, more)
  {
    hide GroupMeasures;
  }

  lemma PutSilence(before: map<Key, Group>, addr: string, answered: nat, silent: nat, rs: seq<real>, g: Group)
    requires BatchGroups(before, addr, answered, silent, rs)
    requires GroupMeasures(g, silent + 1, []) && g.ip == ""
    ensures BatchGroups(before[UnknownKey := g], addr, answered, silent + 1, rs)
  {
    hide GroupMeasures;
  }

  lemma GroupForMeasures(before: map<Key, Group>, a: Attempt, key: Key, n: nat, rs: seq<real>)
    requires AttemptKey(a) == key && (key in before <==> n > 0) && (n == 0 ==> rs == [])
    requires n > 0 ==> GroupMeasures(before[key], n, rs)
    ensures GroupMeasures(GroupFor(before, a), n, rs)
    ensures GroupFor(before, a).ip == if n > 0 then before[key].ip else Trim(a.ip)
  {
  }

  lemma IncludeKeepsIp(g: Group, a: Attempt)
    ensures IncludeAttempt(g, a).ip == g.ip
  {
  }

  /** The rows after n attempts with answers rs, once addr has answered or not. */
  ghost predicate Tracks(rows: Rows, ttl: int, addr: string, heard: bool, n: nat, rs: seq<real>) {
    if heard then
      && IpKey(addr) in rows
      && (forall k :: k in rows ==> k == IpKey(addr))
      && AccumMeasures(rows[IpKey(addr)], n, rs)
      && rows[IpKey(addr)].ip == addr && rows[IpKey(addr)].ttl == ttl
    else
      && rs == []
      && (forall k :: k in rows ==> k == UnknownKey)
      && (UnknownKey in rows <==> n > 0)
      && (n > 0 ==> AccumMeasures(rows[UnknownKey], n, []) && rows[UnknownKey].ip == "")
  }

  lemma MergeGroupKeepsName(acc: Accum, g: Group)
    ensures MergeGroup(acc, g).ttl == acc.ttl
    ensures MergeGroup(acc, g).ip == if g.ip != "" then g.ip else acc.ip
  {
  }

  lemma MergeAccumKeepsName(dst: Accum, src: Accum)
    ensures MergeAccum(dst, src).ttl == dst.ttl
    ensures dst.ip != "" ==> MergeAccum(dst, src).ip == dst.ip
  {
  }

  lemma KnownRow(rows: Rows, ttl: int, addr: string, heard: bool, n: nat, rs: seq<real>,
                 groups: map<Key, Group>, answered: nat, silent: nat, ts: seq<real>)
    requires IsAddress(addr) && Tracks(rows, ttl, addr, heard, n, rs)
    requires BatchGroups(groups, addr, answered, silent, ts) && BelowSentinel(ts)
    requires heard || answered > 0
    ensures var merged := MergeGroups(rows, ttl, groups);
      && IpKey(addr) in merged
      && AccumMeasures(merged[IpKey(addr)], (if heard then n else 0) + answered, rs + ts)
      && merged[IpKey(addr)].ip == addr && merged[IpKey(addr)].ttl == ttl
  {
    var key := IpKey(addr);
    var row := RowFor(rows, ttl, key);
    var m := if heard then n else 0;
    assert AccumMeasures(row, m, rs);
    if answered > 0 {
      MergeGroupMeasures(row, m, rs, groups[key], answered, ts);
      MergeGroupKeepsName(row, groups[key]);
    } else {
      assert rs + ts == rs;
    }
  }

  lemma SilentRow(rows: Rows, ttl: int, addr: string, heard: bool, n: nat, rs: seq<real>,
                  groups: map<Key, Group>, answered: nat, silent: nat, ts: seq<real>)
    requires IsAddress(addr) && Tracks(rows, ttl, addr, heard, n, rs)
    requires BatchGroups(groups, addr, answered, silent, ts)
    ensures var merged := MergeGroups(rows, ttl, groups);
      var m := (if heard then 0 else n) + silent;
      && (UnknownKey in merged <==> m > 0)
      && (m > 0 ==> AccumMeasures(merged[UnknownKey], m, []) && merged[UnknownKey].ip == "")
  {
    var row := RowFor(rows, ttl, UnknownKey);
    if silent > 0 {
      var m := if heard then 0 else n;
      assert AccumMeasures(row, m, []) && row.ip == "";
      MergeGroupMeasures(row, m, [], groups[UnknownKey], silent, []);
      var none: seq<real> := [];
      assert none + none == none;
      MergeGroupKeepsName(row, groups[UnknownKey]);
    }
  }

  lemma TracksBatch(rows: Rows, ttl: int, addr: string, heard: bool, n: nat, rs: seq<real>, xs: seq<Attempt>)
    requires IsAddress(addr) && OnlyFrom(xs, addr) && Tracks(rows, ttl, addr, heard, n, rs)
    ensures Tracks(UpdateRows(rows, ttl, xs), ttl, addr, heard || CountFrom(xs, addr) > 0, n + |xs|, rs + Rtts(xs))
  {
    hide Tracks, BatchGroups, Groups, IsAddress, OnlyFrom, BelowSentinel, MergeGroups, MergeUnknown;
    if xs == [] {
      assert rs + Rtts(xs) == rs;
      return;
    }
    var answered, silent, ts := CountFrom(xs, addr), |xs| - CountFrom(xs, addr), Rtts(xs);
    GroupsOfBatch(xs, addr);
    RttsBelowSentinel(xs);
    TracksGroups(rows, ttl, addr, heard, n, rs, Groups(xs), answered, silent, ts);
  }

  lemma TracksGroups(rows: Rows, ttl: int, addr: string, heard: bool, n: nat, rs: seq<real>,
                     groups: map<Key, Group>, answered: nat, silent: nat, ts: seq<real>)
    requires IsAddress(addr) && Tracks(rows, ttl, addr, heard, n, rs)
    requires BatchGroups(groups, addr, answered, silent, ts) && BelowSentinel(ts) && answered + silent > 0
    ensures Tracks(MergeUnknown(MergeGroups(rows, ttl, groups)), ttl, addr, heard || answered > 0,
                   n + answered + silent, rs + ts)
  {
    hide GroupMeasures, AccumMeasures, MergeGroup, MergeAccum, IsAddress, BelowSentinel;
    var merged := MergeGroups(rows, ttl, groups);
    var known, unknown := (if heard then n else 0) + answered, (if heard then 0 else n) + silent;
    SilentRow(rows, ttl, addr, heard, n, rs, groups, answered, silent, ts);
    if heard || answered > 0 {
      KnownRow(rows, ttl, addr, heard, n, rs, groups, answered, silent, ts);
      TracksMerged(merged, ttl, addr, known, unknown, rs + ts);
    } else {
      assert Known(merged) == {};
      assert rs + ts == [];
    }
  }

  lemma TracksMerged(merged: Rows, ttl: int, addr: string, known: nat, unknown: nat, rs: seq<real>)
    requires IsAddress(addr)
    requires forall k :: k in merged ==> k == IpKey(addr) || k == UnknownKey
    requires IpKey(addr) in merged && (UnknownKey in merged <==> unknown > 0)
    requires AccumMeasures(merged[IpKey(addr)], known, rs)
    requires merged[IpKey(addr)].ip == addr && merged[IpKey(addr)].ttl == ttl
    requires unknown > 0 ==> AccumMeasures(merged[UnknownKey], unknown, [])
    ensures Tracks(MergeUnknown(merged), ttl, addr, true, known + unknown, rs)
  {
    assert Known(merged) == {IpKey(addr)};
    if unknown > 0 {
      assert TheKnown(merged) == IpKey(addr);
      MergeSilentAccum(merged[IpKey(addr)], known, rs, merged[UnknownKey], unknown);
      MergeAccumKeepsName(merged[IpKey(addr)], merged[UnknownKey]);
    }
  }

  /** The rows of a TTL after a sequence of updates. */
  ghost function Feed(ttl: int, batches: seq<seq<Attempt>>): Rows {
    if batches == [] then map[]
    else UpdateRows(Feed(ttl, batches[..|batches| - 1]), ttl, batches[|batches| - 1])
  }

  function Flatten(batches: seq<seq<Attempt>>): seq<Attempt> {
    if batches == [] then [] else Flatten(batches[..|batches| - 1]) + batches[|batches| - 1]
  }

  lemma {:induction false} CountConcat(xs: seq<Attempt>, ys: seq<Attempt>, addr: string)
    ensures CountFrom(xs + ys, addr) == CountFrom(xs, addr) + CountFrom(ys, addr)
  {
    if ys == [] {
      assert xs + ys == xs;
    } else {
      CountConcat(xs, ys[..|ys| - 1], addr);
      assert (xs + ys)[..|xs + ys| - 1] == xs + ys[..|ys| - 1];
    }
  }

  lemma {:induction false} FeedTracks(ttl: int, batches: seq<seq<Attempt>>, addr: string)
    requires IsAddress(addr) && OnlyFrom(Flatten(batches), addr)
    ensures var xs := Flatten(batches);
      Tracks(Feed(ttl, batches), ttl, addr, CountFrom(xs, addr) > 0, |xs|, Rtts(xs))
  {
    hide Tracks, IsAddress, UpdateRows, FromOrSilent;
    if batches == [] {
      TracksNothing(ttl, addr);
    } else {
      var init, batch := batches[..|batches| - 1], batches[|batches| - 1];
      var xs := Flatten(init);
      var all := Flatten(batches);
      assert all == xs + batch;
      assert OnlyFrom(xs, addr) by {
        forall i | 0 <= i < |xs| ensures FromOrSilent(xs[i], addr) { assert all[i] == xs[i]; }
      }
      assert OnlyFrom(batch, addr) by {
        forall i | 0 <= i < |batch| ensures FromOrSilent(batch[i], addr) { assert all[|xs| + i] == batch[i]; }
      }
      FeedTracks(ttl, init, addr);
      TracksBatch(Feed(ttl, init), ttl, addr, CountFrom(xs, addr) > 0, |xs|, Rtts(xs), batch);
      CountConcat(xs, batch, addr);
      RttsConcat(xs, batch);
    }
  }

  lemma TracksNothing(ttl: int, addr: string)
    ensures Tracks(map[], ttl, addr, false, 0, [])
  {
  }

  /** The statement about a displayed row: it is what the whole list of
      attempts says, computed without any running state. */
  ghost predicate RowIsDirect(row: HopStat, ttl: int, addr: string, xs: seq<Attempt>) {
    var rs := Rtts(xs);
    && row.ttl == ttl && row.ip == addr
    && row.snt == |xs| && row.received == |rs|
    && row.last == LastOf(rs)
    && row.avg == Average(rs)
    && IsLeastPositive(row.best, rs)
    && IsGreatest(row.wrst, rs)
    && row.variance == DirectVariance(rs)
    && row.loss == (if xs == [] then 0.0 else (|xs| - |rs|) as real / |xs| as real * 100.0)
  }

  /** Whatever the batches and whatever order the maps are visited in: a TTL
      answered by one address has exactly one row, and it is the direct one. */
  lemma SingleResponder(ttl: int, batches: seq<seq<Attempt>>, addr: string)
    requires IsAddress(addr) && OnlyFrom(Flatten(batches), addr)
    requires CountFrom(Flatten(batches), addr) > 0
    ensures Feed(ttl, batches).Keys == {IpKey(addr)}
    ensures RowIsDirect(BuildStat(Feed(ttl, batches)[IpKey(addr)]), ttl, addr, Flatten(batches))
  {
    FeedTracks(ttl, batches, addr);
    assert Feed(ttl, batches).Keys == {IpKey(addr)};
    RowOfMeasures(Feed(ttl, batches)[IpKey(addr)], ttl, addr, Flatten(batches));
  }

  /** The aggregate after a sequence of updates, each with the attempts of every TTL. */
  ghost function UpdateAll(calls: seq<seq<seq<Attempt>>>): View {
    if calls == [] then map[] else Update(UpdateAll(calls[..|calls| - 1]), calls[|calls| - 1])
  }

  /** What those updates bring for one TTL. */
  function BatchesAt(calls: seq<seq<seq<Attempt>>>, ttl: int): seq<seq<Attempt>> {
    if calls == [] then [] else BatchesAt(calls[..|calls| - 1], ttl) + [AttemptsAt(calls[|calls| - 1], ttl)]
  }

  /** The rows of one TTL depend on what was brought for it, and on nothing else. */
  lemma {:induction false} UpdatesFeed(calls: seq<seq<seq<Attempt>>>, ttl: int)
    ensures RowsAt(UpdateAll(calls), ttl) == Feed(ttl, BatchesAt(calls, ttl))
  {
    hide UpdateRows;
    if calls != [] {
      var init, last := calls[..|calls| - 1], calls[|calls| - 1];
      UpdatesFeed(init, ttl);
      UpdateRowsNothing(RowsAt(UpdateAll(init), ttl), ttl);
      var batches := BatchesAt(calls, ttl);
      assert batches[..|batches| - 1] == BatchesAt(init, ttl);
    }
  }

  /** Whatever sequence of updates the aggregate went through, and whatever other
      TTLs saw: a TTL answered by one address shows one row, the direct one. */
  lemma SingleResponderOfUpdates(calls: seq<seq<seq<Attempt>>>, ttl: int, addr: string)
    requires IsAddress(addr) && OnlyFrom(Flatten(BatchesAt(calls, ttl)), addr)
    requires CountFrom(Flatten(BatchesAt(calls, ttl)), addr) > 0
    ensures var rows := RowsAt(UpdateAll(calls), ttl);
      && rows.Keys == {IpKey(addr)}
      && RowIsDirect(BuildStat(rows[IpKey(addr)]), ttl, addr, Flatten(BatchesAt(calls, ttl)))
  {
    hide RowIsDirect, IsAddress, OnlyFrom;
    UpdatesFeed(calls, ttl);
    SingleResponder(ttl, BatchesAt(calls, ttl), addr);
  }

  lemma AverageIsMean(rs: seq<real>)
    ensures Mean(Measure(rs)) == Average(rs)
  {
    MeasureSums(rs);
  }

  lemma RowOfMeasures(acc: Accum, ttl: int, addr: string, xs: seq<Attempt>)
    requires AccumMeasures(acc, |xs|, Rtts(xs)) && acc.ttl == ttl && acc.ip == addr
    ensures RowIsDirect(BuildStat(acc), ttl, addr, xs)
  {
    hide Measure, Rtts, Average, DirectVariance;
    var rs := Rtts(xs);
    RttsBelowSentinel(xs);
    MeasureSums(rs);
    assert Mean(acc.m) == Average(rs) by { AverageIsMean(rs); }
    BestIsLeast(rs);
    WorstIsGreatest(rs);
    MomentsGiveVariance(rs);
  }
}
