/** Per-hop accumulators of the MTR statistics: one attempt at a time, grouped
    attempts, merged accumulators, the cap, and the row computed from them.
    RTTs are int64 nanoseconds; float64 arithmetic is modelled over the reals. */
module MtrAccum {
  import opened Text

  /** The largest float64, used as "no best RTT yet". */
  const MAX_FLOAT64: real :=
    179769313486231570814527423731704356798070567525844996598917476803157260780028538760589558632766878171540458953514382464234321326889464182768467546703537516986049910576551282076245490090389328944075868508455133942304583236903222948165808559332123347764797926204144723168738177180919299881250404026184124858368.0

  type Duration = d: int | -0x8000_0000_0000_0000 <= d <= 0x7FFF_FFFF_FFFF_FFFF

  datatype Geo = Geo(source: string, country: string)

  /** One attempt of one hop.  A missing address is the empty string. */
  datatype Attempt = Attempt(success: bool, ip: string, host: string, rtt: Duration, geo: Option<Geo>, mpls: seq<string>)

  /** A printed IP address: not empty and without blanks around it. */
  ghost predicate IsAddress(addr: string) {
    addr != "" && Trim(addr) == addr
  }

  /** The aggregation key: "ip:...", "host:..." or "unknown". */
  datatype Key = IpKey(ip: string) | HostKey(host: string) | UnknownKey

  /** The running statistics of a list of RTTs. */
  datatype Moments = Moments(received: nat, sum: real, sumSq: real, last: real, best: real, worst: real)

  datatype Group = Group(host: string, ip: string, geo: Option<Geo>, count: nat, m: Moments, mpls: set<string>)

  datatype Accum = Accum(ttl: int, key: Key, host: string, ip: string, sent: nat, m: Moments, geo: Option<Geo>,
                         mpls: set<string>)

  /** A displayed row.  The standard deviation is given by its square. */
  datatype HopStat = HopStat(ttl: int, host: string, ip: string, loss: real, snt: nat, received: nat, last: real,
                             avg: real, best: real, wrst: real, variance: real, geo: Option<Geo>, mpls: set<string>)

  function SquareOver(s: real, n: real): real
    requires n != 0.0
  {
    (s * s) / n
  }

  function RttMs(rtt: Duration): real {
    rtt as real / 1000000.0
  }

  function HopKey(ip: string, host: string): Key {
    if Trim(ip) != "" then IpKey(Trim(ip))
    else if Trim(host) != "" then HostKey(Lower(Trim(host)))
    else UnknownKey
  }

  function AttemptKey(a: Attempt): Key {
    HopKey(Trim(a.ip), Trim(a.host))
  }

  function Labels(labels: seq<string>): set<string> {
    set l | l in labels && Trim(l) != "" :: Trim(l)
  }

  const NO_MOMENTS := Moments(0, 0.0, 0.0, 0.0, MAX_FLOAT64, 0.0)

  function AddRtt(m: Moments, ms: real): Moments {
    Moments(m.received + 1, m.sum + ms, m.sumSq + ms * ms, ms,
            if ms > 0.0 && ms < m.best then ms else m.best,
            if ms > m.worst then ms else m.worst)
  }

  function NewGroup(host: string, ip: string): Group {
    Group(host, ip, None, 0, NO_MOMENTS, {})
  }

  function IncludeAttempt(g: Group, a: Attempt): Group {
    g.(count := g.count + 1,
       geo := if g.geo.None? && a.geo.Some? then a.geo else g.geo,
       mpls := g.mpls + Labels(a.mpls),
       m := if a.success then AddRtt(g.m, RttMs(a.rtt)) else g.m)
  }

  function GroupFor(groups: map<Key, Group>, a: Attempt): Group {
    var key := AttemptKey(a);
    if key in groups then groups[key] else NewGroup(Trim(a.host), Trim(a.ip))
  }

  /** Grouping, as a fold over the attempts in order. */
  function Groups(attempts: seq<Attempt>): map<Key, Group> {
    if attempts == [] then map[]
    else
      var a := attempts[|attempts| - 1];
      var before := Groups(attempts[..|attempts| - 1]);
      before[AttemptKey(a) := IncludeAttempt(GroupFor(before, a), a)]
  }

  method GroupAttempts(attempts: seq<Attempt>) returns (groups: map<Key, Group>)
    ensures groups == Groups(attempts)
  {
    hide IncludeAttempt, GroupFor, AttemptKey;
    groups := map[];
    for n := 0 to |attempts|
      invariant groups == Groups(attempts[..n])
    {
      assert attempts[..n + 1][..n] == attempts[..n];
      var key := AttemptKey(attempts[n]);
      var group := GroupFor(groups, attempts[n]);
      groups := groups[key := IncludeAttempt(group, attempts[n])];
    }
    assert attempts[..|attempts|] == attempts;
  }

  function NewAccum(ttl: int, key: Key): Accum {
    Accum(ttl, key, "", "", 0, NO_MOMENTS, None, {})
  }

  /** Moments of a group added to those of an accumulator. */
  function AddGroupMoments(acc: Moments, g: Moments): Moments {
    if g.received == 0 then acc
    else Moments(acc.received + g.received, acc.sum + g.sum, acc.sumSq + g.sumSq, g.last,
                 if g.best > 0.0 && (acc.best == MAX_FLOAT64 || g.best < acc.best) then g.best else acc.best,
                 if g.worst > acc.worst then g.worst else acc.worst)
  }

  function MergeGroup(acc: Accum, g: Group): Accum {
    acc.(ip := if g.ip != "" then g.ip else acc.ip,
         host := if g.host != "" then g.host else acc.host,
         geo := if g.geo.Some? then g.geo else acc.geo,
         sent := acc.sent + g.count,
         m := AddGroupMoments(acc.m, g.m),
         mpls := acc.mpls + g.mpls)
  }

  /** Moments of one accumulator added to those of another. */
  function AddAccumMoments(dst: Moments, src: Moments): Moments {
    if src.received == 0 then dst
    else Moments(dst.received + src.received, dst.sum + src.sum, dst.sumSq + src.sumSq, src.last,
                 if src.best > 0.0 && src.best < dst.best then src.best else dst.best,
                 if src.worst > dst.worst then src.worst else dst.worst)
  }

  function MergeAccum(dst: Accum, src: Accum): Accum {
    dst.(sent := dst.sent + src.sent,
         m := AddAccumMoments(dst.m, src.m),
         geo := if dst.geo.None? && src.geo.Some? then src.geo else dst.geo,
         host := if dst.host == "" && src.host != "" then src.host else dst.host,
         ip := if dst.ip == "" && src.ip != "" then src.ip else dst.ip,
         mpls := dst.mpls + src.mpls)
  }

  /** The part of the capped sum of squares that is not explained by the mean:
      it scales with n - 1, as the sample variance does. */
  function CutSpread(ss: real, nNew: real, nOrig: real): real {
    if nOrig > 1.0 && nNew > 1.0 then ss * (nNew - 1.0) / (nOrig - 1.0) else 0.0
  }

  /** Moments cut down to n values with the same mean and the same spread. */
  function CutMoments(m: Moments, n: nat): Moments
    requires 0 < n < m.received
  {
    var nOrig, nNew := m.received as real, n as real;
    var sumNew := m.sum * (nNew / nOrig);
    var ss0 := m.sumSq - SquareOver(m.sum, nOrig);
    var ss := if ss0 < 0.0 then 0.0 else ss0;
    m.(received := n, sum := sumNew, sumSq := CutSpread(ss, nNew, nOrig) + SquareOver(sumNew, nNew))
  }

  /** Keeps sent within maxPerHop; when received no longer fits, cuts the moments. */
  function Cap(acc: Accum, maxPerHop: int): Accum {
    if maxPerHop <= 0 then acc
    else
      var sent := if acc.sent > maxPerHop then maxPerHop else acc.sent;
      if acc.m.received <= sent || sent == 0 then acc.(sent := sent)
      else acc.(sent := sent, m := CutMoments(acc.m, sent))
  }

  function Mean(m: Moments): real {
    if m.received > 0 then m.sum / m.received as real else 0.0
  }

  /** Sample variance of n values with sum s and sum of squares q. */
  function SampleVariance(n: nat, s: real, q: real): real {
    if n > 1 then
      var v := (q - SquareOver(s, n as real)) / (n as real - 1.0);
      if v > 0.0 then v else 0.0
    else 0.0
  }

  function Variance(m: Moments): real {
    SampleVariance(m.received, m.sum, m.sumSq)
  }

  function BuildStat(acc: Accum): HopStat {
    HopStat(acc.ttl, acc.host, acc.ip,
            if acc.sent > 0 then (acc.sent - acc.m.received) as real / acc.sent as real * 100.0 else 0.0,
            acc.sent, acc.m.received, acc.m.last, Mean(acc.m),
            if acc.m.best == MAX_FLOAT64 then 0.0 else acc.m.best,
            acc.m.worst, Variance(acc.m), acc.geo, acc.mpls)
  }

  // ----- Every accumulator is statistically possible -----

  /** n values with sum s and sum of squares q exist only if n*q >= s*s. */
  ghost predicate Possible(n: nat, s: real, q: real) {
    q >= 0.0 && (n == 0 ==> s == 0.0 && q == 0.0) && n as real * q >= s * s
  }

  ghost predicate MomentsOk(m: Moments) {
    Possible(m.received, m.sum, m.sumSq)
  }

  ghost predicate GroupOk(g: Group) {
    g.m.received <= g.count && MomentsOk(g.m)
  }

  ghost predicate AccumOk(a: Accum) {
    a.m.received <= a.sent && MomentsOk(a.m)
  }

  /** Cauchy-Schwarz for two samples put together. */
  lemma PossibleSum(n1: nat, s1: real, q1: real, n2: nat, s2: real, q2: real)
    requires Possible(n1, s1, q1) && Possible(n2, s2, q2)
    ensures Possible(n1 + n2, s1 + s2, q1 + q2)
  {
    if n1 > 0 && n2 > 0 {
      var a, b := n1 as real, n2 as real;
      CrossTerm(a, s1, q1, b, s2, q2);
      assert (n1 + n2) as real == a + b;
      assert (a + b) * (q1 + q2) == a * q1 + b * q2 + (a * q2 + b * q1);
      assert (s1 + s2) * (s1 + s2) == s1 * s1 + s2 * s2 + 2.0 * (s1 * s2);
    }
  }

  lemma Reorder(a: real, b: real, x: real)
    ensures (a * a) * (b * x) == (a * b) * (a * x)
  {
  }

  lemma CrossTerm(a: real, s1: real, q1: real, b: real, s2: real, q2: real)
    requires a > 0.0 && b > 0.0 && a * q1 >= s1 * s1 && b * q2 >= s2 * s2
    ensures a * q2 + b * q1 >= 2.0 * (s1 * s2)
  {
    SquareOfDifference(a, s2, b, s1);
    ScaleUp(a * a, b * q2, s2 * s2);
    ScaleUp(b * b, a * q1, s1 * s1);
    Reorder(a, b, q2);
    Reorder(b, a, q1);
    var p := a * b;
    assert b * a == p;
    Distribute(p, a * q2, b * q1);
    Distribute(p, s1 * s2, s1 * s2);
    Unscale(p, a * q2 + b * q1, s1 * s2 + s1 * s2);
  }

  lemma Distribute(p: real, x: real, y: real)
    ensures p * (x + y) == p * x + p * y
  {
  }

  lemma SquareOfDifference(a: real, x: real, b: real, y: real)
    ensures 0.0 <= (a * x - b * y) * (a * x - b * y) == (a * a) * (x * x) + (b * b) * (y * y) - 2.0 * ((a * b) * (y * x))
  {
    var u, v := a * x, b * y;
    assert (u - v) * (u - v) == u * u + v * v - 2.0 * (u * v);
    assert u * u == (a * a) * (x * x);
    assert v * v == (b * b) * (y * y);
    assert u * v == (a * b) * (y * x);
  }

  lemma ScaleUp(k: real, x: real, y: real)
    requires k >= 0.0 && x >= y
    ensures k * x >= k * y
  {
  }

  lemma Unscale(k: real, x: real, y: real)
    requires k > 0.0 && k * x >= k * y
    ensures x >= y
  {
    assert x < y ==> k * (y - x) > 0.0;
    assert k * (y - x) == k * y - k * x;
  }

  lemma AddRttKeepsMoments(m: Moments, ms: real)
    requires MomentsOk(m)
    ensures MomentsOk(AddRtt(m, ms))
  {
    assert Possible(1, ms, ms * ms);
    PossibleSum(m.received, m.sum, m.sumSq, 1, ms, ms * ms);
  }

  lemma IncludeAttemptKeepsMoments(g: Group, a: Attempt)
    requires GroupOk(g)
    ensures GroupOk(IncludeAttempt(g, a))
  {
    hide AddRtt, MomentsOk, RttMs;
    AddRttKeepsMoments(g.m, RttMs(a.rtt));
    AddRttCounts(g.m, RttMs(a.rtt));
  }

  lemma AddRttCounts(m: Moments, ms: real)
    ensures AddRtt(m, ms).received == m.received + 1
  {
  }

  ghost predicate AllOk(groups: map<Key, Group>) {
    forall k :: k in groups ==> GroupOk(groups[k])
  }

  lemma {:induction false} GroupsOk(attempts: seq<Attempt>)
    ensures AllOk(Groups(attempts))
  {
    hide GroupOk, IncludeAttempt, GroupFor, AttemptKey;
    if attempts != [] {
      var a := attempts[|attempts| - 1];
      var before := Groups(attempts[..|attempts| - 1]);
      GroupsOk(attempts[..|attempts| - 1]);
      GroupForOk(before, a);
      IncludeAttemptKeepsMoments(GroupFor(before, a), a);
      AllOkUpdate(before, AttemptKey(a), IncludeAttempt(GroupFor(before, a), a));
    }
  }

  lemma GroupForOk(groups: map<Key, Group>, a: Attempt)
    requires AllOk(groups)
    ensures GroupOk(GroupFor(groups, a))
  {
  }

  lemma AllOkUpdate(groups: map<Key, Group>, key: Key, g: Group)
    requires AllOk(groups) && GroupOk(g)
    ensures AllOk(groups[key := g])
  {
  }

  lemma MergesKeepMoments(a: Accum, g: Group, b: Accum)
    requires AccumOk(a) && AccumOk(b) && GroupOk(g)
    ensures AccumOk(MergeGroup(a, g))
    ensures AccumOk(MergeAccum(a, b))
  {
    PossibleSum(a.m.received, a.m.sum, a.m.sumSq, g.m.received, g.m.sum, g.m.sumSq);
    PossibleSum(a.m.received, a.m.sum, a.m.sumSq, b.m.received, b.m.sum, b.m.sumSq);
  }

  /** The clamps in Variance and in CutMoments never fire: over the reals the
      computed spread is already non-negative. */
  lemma VarianceNeedsNoClamp(m: Moments)
    requires MomentsOk(m) && m.received > 0
    ensures m.sumSq - SquareOver(m.sum, m.received as real) >= 0.0
    ensures m.received > 1 ==>
      Variance(m) == (m.sumSq - SquareOver(m.sum, m.received as real)) / (m.received as real - 1.0)
  {
    var n := m.received as real;
    CauchyGap(n, m.sum, m.sumSq);
    var d := m.sumSq - SquareOver(m.sum, n);
    if m.received > 1 {
      RatioNonNegative(d, n - 1.0);
      assert Variance(m) == d / (n - 1.0);
    }
  }

  lemma CauchyGap(n: real, s: real, q: real)
    requires n > 0.0 && n * q >= s * s
    ensures q - SquareOver(s, n) >= 0.0
  {
    var r := SquareOver(s, n);
    assert n * r == s * s;
    Unscale(n, q, r);
  }

  /** What the cap keeps: the budget, the mean, the sample variance when both
      counts exceed one, and the possibility of the moments.  It is the
      identity exactly when the budget is already met. */
  lemma CapKeepsMeanAndVariance(a: Accum, maxPerHop: int)
    requires AccumOk(a) && maxPerHop > 0
    ensures var c := Cap(a, maxPerHop);
      && AccumOk(c)
      && c.sent == (if a.sent > maxPerHop then maxPerHop else a.sent)
      && c.m.received == (if a.m.received > maxPerHop then maxPerHop else a.m.received)
      && (a.m.received > 0 ==> Mean(c.m) == Mean(a.m))
      && (c.m.received > 1 ==> Variance(c.m) == Variance(a.m))
      && (c == a <==> a.sent <= maxPerHop)
  {
    hide MomentsOk, Mean, Variance, CutMoments;
    if a.m.received > maxPerHop {
      CutKeepsMean(a.m, maxPerHop);
      if maxPerHop > 1 {
        CutKeepsVariance(a.m, maxPerHop);
      }
    }
  }

  lemma CutFormulas(m: Moments, n: nat)
    requires MomentsOk(m) && 0 < n < m.received
    ensures var o, k := m.received as real, n as real;
      var ss := m.sumSq - SquareOver(m.sum, o);
      && ss >= 0.0
      && CutMoments(m, n).sum == m.sum * (k / o)
      && CutMoments(m, n).sumSq == CutSpread(ss, k, o) + SquareOver(CutMoments(m, n).sum, k)
  {
    hide CutSpread, SquareOver;
    VarianceNeedsNoClamp(m);
  }

  lemma CutKeepsMean(m: Moments, n: nat)
    requires MomentsOk(m) && 0 < n < m.received
    ensures CutMoments(m, n).received == n
    ensures MomentsOk(CutMoments(m, n))
    ensures Mean(CutMoments(m, n)) == Mean(m)
  {
    hide CutSpread, SquareOver, Possible;
    var o, k := m.received as real, n as real;
    CutFormulas(m, n);
    ScaledSum(m.sum, k, o);
    var ss := m.sumSq - SquareOver(m.sum, o);
    SpreadNonNegative(ss, k, o);
    SumPlusSpread(n, CutMoments(m, n).sum, CutSpread(ss, k, o));
  }

  lemma CutKeepsVariance(m: Moments, n: nat)
    requires MomentsOk(m) && 1 < n < m.received
    ensures Variance(CutMoments(m, n)) == Variance(m)
  {
    hide CutSpread, SquareOver, CutMoments, SampleVariance;
    var o, k := m.received as real, n as real;
    var ss := m.sumSq - SquareOver(m.sum, o);
    VarianceNeedsNoClamp(m);
    CutFormulas(m, n);
    CutKeepsMean(m, n);
    ScaledSpread(ss, k, o);
    SpreadNonNegative(ss, k, o);
    SpreadIsVariance(n, CutMoments(m, n).sum, CutSpread(ss, k, o));
  }

  lemma SpreadIsVariance(n: nat, s: real, part: real)
    requires n > 1 && part >= 0.0
    ensures SampleVariance(n, s, part + SquareOver(s, n as real)) == part / (n as real - 1.0)
  {
    RatioNonNegative(part, n as real - 1.0);
  }

  lemma ScaledSum(sum: real, n: real, o: real)
    requires 0.0 < n && 0.0 < o
    ensures (sum * (n / o)) / n == sum / o
  {
    var m := sum / o;
    assert m * o == sum;
    var k := n / o;
    assert k * o == n;
    assert sum * k == m * n;
  }

  lemma SpreadNonNegative(ss: real, n: real, o: real)
    requires ss >= 0.0
    ensures CutSpread(ss, n, o) >= 0.0
  {
    if n > 1.0 && o > 1.0 {
      ScaleUp(n - 1.0, ss, 0.0);
      RatioNonNegative(ss * (n - 1.0), o - 1.0);
    }
  }

  lemma ScaledSpread(ss: real, n: real, o: real)
    requires ss >= 0.0 && n > 1.0 && o > 1.0
    ensures CutSpread(ss, n, o) / (n - 1.0) == ss / (o - 1.0)
  {
    var f, g := n - 1.0, o - 1.0;
    var c := CutSpread(ss, n, o);
    CancelFactor(ss, f, g);
    assert c == ss * f / g;
    assert c / f == (ss * f / g) / f;
  }

  lemma SumPlusSpread(n: nat, s: real, part: real)
    requires n > 0 && part >= 0.0
    ensures Possible(n, s, part + SquareOver(s, n as real))
  {
    var k := n as real;
    var r := SquareOver(s, k);
    assert s * s >= 0.0;
    RatioNonNegative(s * s, k);
    assert k * r == s * s;
    Distribute(k, part, r);
    ScaleUp(k, part, 0.0);
  }

  lemma RatioNonNegative(x: real, y: real)
    requires x >= 0.0 && y > 0.0
    ensures x / y >= 0.0
  {
  }

  lemma CancelFactor(x: real, f: real, g: real)
    requires f > 0.0 && g > 0.0
    ensures (x * f / g) / f == x / g
  {
    var y := x / g;
    assert y * g == x;
    assert x * f / g == y * f by { assert (y * f) * g == x * f; }
  }
}
