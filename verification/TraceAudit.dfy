/** The classic tracers' result: which attempts of a TTL are kept, late metadata
    for a kept hop, and the default for the number of attempts. */
module TraceAudit {
  import opened Text
  import opened MtrAccum

  /** attempt is the index of the attempt the hop came from. */
  datatype Hop = Hop(ttl: int, success: bool, addr: string, rtt: int, host: string, geo: Option<Geo>, lang: string,
                     mpls: seq<string>, attempt: int)

  datatype Result = Result(hops: seq<seq<Hop>>, tailDone: seq<bool>)

  datatype Added = Added(r: Result, ok: bool, idx: int)

  function Empty(maxHops: nat): Result {
    Result(seq(maxHops, i => []), seq(maxHops, i => false))
  }

  predicate Holds(r: Result, ttl: int) {
    1 <= ttl <= |r.hops| && |r.tailDone| >= |r.hops|
  }

  predicate IsValidHop(h: Hop) {
    h.success && h.addr != ""
  }

  predicate HasValid(bucket: seq<Hop>) {
    exists j :: 0 <= j < |bucket| && IsValidHop(bucket[j])
  }

  /** The first n - 1 indices are kept unseen; for the n-th place an attempt must
      be valid, follow a valid one, or be the last. */
  predicate Passes(bucket: seq<Hop>, tailDone: bool, hop: Hop, i: int, n: int, m: int) {
    i < n - 1 || (|bucket| < n && !tailDone && (HasValid(bucket) || IsValidHop(hop) || i >= m - 1))
  }

  function Add(r: Result, hop: Hop, i: int, n: int, m: int): Added
    requires Holds(r, hop.ttl)
  {
    var k := hop.ttl - 1;
    if !Passes(r.hops[k], r.tailDone[k], hop, i, n, m) then Added(r, false, -1)
    else
      Added(Result(r.hops[k := r.hops[k] + [hop]], if i < n - 1 then r.tailDone else r.tailDone[k := true]), true, |r.hops[k]|)
  }

  function Updated(h: Hop, u: Hop): Hop {
    h.(host := if u.host != "" then u.host else h.host,
       geo := if u.geo.Some? then u.geo else h.geo,
       lang := if u.lang != "" then u.lang else h.lang)
  }

  function UpdateHop(r: Result, ttl: int, idx: int, u: Hop): Result {
    var k := ttl - 1;
    if k < 0 || k >= |r.hops| || idx < 0 || idx >= |r.hops[k]| then r
    else r.(hops := r.hops[k := r.hops[k][idx := Updated(r.hops[k][idx], u)]])
  }

  function Reduce(r: Result, final: int): Result {
    if 0 < final < |r.hops| then r.(hops := r.hops[..final]) else r
  }

  /** The number of attempts per TTL, with its environment override. */
  function DeriveMaxAttempts(maxAttempts: int, envMaxAttempts: int, n: int): int {
    var m := if maxAttempts <= 0 && envMaxAttempts > 0 then envMaxAttempts else maxAttempts;
    if m > 0 && m >= n then m
    else if n <= 2 || n >= 10 then n
    else if n <= 6 then n + 3
    else 10
  }

  /** What is given counts if it suffices, the environment's only when the caller
      gives none; otherwise up to ten places have the attempts of this table, and
      more places as many as there are. */
  lemma AttemptsByTable(maxAttempts: int, env: int, n: int)
    ensures var given := if maxAttempts > 0 || env <= 0 then maxAttempts else env;
      DeriveMaxAttempts(maxAttempts, env, n) ==
        if given > 0 && given >= n then given
        else if 1 <= n <= 10 then [1, 2, 6, 7, 8, 9, 10, 10, 10, 10][n - 1]
        else n
  {
  }

  /** There are never fewer attempts than places, a given number that suffices
      is kept, and deriving twice changes nothing. */
  lemma EnoughAttempts(maxAttempts: int, env: int, n: int)
    ensures var m := DeriveMaxAttempts(maxAttempts, env, n);
      && m >= n
      && (maxAttempts > 0 && maxAttempts >= n ==> m == maxAttempts)
      && DeriveMaxAttempts(m, env, n) >= n && (n >= 1 ==> DeriveMaxAttempts(m, env, n) == m)
  {
  }

  // ----- The result object -----

  class TraceResult {
    var hops: seq<seq<Hop>>
    var tailDone: seq<bool>

    function Val(): Result
      reads this
    {
      Result(hops, tailDone)
    }

    constructor (maxHops: nat)
      ensures Val() == Empty(maxHops)
    {
      hops, tailDone := seq(maxHops, i => []), seq(maxHops, i => false);
    }

    method AddHop(hop: Hop, i: int, n: int, m: int) returns (ok: bool, idx: int)
      requires Holds(Val(), hop.ttl)
      modifies this
      ensures Added(Val(), ok, idx) == Add(old(Val()), hop, i, n, m)
    {
      var k := hop.ttl - 1;
      var bucket := hops[k];
      if i < n - 1 {
        hops := hops[k := bucket + [hop]];
        return true, |hops[k]| - 1;
      }
      if |bucket| >= n { return false, -1; }
      if tailDone[k] { return false, -1; }
      var hasValid := false;
      var j := 0;
      while j < |bucket| && !hasValid
        invariant 0 <= j <= |bucket|
        invariant hasValid <==> exists t :: 0 <= t < j && IsValidHop(bucket[t])
      {
        hasValid := IsValidHop(bucket[j]);
        j := j + 1;
      }
      assert hasValid == HasValid(bucket);
      if hasValid || IsValidHop(hop) || i >= m - 1 {
        hops := hops[k := bucket + [hop]];
        tailDone := tailDone[k := true];
        return true, |hops[k]| - 1;
      }
      return false, -1;
    }

    method Update(ttl: int, idx: int, u: Hop)
      modifies this
      ensures Val() == UpdateHop(old(Val()), ttl, idx, u)
    {
      var k := ttl - 1;
      if k < 0 || k >= |hops| { return; }
      if idx < 0 || idx >= |hops[k]| { return; }
      var h := hops[k][idx];
      if u.host != "" { h := h.(host := u.host); }
      if u.geo.Some? { h := h.(geo := u.geo); }
      if u.lang != "" { h := h.(lang := u.lang); }
      hops := hops[k := hops[k][idx := h]];
    }

    method ReduceTo(final: int)
      modifies this
      ensures Val() == Reduce(old(Val()), final)
    {
      if final > 0 && final < |hops| {
        hops := hops[..final];
      }
    }
  }

  // ----- How full a bucket gets -----

  /** How many of the attempts have an index below n - 1. */
  function Low(bucket: seq<Hop>, n: int): nat {
    if bucket == [] then 0
    else Low(bucket[..|bucket| - 1], n) + if bucket[|bucket| - 1].attempt < n - 1 then 1 else 0
  }

  /** No attempt is there twice; beyond the first n - 1 indices there is one
      exactly when the tail is decided. */
  ghost predicate BucketOk(bucket: seq<Hop>, tailDone: bool, n: int) {
    && (forall j :: 0 <= j < |bucket| ==> bucket[j].attempt >= 0)
    && Distinct(bucket)
    && |bucket| == Low(bucket, n) + (if tailDone then 1 else 0)
    && (tailDone ==> n >= 1)
  }

  /** The indices of the attempts in a bucket, and the first n numbers. */
  function Indices(bucket: seq<Hop>): set<int> {
    if bucket == [] then {} else Indices(bucket[..|bucket| - 1]) + {bucket[|bucket| - 1].attempt}
  }

  function UpTo(n: int): set<int>
    decreases if n < 0 then 0 else n
  {
    if n <= 0 then {} else UpTo(n - 1) + {n - 1}
  }

  ghost predicate Distinct(bucket: seq<Hop>) {
    forall j, k :: 0 <= j < k < |bucket| ==> bucket[j].attempt != bucket[k].attempt
  }

  lemma {:induction false} InUpTo(n: int, x: int)
    ensures x in UpTo(n) <==> 0 <= x < n
    decreases if n < 0 then 0 else n
  {
    if n > 0 {
      InUpTo(n - 1, x);
    }
  }

  lemma {:induction false} SizeOfUpTo(n: int)
    ensures |UpTo(n)| == if n < 0 then 0 else n
    decreases if n < 0 then 0 else n
  {
    if n > 0 {
      SizeOfUpTo(n - 1);
      InUpTo(n - 1, n - 1);
    }
  }

  lemma {:induction false} InIndices(bucket: seq<Hop>, x: int)
    ensures x in Indices(bucket) <==> exists j :: 0 <= j < |bucket| && bucket[j].attempt == x
  {
    if bucket != [] {
      var init := bucket[..|bucket| - 1];
      InIndices(init, x);
      if x in Indices(init) {
        var j :| 0 <= j < |init| && init[j].attempt == x;
        assert bucket[j].attempt == x;
      }
    }
  }

  /** Distinct indices: as many low ones as there are numbers below n - 1 in use. */
  lemma {:induction false} LowCounts(bucket: seq<Hop>, n: int)
    requires Distinct(bucket) && forall j :: 0 <= j < |bucket| ==> bucket[j].attempt >= 0
    ensures Low(bucket, n) == |Indices(bucket) * UpTo(n - 1)|
    ensures |bucket| == |Indices(bucket)|
  {
    if bucket == [] {
      assert Indices(bucket) * UpTo(n - 1) == {};
    } else {
      var init, x := bucket[..|bucket| - 1], bucket[|bucket| - 1].attempt;
      LowCounts(init, n);
      InIndices(init, x);
      InUpTo(n - 1, x);
      if x < n - 1 {
        assert Indices(bucket) * UpTo(n - 1) == Indices(init) * UpTo(n - 1) + {x};
      } else {
        assert Indices(bucket) * UpTo(n - 1) == Indices(init) * UpTo(n - 1);
      }
    }
  }

  lemma LowIsBounded(bucket: seq<Hop>, n: int)
    requires Distinct(bucket) && forall j :: 0 <= j < |bucket| ==> bucket[j].attempt >= 0
    ensures Low(bucket, n) <= if n >= 1 then n - 1 else 0
  {
    LowCounts(bucket, n);
    SizeOfUpTo(n - 1);
    Subset(Indices(bucket) * UpTo(n - 1), UpTo(n - 1));
  }

  lemma Subset(a: set<int>, b: set<int>)
    requires a <= b
    ensures |a| <= |b|
    ensures |a| == |b| ==> a == b
  {
    assert |b| == |a| + |b - a|;
  }

  /** A bucket never holds more than n hops. */
  lemma BucketIsBounded(bucket: seq<Hop>, tailDone: bool, n: int)
    requires BucketOk(bucket, tailDone, n)
    ensures |bucket| <= if n >= 1 then n else 0
  {
    LowIsBounded(bucket, n);
  }

  /** One more attempt that is not in the bucket yet. */
  lemma AddKeepsBucket(bucket: seq<Hop>, tailDone: bool, hop: Hop, i: int, n: int, m: int)
    requires BucketOk(bucket, tailDone, n) && i >= 0 && hop.attempt == i && Passes(bucket, tailDone, hop, i, n, m)
    requires forall j :: 0 <= j < |bucket| ==> bucket[j].attempt != i
    ensures BucketOk(bucket + [hop], tailDone || i >= n - 1, n)
  {
    var more := bucket + [hop];
    assert more[..|more| - 1] == bucket;
  }

  // ----- Any order of the attempts fills exactly n places -----

  /** The attempts of one TTL, offered in the given order. */
  function Feed(ttl: int, maxHops: nat, offered: seq<Hop>, n: int, m: int): Result
    requires 1 <= ttl <= maxHops && forall j :: 0 <= j < |offered| ==> offered[j].ttl == ttl
    ensures Holds(Feed(ttl, maxHops, offered, n, m), ttl)
  {
    if offered == [] then Empty(maxHops)
    else
      var h := offered[|offered| - 1];
      Add(Feed(ttl, maxHops, offered[..|offered| - 1], n, m), h, h.attempt, n, m).r
  }

  /** Every index from 0 to m - 1 is offered once. */
  ghost predicate EachOnce(offered: seq<Hop>, m: int) {
    && |offered| == m
    && (forall j :: 0 <= j < |offered| ==> 0 <= offered[j].attempt < m)
    && Distinct(offered)
  }

  /** The bucket of that TTL alone. */
  datatype Bucket = Bucket(hops: seq<Hop>, tailDone: bool)

  function Kept(offered: seq<Hop>, n: int, m: int): Bucket {
    if offered == [] then Bucket([], false)
    else
      var b, h := Kept(offered[..|offered| - 1], n, m), offered[|offered| - 1];
      if Passes(b.hops, b.tailDone, h, h.attempt, n, m) then Bucket(b.hops + [h], b.tailDone || h.attempt >= n - 1) else b
  }

  lemma {:induction false} FeedKeeps(ttl: int, maxHops: nat, offered: seq<Hop>, n: int, m: int)
    requires 1 <= ttl <= maxHops && forall j :: 0 <= j < |offered| ==> offered[j].ttl == ttl
    ensures var r := Feed(ttl, maxHops, offered, n, m);
      Bucket(r.hops[ttl - 1], r.tailDone[ttl - 1]) == Kept(offered, n, m)
  {
    if offered != [] {
      FeedKeeps(ttl, maxHops, offered[..|offered| - 1], n, m);
    }
  }

  lemma {:induction false} KeptSoFar(offered: seq<Hop>, n: int, m: int)
    requires forall j :: 0 <= j < |offered| ==> 0 <= offered[j].attempt < m
    requires Distinct(offered) && 1 <= n <= m
    ensures var b := Kept(offered, n, m);
      && BucketOk(b.hops, b.tailDone, n) && Low(b.hops, n) == Low(offered, n)
      && Indices(b.hops) <= Indices(offered) && (m - 1 in Indices(offered) ==> b.tailDone)
  {
    if offered != [] {
      hide BucketOk, Passes, Low;
      var init, h := offered[..|offered| - 1], offered[|offered| - 1];
      KeptSoFar(init, n, m);
      LowOfLast(offered, n);
      InIndices(init, h.attempt);
      var b := Kept(init, n, m);
      assert h.attempt !in Indices(b.hops);
      OneMoreOffered(b.hops, b.tailDone, h, n, m);
      assert (b.hops + [h])[..|b.hops|] == b.hops;
    }
  }

  lemma LowOfLast(offered: seq<Hop>, n: int)
    requires offered != []
    ensures Low(offered, n) == Low(offered[..|offered| - 1], n) + (if offered[|offered| - 1].attempt < n - 1 then 1 else 0)
  {
  }

  lemma OneMoreOffered(bucket: seq<Hop>, tail: bool, h: Hop, n: int, m: int)
    requires BucketOk(bucket, tail, n) && 0 <= h.attempt < m && 1 <= n <= m
    requires h.attempt !in Indices(bucket)
    ensures Passes(bucket, tail, h, h.attempt, n, m) ==>
      && BucketOk(bucket + [h], tail || h.attempt >= n - 1, n)
      && Low(bucket + [h], n) == Low(bucket, n) + (if h.attempt < n - 1 then 1 else 0)
    ensures !Passes(bucket, tail, h, h.attempt, n, m) ==> h.attempt >= n - 1 && (h.attempt == m - 1 ==> tail)
  {
    assert (bucket + [h])[..|bucket|] == bucket;
    InIndices(bucket, h.attempt);
    if Passes(bucket, tail, h, h.attempt, n, m) {
      AddKeepsBucket(bucket, tail, h, h.attempt, n, m);
    } else {
      LowIsBounded(bucket, n);
    }
  }

  /** All attempts offered, in whatever order and whatever they are: exactly n
      hops are kept, all of the first n - 1 indices among them. */
  lemma AnyOrderFillsExactly(ttl: int, maxHops: nat, offered: seq<Hop>, n: int, m: int)
    requires 1 <= ttl <= maxHops && forall j :: 0 <= j < |offered| ==> offered[j].ttl == ttl
    requires EachOnce(offered, m) && 1 <= n <= m
    ensures |Feed(ttl, maxHops, offered, n, m).hops[ttl - 1]| == n
    ensures Low(Feed(ttl, maxHops, offered, n, m).hops[ttl - 1], n) == n - 1
  {
    FeedKeeps(ttl, maxHops, offered, n, m);
    KeptSoFar(offered, n, m);
    AllIndices(offered, m);
    LowCounts(offered, n);
    SizeOfUpTo(n - 1);
    forall x | x in UpTo(n - 1) ensures x in UpTo(m) {
      InUpTo(n - 1, x);
      InUpTo(m, x);
    }
    assert Indices(offered) * UpTo(n - 1) == UpTo(n - 1);
    InUpTo(m, m - 1);
    InIndices(offered, m - 1);
  }

  /** m distinct indices below m are all of them. */
  lemma AllIndices(offered: seq<Hop>, m: int)
    requires EachOnce(offered, m)
    ensures Indices(offered) == UpTo(m)
  {
    LowCounts(offered, m);
    SizeOfUpTo(m);
    forall x | x in Indices(offered) ensures x in UpTo(m) {
      InIndices(offered, x);
      InUpTo(m, x);
    }
    Subset(Indices(offered), UpTo(m));
  }

  // ----- Which attempts are kept -----

  ghost predicate LowValid(offered: seq<Hop>, n: int) {
    exists i :: 0 <= i < |offered| && offered[i].attempt < n - 1 && IsValidHop(offered[i])
  }

  /** An attempt settles the last place: it is none of the first n - 1, and it is
      valid, the last one, or comes after a valid one of the first n - 1. */
  ghost predicate Settles(before: seq<Hop>, h: Hop, n: int, m: int) {
    h.attempt >= n - 1 && (IsValidHop(h) || h.attempt >= m - 1 || LowValid(before, n))
  }

  ghost predicate Settled(offered: seq<Hop>, n: int, m: int) {
    exists j :: 0 <= j < |offered| && Settles(offered[..j], offered[j], n, m)
  }

  /** The attempts of the first n - 1 indices and the first that settles the last
      place, in the order in which they were offered. */
  ghost function Chosen(offered: seq<Hop>, n: int, m: int): seq<Hop> {
    if offered == [] then []
    else
      var before, h := offered[..|offered| - 1], offered[|offered| - 1];
      Chosen(before, n, m) +
      if h.attempt < n - 1 || (Settles(before, h, n, m) && !Settled(before, n, m)) then [h] else []
  }

  ghost predicate KeptAsChosen(b: Bucket, offered: seq<Hop>, n: int, m: int) {
    && b.hops == Chosen(offered, n, m)
    && (b.tailDone <==> Settled(offered, n, m))
    && (!b.tailDone ==> (HasValid(b.hops) <==> LowValid(offered, n)))
  }

  lemma SettledMore(before: seq<Hop>, h: Hop, n: int, m: int)
    ensures Settled(before + [h], n, m) <==> Settled(before, n, m) || Settles(before, h, n, m)
    ensures LowValid(before + [h], n) <==> LowValid(before, n) || (h.attempt < n - 1 && IsValidHop(h))
  {
    hide Settles, IsValidHop;
    var all := before + [h];
    assert all[..|before|] == before;
    forall j | 0 <= j < |before| ensures all[j] == before[j] && all[..j] == before[..j] {
    }
    if LowValid(before, n) {
      var i :| 0 <= i < |before| && before[i].attempt < n - 1 && IsValidHop(before[i]);
      assert all[i] == before[i];
    }
    if h.attempt < n - 1 && IsValidHop(h) {
      assert all[|before|] == h;
    }
    if Settled(before, n, m) {
      var j :| 0 <= j < |before| && Settles(before[..j], before[j], n, m);
      assert Settles(all[..j], all[j], n, m);
    }
    if Settles(before, h, n, m) {
      assert Settles(all[..|before|], all[|before|], n, m);
    }
  }

  lemma HasValidMore(bucket: seq<Hop>, h: Hop)
    ensures HasValid(bucket + [h]) <==> HasValid(bucket) || IsValidHop(h)
  {
    var more := bucket + [h];
    assert more[|bucket|] == h;
    if HasValid(bucket) {
      var j :| 0 <= j < |bucket| && IsValidHop(bucket[j]);
      assert more[j] == bucket[j];
    }
  }

  /** There is room until the tail is decided. */
  lemma RoomForTail(bucket: seq<Hop>, tailDone: bool, n: int)
    requires BucketOk(bucket, tailDone, n) && n >= 1
    ensures !tailDone ==> |bucket| < n
  {
    LowIsBounded(bucket, n);
  }

  lemma OneMoreChosen(b: Bucket, before: seq<Hop>, h: Hop, n: int, m: int)
    requires KeptAsChosen(b, before, n, m) && (!b.tailDone ==> |b.hops| < n)
    ensures KeptAsChosen(if Passes(b.hops, b.tailDone, h, h.attempt, n, m)
                         then Bucket(b.hops + [h], b.tailDone || h.attempt >= n - 1) else b, before + [h], n, m)
  {
    hide HasValid, LowValid, Settled, IsValidHop;
    assert (before + [h])[..|before|] == before;
    SettledMore(before, h, n, m);
    HasValidMore(b.hops, h);
  }

  /** Whatever was offered, in whatever order: kept are exactly those attempts. */
  lemma {:induction false} KeptIsChosen(offered: seq<Hop>, n: int, m: int)
    requires Distinct(offered) && n >= 1 && forall j :: 0 <= j < |offered| ==> offered[j].attempt >= 0
    ensures KeptAsChosen(Kept(offered, n, m), offered, n, m)
    ensures var b := Kept(offered, n, m); BucketOk(b.hops, b.tailDone, n) && Indices(b.hops) <= Indices(offered)
  {
    if offered != [] {
      hide KeptAsChosen, BucketOk, Low, Passes;
      var init, h := offered[..|offered| - 1], offered[|offered| - 1];
      KeptIsChosen(init, n, m);
      InIndices(init, h.attempt);
      var b := Kept(init, n, m);
      InIndices(b.hops, h.attempt);
      assert (b.hops + [h])[..|b.hops|] == b.hops;
      if Passes(b.hops, b.tailDone, h, h.attempt, n, m) {
        AddKeepsBucket(b.hops, b.tailDone, h, h.attempt, n, m);
      }
      RoomForTail(b.hops, b.tailDone, n);
      OneMoreChosen(b, init, h, n, m);
      assert offered == init + [h];
    }
  }

  /** The bucket of a TTL after any attempts in any order: those of the first
      n - 1 indices and the first that settles the last place. */
  lemma KeepsTheChosen(ttl: int, maxHops: nat, offered: seq<Hop>, n: int, m: int)
    requires 1 <= ttl <= maxHops && forall j :: 0 <= j < |offered| ==> offered[j].ttl == ttl
    requires Distinct(offered) && n >= 1 && forall j :: 0 <= j < |offered| ==> offered[j].attempt >= 0
    ensures var r := Feed(ttl, maxHops, offered, n, m);
      && r.hops[ttl - 1] == Chosen(offered, n, m)
      && (r.tailDone[ttl - 1] <==> Settled(offered, n, m))
  {
    FeedKeeps(ttl, maxHops, offered, n, m);
    KeptIsChosen(offered, n, m);
  }

  /** Every attempt in its turn. */
  ghost predicate InOrder(offered: seq<Hop>, m: int) {
    |offered| <= m && forall j :: 0 <= j < |offered| ==> offered[j].attempt == j
  }

  lemma {:induction false} ValidIsChosen(offered: seq<Hop>, n: int, m: int)
    requires InOrder(offered, m) && n >= 1
    ensures HasValid(Chosen(offered, n, m)) <==> HasValid(offered)
    ensures Settled(offered, n, m) && |offered| < m ==> HasValid(offered)
  {
    if offered != [] {
      hide Settled, LowValid, IsValidHop, HasValid, Chosen;
      var init, h := offered[..|offered| - 1], offered[|offered| - 1];
      assert offered == init + [h];
      assert InOrder(init, m) && h.attempt == |init|;
      ValidIsChosen(init, n, m);
      SettledMore(init, h, n, m);
      ChosenMore(init, h, n, m);
      HasValidMore(Chosen(init, n, m), h);
      HasValidMore(init, h);
      if LowValid(init, n) {
        LowValidIsValid(init, n);
      }
    } else {
      assert Chosen(offered, n, m) == offered;
    }
  }

  lemma ChosenMore(before: seq<Hop>, h: Hop, n: int, m: int)
    ensures Chosen(before + [h], n, m) ==
      if h.attempt < n - 1 || (Settles(before, h, n, m) && !Settled(before, n, m)) then Chosen(before, n, m) + [h]
      else Chosen(before, n, m)
  {
    assert (before + [h])[..|before|] == before;
  }

  lemma LowValidIsValid(offered: seq<Hop>, n: int)
    requires LowValid(offered, n)
    ensures HasValid(offered)
  {
  }

  /** Attempts offered in the order of their indices: a valid hop is kept if and
      only if some attempt was valid. */
  lemma ValidIsNotLost(ttl: int, maxHops: nat, offered: seq<Hop>, n: int, m: int)
    requires 1 <= ttl <= maxHops && forall j :: 0 <= j < |offered| ==> offered[j].ttl == ttl
    requires InOrder(offered, m) && n >= 1
    ensures HasValid(Feed(ttl, maxHops, offered, n, m).hops[ttl - 1]) <==>
      exists j :: 0 <= j < |offered| && offered[j].success && offered[j].addr != ""
  {
    KeepsTheChosen(ttl, maxHops, offered, n, m);
    ValidIsChosen(offered, n, m);
  }
}
