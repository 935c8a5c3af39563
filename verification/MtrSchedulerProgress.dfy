/** Monotone reports, bounded work and progress of the scheduler, and its
    metadata lookups seen as a run of MtrMetadata. */
module MtrSchedulerProgress {
  import opened Text
  import opened MtrAccum
  import opened MtrRows
  import opened MtrScheduler
  import opened MtrSchedulerProofs
  import Meta = MtrMetadata

  // ----- Within a generation nothing goes backwards -----

  ghost predicate Grows(s: Sched, s': Sched) {
    && s'.generation == s.generation && |s'.states| == |s.states|
    && (forall t :: 0 <= t < |s.states| ==>
          s.states[t].completed <= s'.states[t].completed && (s.states[t].disabled ==> s'.states[t].disabled))
    && (s.knownFinal > 0 ==> 0 < s'.knownFinal <= s.knownFinal)
  }

  lemma GrowsTransitive(a: Sched, b: Sched, c: Sched)
    requires Grows(a, b) && Grows(b, c)
    ensures Grows(a, c)
  {
  }

  lemma ScheduleGrows(s: Sched, cfg: Config, ttl: int, now: int, at: seq<int>)
    requires 0 <= ttl && cfg.maxHops < |s.states|
    ensures Grows(s, ScheduleFrom(s, cfg, ttl, now, at).s)
    decreases cfg.maxHops - ttl
  {
    if ttl <= EffectiveMax(s, cfg) && s.inFlight < cfg.parallelism {
      if CanLaunch(s, cfg, ttl, now) {
        var s1 := Launch(s, cfg, ttl, ReadingFor(at, ttl, now));
        ScheduleGrows(s1, cfg, ttl + 1, now, at);
        GrowsTransitive(s, s1, ScheduleFrom(s1, cfg, ttl + 1, now, at).s);
      } else {
        ScheduleGrows(s, cfg, ttl + 1, now, at);
      }
    }
  }

  lemma ErrorGrows(s: Sched, cfg: Config, ttl: int, cancelled: bool)
    requires 0 <= ttl < |s.states| && cfg.beginHop >= 0 && cfg.maxHops < |s.states|
    ensures Grows(s, ProcessError(s, cfg, ttl, cancelled).s)
  {
    hide ComputeIteration, UpdateRows;
  }

  lemma DetectGrows(s: Sched, cfg: Config, ttl: int, r: ProbeResult)
    requires 0 < ttl < |s.states| && Shaped(s, cfg)
    ensures Grows(s, DetectDestination(s, cfg, ttl, r))
  {
  }

  lemma SuccessGrows(s: Sched, cfg: Config, ttl: int, r: ProbeResult, fill: Fill, clock: Meta.Clock)
    requires 0 < ttl < |s.states| && cfg.beginHop >= 0 && cfg.maxHops < |s.states| && Shaped(s, cfg)
    ensures Grows(s, ProcessSuccess(s, cfg, ttl, r, fill, clock).s)
  {
    hide ComputeIteration, UpdateRows, DetectDestination, ApplyCache, FetchAsync, AttemptOf, Meta.LaunchLookups;
    DetectGrows(s, cfg, ttl, r);
    var s1 := DetectDestination(s, cfg, ttl, r);
    var s2 := ProcessSuccess(s, cfg, ttl, r, fill, clock).s;
    assert Grows(s1, s2);
    GrowsTransitive(s, s1, s2);
  }

  lemma ResultGrows(s: Sched, cfg: Config, cp: Completed, cancelled: bool, fill: Fill, clock: Meta.Clock)
    requires ValidConfig(cfg) && Shaped(s, cfg)
    ensures Grows(s, ProcessResult(s, cfg, cp, cancelled, fill, clock).s)
  {
    hide ProcessError, ProcessSuccess, IsAddress;
    if cp.gen == s.generation && cfg.beginHop <= cp.ttl <= cfg.maxHops && !s.states[cp.ttl].disabled {
      var s2 := Popped(s, cp.ttl);
      assert Grows(s, s2);
      ErrorGrows(s2, cfg, cp.ttl, cancelled);
      SuccessGrows(s2, cfg, cp.ttl, cp.result, fill, clock);
    }
  }

  lemma StepGrows(w: World, cfg: Config, i: Input)
    requires Inv(w, cfg) && Enabled(w, i) && !(i.Tick? && i.reset)
    ensures Grows(w.s, Step(w, cfg, i).s)
  {
    hide InvAt, ScheduleFrom, ProcessResult, IsDone, Contract, Meta.ProcessResult, PatchMetadata, Grows, IsAddress;
    InvShape(w.s, cfg, w.out, w.events, w.s.knownFinal);
    GrowsReflexive(w.s, w.s);
    match i
    case ProbeDone(cp, cancelled, fill, clock, paused, time, at) =>
      var w1 := AfterResult(w, cfg, i);
      ProcessingKeepsShape(w.s, cfg, cp, cancelled, fill, clock);
      ResultGrows(w.s, cfg, cp, cancelled, fill, clock);
      ScheduleGrows(w1.s, cfg, cfg.beginHop, time, at);
      GrowsTransitive(w.s, w1.s, ScheduleFrom(w1.s, cfg, cfg.beginHop, time, at).s);
    case LookupDone(kind, patch, gen, parses, clock) =>
      GrowsReflexive(w.s, ProcessMetadata(w.s, cfg, kind, patch, gen, parses, clock).s);
    case LookupDropped(l) =>
    case Tick(reset, paused, time, at) =>
      ScheduleGrows(w.s, cfg, cfg.beginHop, time, at);
  }

  lemma GrowsReflexive(s: Sched, s': Sched)
    requires s'.states == s.states && s'.generation == s.generation && s'.knownFinal == s.knownFinal
    ensures Grows(s, s')
  {
  }

  // ----- The reported iteration is a minimum -----

  lemma {:induction false} MinCompletedIsMin(states: seq<HopState>, ttl: int, eMax: int)
    requires 0 <= ttl && eMax < |states|
    ensures var m := MinCompleted(states, ttl, eMax);
      && m >= -1
      && (m == -1 ==> forall t :: ttl <= t <= eMax ==> states[t].disabled)
      && (m >= 0 ==> exists t :: ttl <= t <= eMax && !states[t].disabled && states[t].completed == m)
      && (forall t :: ttl <= t <= eMax && !states[t].disabled ==> m <= states[t].completed)
    decreases eMax - ttl
  {
    if ttl <= eMax {
      MinCompletedIsMin(states, ttl + 1, eMax);
    }
  }

  /** The iteration is the least completed count of the TTLs in use. */
  lemma IterationIsMin(s: Sched, cfg: Config, out: multiset<Token>, events: seq<ProbeEvent>, d: int)
    requires InvAt(s, cfg, out, events, d)
    ensures forall t :: cfg.beginHop <= t <= EffectiveMax(s, cfg) ==> ComputeIteration(s, cfg) <= s.states[t].completed
    ensures exists t :: cfg.beginHop <= t <= EffectiveMax(s, cfg) && ComputeIteration(s, cfg) == s.states[t].completed
  {
    hide SentSum, Probes, IsAddress, CountersOk, RowsOk;
    var eMax := EffectiveMax(s, cfg);
    MinCompletedIsMin(s.states, cfg.beginHop, eMax);
    forall t | cfg.beginHop <= t <= eMax ensures !s.states[t].disabled {
      assert HopOk(s, cfg, out, events, d, t);
    }
    assert !s.states[cfg.beginHop].disabled;
  }

  lemma IterationGrows(w: World, w': World, cfg: Config)
    requires Inv(w, cfg) && Inv(w', cfg) && Grows(w.s, w'.s)
    ensures ComputeIteration(w.s, cfg) <= ComputeIteration(w'.s, cfg)
  {
    hide InvAt;
    InvShape(w.s, cfg, w.out, w.events, w.s.knownFinal);
    InvShape(w'.s, cfg, w'.out, w'.events, w'.s.knownFinal);
    IterationIsMin(w.s, cfg, w.out, w.events, w.s.knownFinal);
    IterationIsMin(w'.s, cfg, w'.out, w'.events, w'.s.knownFinal);
    var t :| cfg.beginHop <= t <= EffectiveMax(w'.s, cfg) && ComputeIteration(w'.s, cfg) == w'.s.states[t].completed;
    assert t <= EffectiveMax(w.s, cfg);
  }

  ghost predicate NoReset(inputs: seq<Input>) {
    forall k :: 0 <= k < |inputs| ==> !(inputs[k].Tick? && inputs[k].reset)
  }

  lemma {:induction false} RunGrows(w: World, cfg: Config, inputs: seq<Input>)
    requires ValidConfig(cfg) && Shaped(w.s, cfg)
    requires Inv(w, cfg) && ValidRun(w, cfg, inputs) && NoReset(inputs)
    ensures Inv(Run(w, cfg, inputs), cfg) && Grows(w.s, Run(w, cfg, inputs).s)
    decreases |inputs|
  {
    hide Inv, Step, Grows, ValidConfig, Enabled;
    if inputs == [] {
      GrowsReflexive(w.s, w.s);
    } else {
      StepKeeps(w, cfg, inputs[0]);
      StepGrows(w, cfg, inputs[0]);
      var w1 := Step(w, cfg, inputs[0]);
      RunGrows(w1, cfg, inputs[1..]);
      GrowsTransitive(w.s, w1.s, Run(w1, cfg, inputs[1..]).s);
    }
  }

  /** From any reachable state, as long as no reset is requested: the known
      destination only comes closer, no completed count drops, and the reported
      iteration never decreases. */
  lemma ReportsNeverGoBack(w: World, cfg: Config, inputs: seq<Input>)
    requires Reachable(w, cfg) && Shaped(w.s, cfg) && ValidRun(w, cfg, inputs) && NoReset(inputs)
    ensures var w' := Run(w, cfg, inputs);
      && w'.s.generation == w.s.generation
      && (w.s.knownFinal != -1 ==> cfg.beginHop <= w'.s.knownFinal <= w.s.knownFinal)
      && (forall t :: cfg.beginHop <= t <= cfg.maxHops ==> w.s.states[t].completed <= w'.s.states[t].completed)
      && ComputeIteration(w.s, cfg) <= ComputeIteration(w'.s, cfg)
  {
    hide InvAt, ValidRun, Run, IsAddress, ComputeIteration, Reachable, ReachedBy;
    ReachableOk(w, cfg);
    InvShape(w.s, cfg, w.out, w.events, w.s.knownFinal);
    RunGrows(w, cfg, inputs);
    var w' := Run(w, cfg, inputs);
    IterationGrows(w, w', cfg);
  }

  // ----- Bounded work -----

  /** What one enabled TTL may still cost: twice its missing results. */
  function HopRank(h: HopState, cfg: Config): int {
    if h.disabled then 0
    else 2 * ((cfg.maxPerHop - h.completed) * cfg.maxConsecErrs - h.consecutiveErrs - h.inFlightCount)
  }

  function RankFrom(states: seq<HopState>, cfg: Config, ttl: int): int
    requires 0 <= ttl && cfg.maxHops < |states|
    decreases cfg.maxHops - ttl
  {
    if ttl > cfg.maxHops then 0 else HopRank(states[ttl], cfg) + RankFrom(states, cfg, ttl + 1)
  }

  /** Decreases with every launch and with every processed result. */
  function Rank(s: Sched, cfg: Config): int
    requires 0 <= cfg.beginHop && cfg.maxHops < |s.states|
  {
    RankFrom(s.states, cfg, cfg.beginHop) + s.inFlight
  }

  lemma {:induction false} RankPut(states: seq<HopState>, cfg: Config, ttl: int, k: int, h: HopState)
    requires 0 <= ttl && cfg.maxHops < |states| && 0 <= k < |states|
    ensures RankFrom(states[k := h], cfg, ttl) - RankFrom(states, cfg, ttl)
         == if ttl <= k <= cfg.maxHops then HopRank(h, cfg) - HopRank(states[k], cfg) else 0
    decreases cfg.maxHops - ttl
  {
    hide HopRank;
    if ttl <= cfg.maxHops {
      RankPut(states, cfg, ttl + 1, k, h);
    }
  }

  lemma HopRankNonNegative(h: HopState, cfg: Config, outstanding: nat)
    requires CountersOk(h, cfg, outstanding) && cfg.maxPerHop > 0 && cfg.maxConsecErrs >= 1
    ensures HopRank(h, cfg) >= 0
  {
    var left, m := cfg.maxPerHop - h.completed, cfg.maxConsecErrs;
    if h.inFlightCount > 0 || h.consecutiveErrs > 0 {
      assert left >= 1;
      Multiple(left - 1, m);
      assert left * m == (left - 1) * m + m;
    }
  }

  lemma Multiple(a: int, m: int)
    requires a >= 0 && m >= 1
    ensures a * m >= a
  {
  }

  lemma {:induction false} RankNonNegative(s: Sched, cfg: Config, out: multiset<Token>, events: seq<ProbeEvent>, d: int, ttl: int)
    requires InvAt(s, cfg, out, events, d) && cfg.maxPerHop > 0 && cfg.beginHop <= ttl
    ensures RankFrom(s.states, cfg, ttl) >= 0
    decreases cfg.maxHops - ttl
  {
    hide SentSum, Probes, IsAddress, CountersOk, RowsOk, HopRank;
    if ttl <= cfg.maxHops {
      RankNonNegative(s, cfg, out, events, d, ttl + 1);
      assert HopOk(s, cfg, out, events, d, ttl);
      HopRankNonNegative(s.states[ttl], cfg, out[Token(ttl, s.generation)]);
    }
  }

  lemma {:induction false} DisableLowersRank(s: Sched, cfg: Config, out: multiset<Token>, events: seq<ProbeEvent>, d: int, from: int, ttl: int)
    requires InvAt(s, cfg, out, events, d) && cfg.maxPerHop > 0 && cfg.beginHop <= ttl
    ensures RankFrom(DisableFrom(s.states, from), cfg, ttl) <= RankFrom(s.states, cfg, ttl)
    decreases cfg.maxHops - ttl
  {
    hide SentSum, Probes, IsAddress, CountersOk, RowsOk, HopRank;
    if ttl <= cfg.maxHops {
      DisableLowersRank(s, cfg, out, events, d, from, ttl + 1);
      assert HopOk(s, cfg, out, events, d, ttl);
      HopRankNonNegative(s.states[ttl], cfg, out[Token(ttl, s.generation)]);
      DisabledRank(s.states[ttl], cfg);
    }
  }

  lemma DisabledRank(h: HopState, cfg: Config)
    ensures HopRank(h.(disabled := true), cfg) == 0
  {
  }

  lemma LaunchLowersRank(s: Sched, cfg: Config, ttl: int, at: int)
    requires 0 <= cfg.beginHop <= ttl <= cfg.maxHops < |s.states| && !s.states[ttl].disabled
    ensures Rank(Launch(s, cfg, ttl, at), cfg) == Rank(s, cfg) - 1
  {
    var h := s.states[ttl];
    RankPut(s.states, cfg, cfg.beginHop, ttl, h.(inFlightCount := h.inFlightCount + 1, nextAt := Some(at + cfg.hopInterval)));
  }

  lemma {:induction false} ScheduleLowersRank(s: Sched, cfg: Config, ttl: int, now: int, at: seq<int>)
    requires 0 <= cfg.beginHop <= ttl && cfg.maxHops < |s.states|
    ensures var sch := ScheduleFrom(s, cfg, ttl, now, at);
      |sch.s.states| == |s.states| && Rank(sch.s, cfg) == Rank(s, cfg) - |sch.launched|
    decreases cfg.maxHops - ttl
  {
    hide Rank, Launch;
    if ttl <= EffectiveMax(s, cfg) && s.inFlight < cfg.parallelism {
      if CanLaunch(s, cfg, ttl, now) {
        var reading := ReadingFor(at, ttl, now);
        LaunchLowersRank(s, cfg, ttl, reading);
        LaunchKeepsRest(s, cfg, ttl, reading);
        ScheduleLowersRank(Launch(s, cfg, ttl, reading), cfg, ttl + 1, now, at);
      } else {
        ScheduleLowersRank(s, cfg, ttl + 1, now, at);
      }
    }
  }

  lemma CompletedRank(h: HopState, cfg: Config)
    requires !h.disabled && h.consecutiveErrs < cfg.maxConsecErrs
    ensures HopRank(h.(consecutiveErrs := 0, completed := h.completed + 1), cfg) <= HopRank(h, cfg) - 2
  {
    var left, m := cfg.maxPerHop - h.completed, cfg.maxConsecErrs;
    assert (left - 1) * m == left * m - m;
  }

  lemma MarkLowersRank(s: Sched, cfg: Config, ttl: int)
    requires 0 <= cfg.beginHop <= ttl <= cfg.maxHops < |s.states| && !s.states[ttl].disabled
    requires s.states[ttl].consecutiveErrs < cfg.maxConsecErrs
    ensures Rank(MarkCompleted(s, ttl), cfg) <= Rank(s, cfg) - 2
  {
    hide HopRank;
    var h := s.states[ttl];
    CompletedRank(h, cfg);
    RankPut(s.states, cfg, cfg.beginHop, ttl, h.(consecutiveErrs := 0, completed := h.completed + 1));
  }

  lemma PopRank(s: Sched, cfg: Config, ttl: int)
    requires 0 <= cfg.beginHop <= ttl <= cfg.maxHops < |s.states|
    ensures Rank(Popped(s, ttl), cfg) == Rank(s, cfg) + if s.states[ttl].disabled then -1 else 1
  {
    var h := s.states[ttl];
    RankPut(s.states, cfg, cfg.beginHop, ttl, h.(inFlightCount := h.inFlightCount - 1));
  }

  lemma ErrorLowersRank(s: Sched, cfg: Config, ttl: int)
    requires 0 <= cfg.beginHop <= ttl <= cfg.maxHops < |s.states| && !s.states[ttl].disabled
    requires s.states[ttl].consecutiveErrs < cfg.maxConsecErrs
    ensures var p := ProcessError(s, cfg, ttl, false);
      |p.s.states| == |s.states| && Rank(p.s, cfg) <= Rank(s, cfg) - 2
  {
    hide ComputeIteration, UpdateRows;
    var h := s.states[ttl];
    if h.consecutiveErrs + 1 < cfg.maxConsecErrs {
      RankPut(s.states, cfg, cfg.beginHop, ttl, h.(consecutiveErrs := h.consecutiveErrs + 1));
    } else {
      MarkLowersRank(s, cfg, ttl);
    }
  }

  lemma SuccessLowersRank(s: Sched, cfg: Config, out: multiset<Token>, events: seq<ProbeEvent>, ttl: int, r: ProbeResult,
                          fill: Fill, clock: Meta.Clock)
    requires InvAt(s, cfg, out, events, s.knownFinal) && cfg.maxPerHop > 0
    requires cfg.beginHop <= ttl <= cfg.maxHops && HasRoom(s, cfg, ttl) && !s.states[ttl].disabled
    ensures var p := ProcessSuccess(s, cfg, ttl, r, fill, clock);
      |p.s.states| == |s.states| && Rank(p.s, cfg) <= Rank(s, cfg) - 2
  {
    hide InvAt, ComputeIteration, UpdateRows, ApplyCache, FetchAsync, AttemptOf, Meta.LaunchLookups, RankFrom, IsAddress;
    InvShape(s, cfg, out, events, s.knownFinal);
    NotNegative(s, cfg, out, events, s.knownFinal, ttl);
    ErrsBelowMax(s, cfg, out, events, s.knownFinal, ttl);
    var s1 := DetectDestination(s, cfg, ttl, r);
    DisableLowersRank(s, cfg, out, events, s.knownFinal, ttl + 1, cfg.beginHop);
    assert Rank(s1, cfg) <= Rank(s, cfg);
    assert s1.states[ttl] == s.states[ttl];
    MarkLowersRank(s1, cfg, ttl);
  }

  lemma ErrsBelowMax(s: Sched, cfg: Config, out: multiset<Token>, events: seq<ProbeEvent>, d: int, ttl: int)
    requires InvAt(s, cfg, out, events, d) && cfg.beginHop <= ttl <= cfg.maxHops
    ensures s.states[ttl].consecutiveErrs < cfg.maxConsecErrs
  {
    assert HopOk(s, cfg, out, events, d, ttl);
  }

  /** Every processed result lowers the rank. */
  lemma ResultLowersRank(s: Sched, cfg: Config, out: multiset<Token>, events: seq<ProbeEvent>, cp: Completed, fill: Fill,
                         clock: Meta.Clock)
    requires InvAt(s, cfg, out, events, s.knownFinal) && cfg.maxPerHop > 0 && Token(cp.ttl, cp.gen) in out
    ensures var p := ProcessResult(s, cfg, cp, false, fill, clock);
      |p.s.states| == |s.states| && Rank(p.s, cfg) <= Rank(s, cfg) - 1
  {
    hide InvAt, ProcessError, ProcessSuccess, RankFrom, IsAddress;
    InvShape(s, cfg, out, events, s.knownFinal);
    if cp.gen == s.generation {
      PopKeeps(s, cfg, out, events, s.knownFinal, cp.ttl);
      PopRank(s, cfg, cp.ttl);
      var s2, rest := Popped(s, cp.ttl), out - multiset{Token(cp.ttl, cp.gen)};
      if !s.states[cp.ttl].disabled {
        ErrsBelowMax(s2, cfg, rest, events, s.knownFinal, cp.ttl);
        ErrorLowersRank(s2, cfg, cp.ttl);
        SuccessLowersRank(s2, cfg, rest, events, cp.ttl, cp.result, fill, clock);
      }
    }
  }

  /** Results processed by one input, and probes launched by it. */
  function ResultsOf(i: Input): nat {
    if i.ProbeDone? then 1 else 0
  }

  ghost function LaunchesOf(w: World, cfg: Config, i: Input): int
    requires ValidConfig(cfg) && Shaped(w.s, cfg)
  {
    |Step(w, cfg, i).out| - |w.out| + ResultsOf(i)
  }

  ghost predicate Undisturbed(i: Input) {
    !(i.Tick? && i.reset) && !(i.ProbeDone? && i.cancelled)
  }

  lemma {:induction false} TokensCount(ttls: seq<int>, gen: nat)
    ensures |Tokens(ttls, gen)| == |ttls|
  {
    if ttls != [] {
      TokensCount(ttls[1..], gen);
    }
  }

  lemma ReadyLowersRank(w: World, cfg: Config, paused: bool, time: int, at: seq<int>)
    requires 0 <= cfg.beginHop && cfg.maxHops < |w.s.states|
    ensures var w' := ThenSchedule(w, cfg, paused, time, at);
      && |w'.s.states| == |w.s.states| && |w'.out| >= |w.out|
      && Rank(w'.s, cfg) == Rank(w.s, cfg) - (|w'.out| - |w.out|)
  {
    hide Rank, ScheduleFrom;
    var sch := ScheduleReady(w.s, cfg, paused, time, at);
    TokensCount(sch.launched, w.s.generation);
    ScheduleLowersRank(w.s, cfg, cfg.beginHop, time, at);
  }

  lemma StepLowersRank(w: World, cfg: Config, i: Input)
    requires Inv(w, cfg) && Enabled(w, i) && Undisturbed(i) && cfg.maxPerHop > 0
    ensures Shaped(w.s, cfg) && LaunchesOf(w, cfg, i) >= 0
    ensures Rank(Step(w, cfg, i).s, cfg) <= Rank(w.s, cfg) - ResultsOf(i) - LaunchesOf(w, cfg, i)
  {
    hide InvAt, ThenSchedule, ProcessResult, IsDone, Contract, Meta.ProcessResult, PatchMetadata, Rank, IsAddress;
    InvShape(w.s, cfg, w.out, w.events, w.s.knownFinal);
    match i
    case ProbeDone(cp, cancelled, fill, clock, paused, time, at) =>
      var w1 := AfterResult(w, cfg, i);
      ProcessingKeepsShape(w.s, cfg, cp, cancelled, fill, clock);
      ResultLowersRank(w.s, cfg, w.out, w.events, cp, fill, clock);
      ReadyLowersRank(w1, cfg, paused, time, at);
    case LookupDone(kind, patch, gen, parses, clock) =>
      SameRank(w.s, ProcessMetadata(w.s, cfg, kind, patch, gen, parses, clock).s, cfg);
    case LookupDropped(l) =>
    case Tick(reset, paused, time, at) =>
      ReadyLowersRank(w, cfg, paused, time, at);
  }

  lemma SameRank(s: Sched, s': Sched, cfg: Config)
    requires s'.states == s.states && s'.inFlight == s.inFlight && 0 <= cfg.beginHop && cfg.maxHops < |s.states|
    ensures Rank(s', cfg) == Rank(s, cfg)
  {
  }

  /** Results processed plus probes launched along a run. */
  ghost function Work(w: World, cfg: Config, inputs: seq<Input>): int
    requires ValidConfig(cfg) && Shaped(w.s, cfg)
    decreases |inputs|
  {
    if inputs == [] then 0
    else ResultsOf(inputs[0]) + LaunchesOf(w, cfg, inputs[0]) + Work(Step(w, cfg, inputs[0]), cfg, inputs[1..])
  }

  lemma {:induction false} WorkIsBounded(w: World, cfg: Config, inputs: seq<Input>)
    requires ValidConfig(cfg) && Shaped(w.s, cfg) && cfg.maxPerHop > 0
    requires Inv(w, cfg) && ValidRun(w, cfg, inputs) && forall k :: 0 <= k < |inputs| ==> Undisturbed(inputs[k])
    ensures 0 <= Work(w, cfg, inputs) <= Rank(w.s, cfg)
    decreases |inputs|
  {
    hide Inv, Step, ValidConfig, Enabled, Rank, LaunchesOf, Undisturbed;
    if inputs == [] {
      RankAtLeastZero(w, cfg);
    } else {
      StepKeeps(w, cfg, inputs[0]);
      StepLowersRank(w, cfg, inputs[0]);
      WorkIsBounded(Step(w, cfg, inputs[0]), cfg, inputs[1..]);
    }
  }

  lemma RankAtLeastZero(w: World, cfg: Config)
    requires Inv(w, cfg) && cfg.maxPerHop > 0
    ensures 0 <= cfg.beginHop && cfg.maxHops < |w.s.states| && Rank(w.s, cfg) >= 0
  {
    hide InvAt, IsAddress;
    InvShape(w.s, cfg, w.out, w.events, w.s.knownFinal);
    RankNonNegative(w.s, cfg, w.out, w.events, w.s.knownFinal, cfg.beginHop);
    InFlightCounts(w, cfg);
  }

  lemma InFlightCounts(w: World, cfg: Config)
    requires Inv(w, cfg)
    ensures w.s.inFlight == |w.out|
  {
  }

  /** A run with a budget, no reset and no cancellation does a bounded amount of
      work: launches and processed results together never exceed twice the
      budget, times the error limit, times the number of TTLs. */
  lemma RunsAreBounded(cfg: Config, paused: bool, time: int, at: seq<int>, inputs: seq<Input>)
    requires ValidConfig(cfg) && cfg.maxPerHop > 0
    requires Shaped(Begin(cfg, paused, time, at).s, cfg) && ValidRun(Begin(cfg, paused, time, at), cfg, inputs)
    requires forall k :: 0 <= k < |inputs| ==> Undisturbed(inputs[k])
    ensures var w0 := Begin(cfg, paused, time, at);
      |w0.out| + Work(w0, cfg, inputs) <= 2 * cfg.maxPerHop * cfg.maxConsecErrs * (cfg.maxHops - cfg.beginHop + 1)
  {
    hide Inv, Step, Rank, Undisturbed, IsAddress, ScheduleFrom, Work, ValidRun;
    BeginOk(cfg, paused, time, at);
    WorkIsBounded(Begin(cfg, paused, time, at), cfg, inputs);
    var idle := World(Initial(cfg), multiset{}, [], multiset{}, [], 0, false);
    ReadyLowersRank(idle, cfg, paused, time, at);
    InitialRank(cfg);
  }

  lemma InitialRank(cfg: Config)
    requires ValidConfig(cfg)
    ensures Rank(Initial(cfg), cfg) == 2 * cfg.maxPerHop * cfg.maxConsecErrs * (cfg.maxHops - cfg.beginHop + 1)
  {
    InitialRankFrom(Initial(cfg).states, cfg, cfg.beginHop);
  }

  lemma {:induction false} InitialRankFrom(states: seq<HopState>, cfg: Config, ttl: int)
    requires 0 <= ttl <= cfg.maxHops + 1 && cfg.maxHops < |states|
    requires forall t :: 0 <= t < |states| ==> states[t] == IDLE
    ensures RankFrom(states, cfg, ttl) == 2 * cfg.maxPerHop * cfg.maxConsecErrs * (cfg.maxHops - ttl + 1)
    decreases cfg.maxHops - ttl
  {
    if ttl <= cfg.maxHops {
      InitialRankFrom(states, cfg, ttl + 1);
      OneMoreTtl(cfg.maxPerHop, cfg.maxConsecErrs, cfg.maxHops - ttl);
      IdleRank(cfg);
    }
  }

  lemma IdleRank(cfg: Config)
    ensures HopRank(IDLE, cfg) == 2 * cfg.maxPerHop * cfg.maxConsecErrs
  {
    assert (cfg.maxPerHop - 0) * cfg.maxConsecErrs == cfg.maxPerHop * cfg.maxConsecErrs;
  }

  lemma OneMoreTtl(a: int, b: int, n: int)
    ensures 2 * a * b * (n + 1) == 2 * a * b + 2 * a * b * n
  {
  }

  // ----- Progress -----

  /** TTLs that still need results. */
  ghost predicate Missing(s: Sched, cfg: Config, ttl: int)
    requires 0 <= cfg.beginHop && cfg.maxHops < |s.states|
  {
    cfg.beginHop <= ttl <= EffectiveMax(s, cfg) && !s.states[ttl].disabled && s.states[ttl].completed < cfg.maxPerHop
  }

  /** When nothing is on its way and the probes are not done, some TTL can be
      launched as soon as the clock has passed its nextAt. */
  lemma SomethingIsLaunchable(w: World, cfg: Config) returns (ttl: int)
    requires Inv(w, cfg) && cfg.maxPerHop > 0 && w.s.inFlight == 0
    requires 0 <= cfg.beginHop && cfg.maxHops < |w.s.states| && !ProbesDone(w.s, cfg)
    ensures Missing(w.s, cfg, ttl)
    ensures forall now :: (w.s.states[ttl].nextAt.Some? ==> now >= w.s.states[ttl].nextAt.value) ==> CanLaunch(w.s, cfg, ttl, now)
  {
    hide SentSum, Probes, IsAddress, RowsOk;
    ttl :| cfg.beginHop <= ttl <= EffectiveMax(w.s, cfg) && !w.s.states[ttl].disabled &&
      !(w.s.states[ttl].completed >= cfg.maxPerHop && w.s.states[ttl].inFlightCount <= 0);
    assert HopOk(w.s, cfg, w.out, w.events, w.s.knownFinal, ttl);
    assert w.out[Token(ttl, w.s.generation)] == 0;
  }

  /** Scheduling launches something when something can be launched. */
  lemma {:induction false} ScheduleLaunches(s: Sched, cfg: Config, ttl: int, now: int, at: seq<int>, k: int)
    requires 0 <= cfg.beginHop <= ttl <= k <= EffectiveMax(s, cfg) && cfg.maxHops < |s.states|
    requires EffectiveMax(s, cfg) <= cfg.maxHops && s.inFlight < cfg.parallelism && CanLaunch(s, cfg, k, now)
    ensures |ScheduleFrom(s, cfg, ttl, now, at).launched| > 0
    decreases k - ttl
  {
    if !CanLaunch(s, cfg, ttl, now) {
      ScheduleLaunches(s, cfg, ttl + 1, now, at, k);
    }
  }

  lemma LateTickLaunches(w: World, cfg: Config, i: Input)
    requires Inv(w, cfg) && cfg.maxPerHop > 0 && w.s.inFlight == 0
    requires 0 <= cfg.beginHop && cfg.maxHops < |w.s.states| && !ProbesDone(w.s, cfg)
    requires i.Tick? && !i.reset && !i.tickPaused
    requires forall t :: 0 <= t < |w.s.states| && w.s.states[t].nextAt.Some? ==> w.s.states[t].nextAt.value <= i.tickTime
    ensures |AfterTick(w, cfg, i).out| > |w.out|
  {
    hide Inv, IsAddress, ProbesDone, ScheduleFrom;
    var ttl := SomethingIsLaunchable(w, cfg);
    InvParallel(w, cfg);
    ScheduleLaunches(w.s, cfg, cfg.beginHop, i.tickTime, i.tickAt, ttl);
    TokensCount(ScheduleReady(w.s, cfg, false, i.tickTime, i.tickAt).launched, w.s.generation);
  }

  /** So an unpaused tick after every nextAt launches a probe. */
  lemma TickMakesProgress(w: World, cfg: Config, i: Input)
    requires Reachable(w, cfg) && cfg.maxPerHop > 0 && w.s.inFlight == 0
    requires 0 <= cfg.beginHop && cfg.maxHops < |w.s.states| && !ProbesDone(w.s, cfg)
    requires i.Tick? && !i.reset && !i.tickPaused
    requires forall t :: 0 <= t < |w.s.states| && w.s.states[t].nextAt.Some? ==> w.s.states[t].nextAt.value <= i.tickTime
    ensures |AfterTick(w, cfg, i).out| > |w.out|
  {
    hide Inv, ProbesDone;
    ReachableOk(w, cfg);
    LateTickLaunches(w, cfg, i);
  }

  lemma InvParallel(w: World, cfg: Config)
    requires Inv(w, cfg)
    ensures cfg.parallelism >= 1 && EffectiveMax(w.s, cfg) <= cfg.maxHops
  {
  }

  /** When the scheduler stops by itself, every TTL in use has been probed
      exactly as often as asked, and its rows say so. */
  lemma DoneMeansComplete(w: World, cfg: Config, ttl: int)
    requires Reachable(w, cfg) && 0 <= cfg.beginHop && cfg.maxHops < |w.s.states| && IsDone(w.s, cfg)
    requires cfg.beginHop <= ttl <= EffectiveMax(w.s, cfg) <= cfg.maxHops
    ensures w.s.states[ttl].completed == cfg.maxPerHop
    ensures SentSum(RowsAt(w.s.agg, ttl)) == cfg.maxPerHop
    ensures |w.out| == 0
  {
    hide SentSum, Probes, IsAddress, Reachable;
    ReachableOk(w, cfg);
    assert HopOk(w.s, cfg, w.out, w.events, w.s.knownFinal, ttl);
  }

  // ----- The metadata lookups of the scheduler -----

  /** The lookups of the scheduler as a world of MtrMetadata. */
  ghost function Lookups(w: World): Meta.World {
    Meta.World(w.s.meta, w.s.generation, w.running, w.log, w.now)
  }

  /** The metadata step taken by one turn of the loop, if any. */
  ghost function LookupStep(w: World, cfg: Config, i: Input): Option<Meta.Input> {
    match i
    case ProbeDone(cp, cancelled, fill, clock, _, _, _) =>
      var r := ApplyCache(w.s.meta, cp.result);
      if cp.gen == w.s.generation && cfg.beginHop <= cp.ttl <= cfg.maxHops && cp.ttl < |w.s.states| && cp.ttl >= 0
         && !w.s.states[cp.ttl].disabled && !cp.failed && FetchAsync(cfg, r)
      then Some(Meta.Seen(r.addr, r.host, r.geo, clock))
      else Some(Meta.Seen("", "", None, clock))
    case LookupDone(kind, patch, gen, parses, clock) => Some(Meta.Returned(kind, patch, gen, parses, clock))
    case LookupDropped(l) => Some(Meta.Abandoned(l))
    case Tick(reset, _, _, _) => if reset then Some(Meta.Reset) else None
  }

  ghost predicate LookupsFollow(w: World, w': World, cfg: Config, j: Option<Meta.Input>) {
    if j.None? then Lookups(w') == Lookups(w)
    else Meta.Enabled(Lookups(w), j.value) && Lookups(w') == Meta.Step(Lookups(w), cfg.meta, j.value)
  }

  lemma ReadyKeepsLookups(w: World, cfg: Config, paused: bool, time: int, at: seq<int>)
    requires 0 <= cfg.beginHop && cfg.maxHops < |w.s.states|
    ensures Lookups(ThenSchedule(w, cfg, paused, time, at)) == Lookups(w)
  {
    ScheduleKeepsMeta(w.s, cfg, cfg.beginHop, time, at);
  }

  lemma ScheduleKeepsMeta(s: Sched, cfg: Config, ttl: int, now: int, at: seq<int>)
    requires 0 <= ttl && cfg.maxHops < |s.states|
    ensures var s' := ScheduleFrom(s, cfg, ttl, now, at).s; s'.meta == s.meta && s'.generation == s.generation
    decreases cfg.maxHops - ttl
  {
  }

  lemma NoLookups(m: Meta.World, cfg: Config, clock: Meta.Clock)
    ensures Meta.Step(m, cfg.meta, Meta.Seen("", "", None, clock)) == m.(now := clock.d)
  {
    assert m.log + [] == m.log;
    assert m.running + Meta.LookupsOf([]) == m.running;
  }

  lemma ResultLookups(w: World, cfg: Config, i: Input)
    requires Inv(w, cfg) && Enabled(w, i) && i.ProbeDone? && ValidConfig(cfg) && Shaped(w.s, cfg)
    ensures LookupsFollow(w, AfterResult(w, cfg, i), cfg, LookupStep(w, cfg, i))
  {
    hide InvAt, IsAddress, Record, ComputeIteration, Meta.LaunchLookups, ApplyCache, FetchAsync, AttemptOf, Contract;
    var cp := i.cp;
    NoLookups(Lookups(w), cfg, i.clock);
    assert w.log + [] == w.log;
    assert w.running + Meta.LookupsOf([]) == w.running;
    TokenInRange(w, cfg, Token(cp.ttl, cp.gen));
    if cp.gen == w.s.generation && !w.s.states[cp.ttl].disabled && !cp.failed {
      PopKeeps(w.s, cfg, w.out, w.events, w.s.knownFinal, cp.ttl);
      SuccessLookups(w, cfg, i);
    }
  }

  lemma TokenInRange(w: World, cfg: Config, t: Token)
    requires Inv(w, cfg) && t in w.out
    ensures cfg.beginHop <= t.ttl <= cfg.maxHops
  {
  }

  lemma SuccessLookups(w: World, cfg: Config, i: Input)
    requires Inv(w, cfg) && Enabled(w, i) && i.ProbeDone? && ValidConfig(cfg) && Shaped(w.s, cfg)
    requires i.cp.gen == w.s.generation && cfg.beginHop <= i.cp.ttl <= cfg.maxHops
    requires !w.s.states[i.cp.ttl].disabled && !i.cp.failed
    ensures LookupsFollow(w, AfterResult(w, cfg, i), cfg, LookupStep(w, cfg, i))
  {
    hide InvAt, IsAddress, Record, ComputeIteration, Meta.LaunchLookups, ApplyCache, FetchAsync, AttemptOf;
    var cp := i.cp;
    var s2 := Popped(w.s, cp.ttl);
    var rest := w.out - multiset{Token(cp.ttl, cp.gen)};
    PopKeeps(w.s, cfg, w.out, w.events, w.s.knownFinal, cp.ttl);
    SuccessKeeps(s2, cfg, rest, w.events, cp.ttl, cp.result, i.fill, i.clock);
    DetectKeeps(s2, cfg, rest, w.events, cp.ttl, cp.result);
    NoLookups(Lookups(w), cfg, i.clock);
    assert w.log + [] == w.log;
    assert w.running + Meta.LookupsOf([]) == w.running;
  }

  lemma DoneFollows(w: World, cfg: Config, i: Input)
    requires Inv(w, cfg) && Enabled(w, i) && ValidConfig(cfg) && Shaped(w.s, cfg) && i.ProbeDone?
    ensures LookupsFollow(w, Step(w, cfg, i), cfg, LookupStep(w, cfg, i))
  {
    hide Inv, IsAddress, ThenSchedule, ProcessResult, IsDone, Contract, LookupStep, Enabled;
    ProcessingKeepsShape(w.s, cfg, i.cp, i.cancelled, i.fill, i.clock);
    ResultLookups(w, cfg, i);
    ReadyKeepsLookups(AfterResult(w, cfg, i), cfg, i.paused, i.time, i.at);
  }

  lemma ReturnedFollows(w: World, cfg: Config, i: Input)
    requires Inv(w, cfg) && Enabled(w, i) && ValidConfig(cfg) && Shaped(w.s, cfg) && (i.LookupDone? || i.LookupDropped?)
    ensures LookupsFollow(w, Step(w, cfg, i), cfg, LookupStep(w, cfg, i))
  {
    hide Inv, IsAddress, IsDone, Contract, Meta.ProcessResult, PatchMetadata;
    if i.LookupDone? {
      var rest := w.running - multiset{Meta.Lookup(i.kind, i.patch.ip, i.gen)};
      assert rest + Meta.LookupsOf([]) == rest;
      assert w.log + [] == w.log;
      EmptyIpDoesNothing(w.s.meta, i.kind, i.patch, i.parses, cfg, i.gen, i.mclock);
    }
  }

  lemma TickFollows(w: World, cfg: Config, i: Input)
    requires Inv(w, cfg) && Enabled(w, i) && ValidConfig(cfg) && Shaped(w.s, cfg) && i.Tick?
    ensures LookupsFollow(w, Step(w, cfg, i), cfg, LookupStep(w, cfg, i))
  {
    hide Inv, IsAddress, ThenSchedule, IsDone, Contract;
    ReadyKeepsLookups(if i.reset then w.(s := HandleReset(w.s), log := w.log + [Meta.WasReset]) else w,
                      cfg, i.tickPaused, i.tickTime, i.tickAt);
  }

  /** One turn of the loop is one step of the lookups, or none. */
  lemma StepFollows(w: World, cfg: Config, i: Input)
    requires Inv(w, cfg) && Enabled(w, i) && ValidConfig(cfg) && Shaped(w.s, cfg)
    ensures LookupsFollow(w, Step(w, cfg, i), cfg, LookupStep(w, cfg, i))
  {
    hide *;
    if i.ProbeDone? {
      DoneFollows(w, cfg, i);
    } else if i.Tick? {
      TickFollows(w, cfg, i);
    } else {
      ReturnedFollows(w, cfg, i);
    }
  }

  lemma EmptyIpDoesNothing(s: Meta.State, kind: Meta.Kind, patch: Meta.Patch, parses: bool, cfg: Config, gen: nat, clock: Meta.Clock)
    ensures patch.ip == "" ==> Meta.ProcessResult(s, kind, patch, parses, cfg.meta, gen, clock) == Meta.Outcome(s, [])
  {
  }

  lemma {:induction false} LookupsStayOk(w: World, cfg: Config, inputs: seq<Input>)
    requires ValidConfig(cfg) && Shaped(w.s, cfg) && Inv(w, cfg) && ValidRun(w, cfg, inputs)
    requires Meta.WorldOk(Lookups(w))
    ensures Meta.WorldOk(Lookups(Run(w, cfg, inputs)))
    decreases |inputs|
  {
    hide Inv, Step, ValidConfig, Enabled, Meta.WorldOk, Meta.Step, Lookups, LookupStep, Meta.Enabled;
    if inputs != [] {
      StepKeeps(w, cfg, inputs[0]);
      StepFollows(w, cfg, inputs[0]);
      var j := LookupStep(w, cfg, inputs[0]);
      if j.Some? {
        Meta.StepKeepsWorld(Lookups(w), cfg.meta, j.value);
      }
      LookupsStayOk(Step(w, cfg, inputs[0]), cfg, inputs[1..]);
    }
  }

  /** In every run of the scheduler the lookups keep their discipline: one per
      kind, IP and generation, four launches at most before a cooldown, and any
      five launches without a success in between span at least the cooldown. */
  lemma LookupsAreDisciplined(w: World, cfg: Config, kind: Meta.Kind, ip: string)
    requires Reachable(w, cfg)
    ensures var t, ts := Meta.TableOf(w.s.meta, kind), Meta.Since(w.log, kind, ip);
      && w.running[Meta.Lookup(kind, ip, w.s.generation)] == (if ip in t.inFlight then 1 else 0)
      && Meta.AttemptsOf(t, ip) <= 4
      && (ip in t.retryAt ==> Meta.AttemptsOf(t, ip) == 4)
      && Meta.FiveSpanCooldown(ts)
  {
    hide Inv, IsAddress;
    var paused, time, at, inputs :| ReachedBy(w, cfg, paused, time, at, inputs);
    BeginShaped(cfg, paused, time, at);
    var w0 := Begin(cfg, paused, time, at);
    BeginOk(cfg, paused, time, at);
    ReadyKeepsLookups(World(Initial(cfg), multiset{}, [], multiset{}, [], 0, false), cfg, paused, time, at);
    assert Lookups(w0) == Meta.START;
    Meta.StartIsOk();
    LookupsStayOk(w0, cfg, inputs);
    assert Meta.EntryOk(w.s.meta, kind, ip, w.s.generation, w.running, w.log, w.now);
  }
}
