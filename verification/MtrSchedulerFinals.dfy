/** Which TTLs have rows in the aggregate, exactly: those with completed probes
    that were not final earlier in the generation. */
module MtrSchedulerFinals {
  import opened Text
  import opened MtrAccum
  import opened MtrRows
  import opened MtrScheduler
  import opened MtrSchedulerProofs
  import Meta = MtrMetadata

  /** The TTLs that were final earlier in the generation, after one more step. */
  function NextFinals(s: Sched, s': Sched, earlier: set<int>): set<int> {
    if s'.generation != s.generation then {}
    else if s.knownFinal != -1 && s'.knownFinal != s.knownFinal then earlier + {s.knownFinal}
    else earlier
  }

  /** The same along a run. */
  ghost function EarlierFinals(w: World, cfg: Config, inputs: seq<Input>, earlier: set<int>): set<int>
    requires ValidConfig(cfg) && Shaped(w.s, cfg)
    decreases |inputs|
  {
    if inputs == [] then earlier
    else
      var w' := Step(w, cfg, inputs[0]);
      EarlierFinals(w', cfg, inputs[1..], NextFinals(w.s, w'.s, earlier))
  }

  /** A TTL has rows exactly when it has completed probes and was not final
      earlier; a TTL that was lies above the one that is final now. */
  ghost predicate RowAt(s: Sched, earlier: set<int>, t: int)
    requires 0 <= t < |s.states|
  {
    && (t in s.agg <==> s.states[t].completed > 0 && t !in earlier)
    && (t in earlier ==> s.knownFinal != -1 && t > s.knownFinal)
  }

  ghost predicate RowsExact(s: Sched, cfg: Config, earlier: set<int>)
    requires 0 <= cfg.beginHop && cfg.maxHops < |s.states|
  {
    forall t :: cfg.beginHop <= t <= cfg.maxHops ==> RowAt(s, earlier, t)
  }

  lemma NotEarlier(w: World, cfg: Config, earlier: set<int>, ttl: int)
    requires Inv(w, cfg) && ValidConfig(cfg) && Shaped(w.s, cfg) && RowsExact(w.s, cfg, earlier)
    requires cfg.beginHop <= ttl <= cfg.maxHops && !w.s.states[ttl].disabled
    ensures ttl !in earlier && (w.s.knownFinal != -1 ==> ttl <= w.s.knownFinal)
  {
    hide SentSum, Probes, IsAddress, CountersOk, RowsOk;
    assert HopOk(w.s, cfg, w.out, w.events, w.s.knownFinal, ttl);
    assert RowAt(w.s, earlier, ttl);
  }

  /** What a result of the current generation changes of final TTL, completed
      counts and keys: nothing, one completed probe, or with it a new final TTL. */
  ghost predicate Counts(s: Sched, s': Sched, ttl: int)
    requires 0 <= ttl < |s.states|
  {
    && |s'.states| == |s.states| && s'.generation == s.generation
    && s'.states[ttl].completed == s.states[ttl].completed + 1
    && (forall t :: 0 <= t < |s.states| && t != ttl ==> s'.states[t].completed == s.states[t].completed)
    && (s'.knownFinal == s.knownFinal || (s'.knownFinal == ttl && (s.knownFinal < 0 || ttl < s.knownFinal)))
    && s'.agg.Keys == (if s.knownFinal < 0 || s'.knownFinal == s.knownFinal then s.agg.Keys else s.agg.Keys - {s.knownFinal}) + {ttl}
  }

  ghost predicate Unchanged(s: Sched, s': Sched) {
    && |s'.states| == |s.states| && s'.generation == s.generation && s'.knownFinal == s.knownFinal
    && s'.agg.Keys == s.agg.Keys
    && forall t :: 0 <= t < |s.states| ==> s'.states[t].completed == s.states[t].completed
  }

  lemma ErrorCounts(s: Sched, cfg: Config, ttl: int, cancelled: bool)
    requires 0 <= ttl < |s.states| && cfg.beginHop >= 0 && cfg.maxHops < |s.states|
    ensures var s' := ProcessError(s, cfg, ttl, cancelled).s; Unchanged(s, s') || Counts(s, s', ttl)
  {
    hide UpdateRows, ComputeIteration;
  }

  lemma SuccessCounts(s: Sched, cfg: Config, ttl: int, r: ProbeResult, fill: Fill, clock: Meta.Clock)
    requires 0 <= ttl < |s.states| && cfg.beginHop >= 0 && cfg.maxHops < |s.states|
    requires !BudgetReached(DetectDestination(s, cfg, ttl, r), cfg, ttl)
    ensures Counts(s, ProcessSuccess(s, cfg, ttl, r, fill, clock).s, ttl)
  {
    hide UpdateRows, ComputeIteration, ApplyCache, FetchAsync, AttemptOf, Meta.LaunchLookups;
  }

  lemma CountsKeepExact(s: Sched, s': Sched, cfg: Config, earlier: set<int>, ttl: int)
    requires ValidConfig(cfg) && Shaped(s, cfg) && RowsExact(s, cfg, earlier)
    requires cfg.beginHop <= ttl <= cfg.maxHops && ttl !in earlier && (s.knownFinal != -1 ==> ttl <= s.knownFinal)
    requires Counts(s, s', ttl)
    ensures RowsExact(s', cfg, NextFinals(s, s', earlier))
  {
    hide IsAddress;
    forall t | cfg.beginHop <= t <= cfg.maxHops ensures RowAt(s', NextFinals(s, s', earlier), t) {
      assert RowAt(s, earlier, t);
    }
  }

  lemma UnchangedKeepsExact(s: Sched, s': Sched, cfg: Config, earlier: set<int>)
    requires ValidConfig(cfg) && Shaped(s, cfg) && RowsExact(s, cfg, earlier) && Unchanged(s, s')
    ensures NextFinals(s, s', earlier) == earlier && RowsExact(s', cfg, earlier)
  {
    hide IsAddress;
    forall t | cfg.beginHop <= t <= cfg.maxHops ensures RowAt(s', earlier, t) {
      assert RowAt(s, earlier, t);
    }
  }

  lemma ResultKeepsExact(w: World, cfg: Config, i: Input, earlier: set<int>)
    requires Inv(w, cfg) && Enabled(w, i) && i.ProbeDone? && ValidConfig(cfg) && Shaped(w.s, cfg)
    requires RowsExact(w.s, cfg, earlier)
    ensures var s' := AfterResult(w, cfg, i).s;
      && Shaped(s', cfg) && RowsExact(s', cfg, NextFinals(w.s, s', earlier))
  {
    hide Inv, Contract, IsAddress, ProcessError, ProcessSuccess, RowsExact;
    var cp := i.cp;
    ProcessingKeepsShape(w.s, cfg, cp, i.cancelled, i.fill, i.clock);
    var s' := AfterResult(w, cfg, i).s;
    if cp.gen == w.s.generation && cfg.beginHop <= cp.ttl <= cfg.maxHops && !w.s.states[cp.ttl].disabled {
      var s2 := Popped(w.s, cp.ttl);
      NotEarlier(w, cfg, earlier, cp.ttl);
      PoppedExact(w.s, cfg, earlier, cp.ttl);
      if cp.failed {
        ErrorCounts(s2, cfg, cp.ttl, i.cancelled);
      } else {
        NotUsedUp(w, cfg, i);
        SuccessCounts(s2, cfg, cp.ttl, cp.result, i.fill, i.clock);
      }
      if Unchanged(s2, s') {
        UnchangedKeepsExact(s2, s', cfg, earlier);
      } else {
        CountsKeepExact(s2, s', cfg, earlier, cp.ttl);
      }
    } else {
      UnchangedKeepsExact(w.s, s', cfg, earlier);
    }
  }

  /** A success of an enabled TTL finds room in the budget. */
  lemma NotUsedUp(w: World, cfg: Config, i: Input)
    requires Inv(w, cfg) && Enabled(w, i) && i.ProbeDone? && i.cp.gen == w.s.generation
    requires 0 <= i.cp.ttl < |w.s.states| && !w.s.states[i.cp.ttl].disabled
    ensures var s := DetectDestination(Popped(w.s, i.cp.ttl), cfg, i.cp.ttl, i.cp.result);
      i.cp.ttl < |s.states| && !BudgetReached(s, cfg, i.cp.ttl)
  {
    hide InvAt, Contract, IsAddress;
    var ttl := i.cp.ttl;
    PopKeeps(w.s, cfg, w.out, w.events, w.s.knownFinal, ttl);
    var s, rest := Popped(w.s, ttl), w.out - multiset{Token(ttl, i.cp.gen)};
    DetectKeeps(s, cfg, rest, w.events, ttl, i.cp.result);
    NotNegative(s, cfg, rest, w.events, s.knownFinal, ttl);
  }

  lemma PoppedExact(s: Sched, cfg: Config, earlier: set<int>, ttl: int)
    requires ValidConfig(cfg) && Shaped(s, cfg) && RowsExact(s, cfg, earlier) && 0 <= ttl < |s.states|
    ensures var s2 := Popped(s, ttl);
      && Shaped(s2, cfg) && RowsExact(s2, cfg, earlier)
      && forall s', f :: NextFinals(s2, s', f) == NextFinals(s, s', f)
  {
    UnchangedKeepsExact(s, Popped(s, ttl), cfg, earlier);
  }

  lemma ScheduleUnchanged(s: Sched, cfg: Config, ttl: int, now: int, at: seq<int>)
    requires 0 <= ttl && cfg.maxHops < |s.states|
    ensures Unchanged(s, ScheduleFrom(s, cfg, ttl, now, at).s)
    decreases cfg.maxHops - ttl
  {
  }

  lemma ReadyKeepsExact(w: World, cfg: Config, paused: bool, time: int, at: seq<int>, earlier: set<int>)
    requires ValidConfig(cfg) && Shaped(w.s, cfg) && RowsExact(w.s, cfg, earlier)
    ensures var s' := ThenSchedule(w, cfg, paused, time, at).s;
      && Unchanged(w.s, s') && RowsExact(s', cfg, earlier)
  {
    hide ScheduleFrom, IsAddress, RowsExact;
    ScheduleUnchanged(w.s, cfg, cfg.beginHop, time, at);
    UnchangedKeepsExact(w.s, ThenSchedule(w, cfg, paused, time, at).s, cfg, earlier);
  }

  lemma ResetIsExact(s: Sched, cfg: Config, earlier: set<int>)
    requires ValidConfig(cfg) && Shaped(s, cfg)
    ensures var s' := HandleReset(s); Shaped(s', cfg) && NextFinals(s, s', earlier) == {} && RowsExact(s', cfg, {})
  {
    hide IsAddress;
  }

  lemma StepKeepsExact(w: World, cfg: Config, i: Input, earlier: set<int>)
    requires Inv(w, cfg) && Enabled(w, i) && ValidConfig(cfg) && Shaped(w.s, cfg) && RowsExact(w.s, cfg, earlier)
    ensures var s' := Step(w, cfg, i).s; RowsExact(s', cfg, NextFinals(w.s, s', earlier))
  {
    hide Inv, RowsExact, ThenSchedule, ProcessResult, IsDone, Contract, IsAddress, HandleReset, Meta.ProcessResult, PatchMetadata;
    match i
    case ProbeDone(cp, cancelled, fill, clock, paused, time, at) =>
      ResultKeepsExact(w, cfg, i, earlier);
      var w1 := AfterResult(w, cfg, i);
      ReadyKeepsExact(w1, cfg, paused, time, at, NextFinals(w.s, w1.s, earlier));
    case LookupDone(kind, patch, gen, parses, clock) =>
      var s' := ProcessMetadata(w.s, cfg, kind, patch, gen, parses, clock).s;
      PatchKeepsSums(w.s.agg, patch.ip, patch.host, patch.geo, 0);
      UnchangedKeepsExact(w.s, s', cfg, earlier);
    case LookupDropped(l) =>
    case Tick(reset, paused, time, at) =>
      if reset {
        ResetIsExact(w.s, cfg, earlier);
        ReadyKeepsExact(w.(s := HandleReset(w.s), log := w.log + [Meta.WasReset]), cfg, paused, time, at, {});
      } else {
        ReadyKeepsExact(w, cfg, paused, time, at, earlier);
      }
  }

  lemma {:induction false} RunKeepsExact(w: World, cfg: Config, inputs: seq<Input>, earlier: set<int>)
    requires Inv(w, cfg) && ValidConfig(cfg) && Shaped(w.s, cfg) && ValidRun(w, cfg, inputs) && RowsExact(w.s, cfg, earlier)
    ensures RowsExact(Run(w, cfg, inputs).s, cfg, EarlierFinals(w, cfg, inputs, earlier))
    decreases |inputs|
  {
    hide Inv, Step, Enabled, RowsExact, ValidConfig, NextFinals;
    if inputs != [] {
      StepKeeps(w, cfg, inputs[0]);
      StepKeepsExact(w, cfg, inputs[0], earlier);
      var w' := Step(w, cfg, inputs[0]);
      RunKeepsExact(w', cfg, inputs[1..], NextFinals(w.s, w'.s, earlier));
    }
  }

  /** Over a whole run: a TTL has rows exactly when it has completed probes in
      this generation and was not final earlier in it, and those rows then hold
      exactly its completed probes. */
  lemma RowsExactly(cfg: Config, paused: bool, time: int, at: seq<int>, inputs: seq<Input>, t: int)
    requires ValidConfig(cfg) && Shaped(Begin(cfg, paused, time, at).s, cfg)
    requires ValidRun(Begin(cfg, paused, time, at), cfg, inputs) && cfg.beginHop <= t <= cfg.maxHops
    ensures var w0 := Begin(cfg, paused, time, at);
      var w, earlier := Run(w0, cfg, inputs), EarlierFinals(w0, cfg, inputs, {});
      && (t in w.s.agg <==> w.s.states[t].completed > 0 && t !in earlier)
      && (t in earlier ==> w.s.knownFinal != -1 && t > w.s.knownFinal)
      && SentSum(RowsAt(w.s.agg, t)) == if t in earlier then 0 else w.s.states[t].completed
  {
    hide Inv, ValidRun, Run, EarlierFinals, IsAddress, SentSum, Begin;
    BeginOk(cfg, paused, time, at);
    BeginExact(cfg, paused, time, at);
    var w0 := Begin(cfg, paused, time, at);
    RunKeepsExact(w0, cfg, inputs, {});
    var w, earlier := Run(w0, cfg, inputs), EarlierFinals(w0, cfg, inputs, {});
    assert RowAt(w.s, earlier, t);
    RunKeeps(w0, cfg, inputs);
    SumOfRows(w, cfg, t);
  }

  lemma SumOfRows(w: World, cfg: Config, t: int)
    requires Inv(w, cfg) && ValidConfig(cfg) && Shaped(w.s, cfg) && cfg.beginHop <= t <= cfg.maxHops
    ensures SentSum(RowsAt(w.s.agg, t)) == if t in w.s.agg then w.s.states[t].completed else 0
  {
    hide Probes, IsAddress, CountersOk;
    assert HopOk(w.s, cfg, w.out, w.events, w.s.knownFinal, t);
    if t !in w.s.agg {
      assert Sents(RowsAt(w.s.agg, t)) == map[];
    }
  }

  lemma BeginExact(cfg: Config, paused: bool, time: int, at: seq<int>)
    requires ValidConfig(cfg) && Shaped(Begin(cfg, paused, time, at).s, cfg)
    ensures RowsExact(Begin(cfg, paused, time, at).s, cfg, {})
  {
    hide ScheduleFrom, IsAddress;
    ReadyKeepsExact(World(Initial(cfg), multiset{}, [], multiset{}, [], 0, false), cfg, paused, time, at, {});
  }

  /** No rows lie above the final TTL if and only if every TTL above it has no
      completed probe in this generation or was final earlier in it. */
  lemma NoRowsAboveFinalExactly(cfg: Config, paused: bool, time: int, at: seq<int>, inputs: seq<Input>)
    requires ValidConfig(cfg) && Shaped(Begin(cfg, paused, time, at).s, cfg)
    requires ValidRun(Begin(cfg, paused, time, at), cfg, inputs)
    ensures var w0 := Begin(cfg, paused, time, at);
      var w, earlier := Run(w0, cfg, inputs), EarlierFinals(w0, cfg, inputs, {});
      (forall t :: cfg.beginHop <= t <= cfg.maxHops && t > w.s.knownFinal ==> t !in w.s.agg) <==>
      (forall t :: cfg.beginHop <= t <= cfg.maxHops && t > w.s.knownFinal ==> w.s.states[t].completed == 0 || t in earlier)
  {
    hide Inv, ValidRun, Run, EarlierFinals, IsAddress, SentSum, Begin;
    var w0 := Begin(cfg, paused, time, at);
    var w := Run(w0, cfg, inputs);
    forall t | cfg.beginHop <= t <= cfg.maxHops
      ensures t in w.s.agg <==> w.s.states[t].completed > 0 && t !in EarlierFinals(w0, cfg, inputs, {})
    {
      RowsExactly(cfg, paused, time, at, inputs, t);
    }
  }
}
