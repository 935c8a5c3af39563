/** The loop itself ends: without DN42, or without lookups in the background,
    every run without reset or cancellation uses up a bound with each result,
    each late enough tick and each lookup that returns, and it can always go on
    by one of these until it has ended. */
module MtrSchedulerFinish {
  import opened Text
  import opened MtrAccum
  import opened MtrRows
  import opened MtrScheduler
  import opened MtrSchedulerProofs
  import opened MtrSchedulerProgress
  import opened MtrSchedulerEnding
  import opened MtrMetadataEnding
  import Meta = MtrMetadata

  ghost predicate Bounded(cfg: Config) {
    cfg.maxPerHop > 0 && (!cfg.meta.dn42 || !cfg.asyncMetadata)
  }

  /** The lookups are in order: no deadline is pending for one in flight, and
      there are none unless they were asked for. */
  ghost predicate LookupsInOrder(w: World, cfg: Config) {
    && Meta.WorldOk(Lookups(w)) && CalmState(w.s.meta)
    && (!cfg.asyncMetadata ==> w.s.meta.geo.inFlight == map[] && w.s.meta.host.inFlight == map[])
  }

  lemma AttemptsLimited(w: World, kind: Meta.Kind, ip: string)
    requires Meta.WorldOk(Lookups(w))
    ensures Meta.AttemptsOf(Meta.TableOf(w.s.meta, kind), ip) <= Meta.MAX_RETRIES + 1
    ensures Meta.Lookup(kind, ip, w.s.generation) in w.running <==> ip in Meta.TableOf(w.s.meta, kind).inFlight
  {
    assert Meta.EntryOk(w.s.meta, kind, ip, w.s.generation, w.running, w.log, w.now);
  }

  /** What one turn does to the lookups, and how much it may cost or pay. */
  lemma MetaAfterStep(w: World, cfg: Config, i: Input)
    requires Inv(w, cfg) && Enabled(w, i) && ValidConfig(cfg) && Shaped(w.s, cfg) && LookupsInOrder(w, cfg)
    requires !cfg.meta.dn42 || !cfg.asyncMetadata
    ensures var w' := Step(w, cfg, i);
      && LookupsInOrder(w', cfg)
      && Potential(w'.s.meta) <= Potential(w.s.meta) + (if i.ProbeDone? then 8 else 0)
      && (i.LookupDone? && i.gen == w.s.generation ==> Potential(w'.s.meta) < Potential(w.s.meta))
  {
    hide Inv, Step, Shaped, ValidConfig, Meta.WorldOk, Meta.ProcessResult, Meta.LaunchLookups, Potential, CalmState;
    StepFollows(w, cfg, i);
    var j := LookupStep(w, cfg, i);
    if j.Some? {
      Meta.StepKeepsWorld(Lookups(w), cfg.meta, j.value);
    }
    match i
    case ProbeDone(cp, _, _, clock, _, _, _) =>
      var r := ApplyCache(w.s.meta, cp.result);
      AttemptsLimited(w, Meta.GeoKind, j.value.ip);
      AttemptsLimited(w, Meta.HostKind, j.value.ip);
      SeenCosts(w.s.meta, j.value.ip, j.value.host, j.value.geo, cfg.meta, w.s.generation, clock);
      NothingSeen(w.s.meta, j.value.host, j.value.geo, cfg.meta, w.s.generation, clock);
    case LookupDone(kind, patch, gen, parses, clock) =>
      if gen == w.s.generation {
        AttemptsLimited(w, kind, patch.ip);
        LookupRuns(w, kind, patch.ip);
        ReturnPays(w.s.meta, kind, patch, parses, cfg.meta, gen, clock);
      }
    case LookupDropped(_) =>
    case Tick(_, _, _, _) => EmptyIsCalm();
  }

  lemma NothingSeen(s: Meta.State, host: string, geo: Option<Geo>, cfg: Meta.Config, gen: nat, clock: Meta.Clock)
    ensures Meta.LaunchLookups(s, "", host, geo, cfg, gen, clock) == Meta.Outcome(s, [])
  {
  }

  lemma EmptyIsCalm()
    ensures CalmState(Meta.EMPTY) && Potential(Meta.EMPTY) == 0
  {
    assert Weights(Meta.EMPTY_TABLE) == map[];
  }

  // ----- The end is noticed -----

  ghost predicate EndIsNoticed(w: World, cfg: Config)
    requires 0 <= cfg.beginHop && cfg.maxHops < |w.s.states|
  {
    IsDone(w.s, cfg) ==> w.finished
  }

  /** Scheduling that launches nothing changes nothing. */
  lemma NothingLaunched(s: Sched, cfg: Config, ttl: int, now: int, at: seq<int>)
    requires 0 <= ttl && cfg.maxHops < |s.states|
    ensures ScheduleFrom(s, cfg, ttl, now, at).launched == [] ==> ScheduleFrom(s, cfg, ttl, now, at).s == s
    decreases cfg.maxHops - ttl
  {
  }

  lemma ScheduledIsNotDone(w: World, cfg: Config, paused: bool, time: int, at: seq<int>)
    requires Inv(w, cfg) && ValidConfig(cfg) && Shaped(w.s, cfg) && !IsDone(w.s, cfg)
    ensures var s' := ThenSchedule(w, cfg, paused, time, at).s; |s'.states| == |w.s.states| && !IsDone(s', cfg)
  {
    hide Inv, IsAddress, ScheduleFrom;
    SchedulingKeepsShape(w.s, cfg, cfg.beginHop, time, at);
    NothingLaunched(w.s, cfg, cfg.beginHop, time, at);
    ReadyKeeps(w, cfg, paused, time, at);
    InFlightCounts(ThenSchedule(w, cfg, paused, time, at), cfg);
    TokensCount(ScheduleReady(w.s, cfg, paused, time, at).launched, w.s.generation);
  }

  lemma StepNoticesEnd(w: World, cfg: Config, i: Input)
    requires Inv(w, cfg) && Enabled(w, i) && ValidConfig(cfg) && Shaped(w.s, cfg) && EndIsNoticed(w, cfg)
    ensures EndIsNoticed(Step(w, cfg, i), cfg)
  {
    hide InvAt, IsDone, ThenSchedule, ProcessResult, Contract, IsAddress, HandleReset, Meta.ProcessResult, PatchMetadata;
    if i.ProbeDone? {
      ProcessingKeepsShape(w.s, cfg, i.cp, i.cancelled, i.fill, i.clock);
      ResultKeeps(w.s, cfg, w.out, w.events, i.cp, i.cancelled, i.fill, i.clock);
      var w1 := AfterResult(w, cfg, i);
      if !IsDone(w1.s, cfg) {
        ScheduledIsNotDone(w1, cfg, i.paused, i.time, i.at);
      }
    }
  }

  lemma BeginNoticesEnd(cfg: Config, paused: bool, time: int, at: seq<int>)
    requires ValidConfig(cfg) && Shaped(Begin(cfg, paused, time, at).s, cfg)
    ensures EndIsNoticed(Begin(cfg, paused, time, at), cfg)
  {
    hide InvAt, ThenSchedule, IsAddress;
    var idle := World(Initial(cfg), multiset{}, [], multiset{}, [], 0, false);
    InitialOk(cfg);
    assert !idle.s.states[cfg.beginHop].disabled && idle.s.states[cfg.beginHop].completed == 0;
    ScheduledIsNotDone(idle, cfg, paused, time, at);
  }

  // ----- The bound -----

  /** The state is in order in every respect that the end depends on. */
  ghost predicate InOrder(w: World, cfg: Config) {
    && Inv(w, cfg) && ValidConfig(cfg) && Shaped(w.s, cfg)
    && LookupsInOrder(w, cfg) && EndIsNoticed(w, cfg)
  }

  /** A result, a late enough tick with nothing to wait for but work left, or a
      lookup of this generation that returns. */
  ghost predicate Counts(w: World, cfg: Config, i: Input)
    requires 0 <= cfg.beginHop && cfg.maxHops < |w.s.states|
  {
    || i.ProbeDone?
    || (i.LookupDone? && i.gen == w.s.generation)
    || (LateTick(w, i) && w.out == multiset{} && !ProbesDone(w.s, cfg))
  }

  ghost function Counted(w: World, cfg: Config, inputs: seq<Input>): nat
    requires ValidConfig(cfg) && Shaped(w.s, cfg)
    decreases |inputs|
  {
    if inputs == [] then 0
    else (if Counts(w, cfg, inputs[0]) then 1 else 0) + Counted(Step(w, cfg, inputs[0]), cfg, inputs[1..])
  }

  /** What a run may still need: a result pays nine and costs at most two lookups
      of four returns each. */
  ghost function Bound(w: World, cfg: Config): int
    requires 0 <= cfg.beginHop && cfg.maxHops < |w.s.states|
  {
    9 * Rank(w.s, cfg) + Potential(w.s.meta)
  }

  lemma StepKeepsOrder(w: World, cfg: Config, i: Input)
    requires InOrder(w, cfg) && Enabled(w, i) && (!cfg.meta.dn42 || !cfg.asyncMetadata)
    ensures InOrder(Step(w, cfg, i), cfg)
  {
    hide Inv, ValidConfig, Shaped, Step, Enabled, LookupsInOrder, EndIsNoticed;
    StepKeeps(w, cfg, i);
    MetaAfterStep(w, cfg, i);
    StepNoticesEnd(w, cfg, i);
  }

  lemma StepLowersBound(w: World, cfg: Config, i: Input)
    requires InOrder(w, cfg) && Enabled(w, i) && Undisturbed(i) && Bounded(cfg)
    ensures Shaped(Step(w, cfg, i).s, cfg)
    ensures Bound(Step(w, cfg, i), cfg) + (if Counts(w, cfg, i) then 1 else 0) <= Bound(w, cfg)
  {
    hide Inv, Step, LookupsInOrder, EndIsNoticed, Rank, Potential, ProbesDone, Enabled, IsAddress;
    StepKeeps(w, cfg, i);
    MetaAfterStep(w, cfg, i);
    StepLowersRank(w, cfg, i);
    if i.Tick? && Counts(w, cfg, i) {
      MoveLowersRank(w, cfg, i);
    }
    var w' := Step(w, cfg, i);
    assert Rank(w'.s, cfg) <= Rank(w.s, cfg) - ResultsOf(i);
    assert Potential(w'.s.meta) <= Potential(w.s.meta) + 8 * ResultsOf(i);
  }

  lemma BoundAtLeastZero(w: World, cfg: Config)
    requires InOrder(w, cfg) && Bounded(cfg)
    ensures Bound(w, cfg) >= 0
  {
    hide Inv, LookupsInOrder, EndIsNoticed, Rank, Potential;
    RankAtLeastZero(w, cfg);
  }

  lemma {:induction false} RunLowersBound(w: World, cfg: Config, inputs: seq<Input>)
    requires InOrder(w, cfg) && Bounded(cfg) && ValidConfig(cfg) && Shaped(w.s, cfg)
    requires ValidRun(w, cfg, inputs) && AllUndisturbed(inputs)
    ensures InOrder(Run(w, cfg, inputs), cfg)
    ensures Counted(w, cfg, inputs) + Bound(Run(w, cfg, inputs), cfg) <= Bound(w, cfg)
    decreases |inputs|
  {
    hide InOrder, Step, Enabled, Counts, Bound, Undisturbed, ValidConfig, Shaped;
    OrderShapes(w, cfg);
    if inputs != [] {
      StepKeepsOrder(w, cfg, inputs[0]);
      StepLowersBound(w, cfg, inputs[0]);
      OrderShapes(Step(w, cfg, inputs[0]), cfg);
      RunLowersBound(Step(w, cfg, inputs[0]), cfg, inputs[1..]);
    }
  }

  lemma OrderShapes(w: World, cfg: Config)
    requires InOrder(w, cfg)
    ensures ValidConfig(cfg) && Shaped(w.s, cfg) && 0 <= cfg.beginHop && cfg.maxHops < |w.s.states|
  {
    hide Inv, LookupsInOrder, EndIsNoticed, IsAddress;
  }

  /** An unfinished run can go on by something that counts. */
  lemma SomethingCounts(w: World, cfg: Config) returns (i: Input)
    requires InOrder(w, cfg) && Bounded(cfg) && !w.finished && ValidConfig(cfg) && Shaped(w.s, cfg)
    ensures Enabled(w, i) && Undisturbed(i) && Counts(w, cfg, i)
  {
    hide Inv, IsAddress, ProbesDone, NextMove, CalmState, Meta.WorldOk;
    NextMoveMovesOn(w);
    if !ProbesDone(w.s, cfg) {
      i := NextMove(w);
    } else if ip :| ip in w.s.meta.host.inFlight {
      i := LookupReturns(w, cfg, Meta.HostKind, ip);
    } else {
      assert w.s.meta.geo.inFlight != map[];
      var ip :| ip in w.s.meta.geo.inFlight;
      i := LookupReturns(w, cfg, Meta.GeoKind, ip);
    }
  }

  lemma {:induction false} RunKeepsOrder(w: World, cfg: Config, inputs: seq<Input>)
    requires InOrder(w, cfg) && ValidConfig(cfg) && Shaped(w.s, cfg) && ValidRun(w, cfg, inputs)
    requires !cfg.meta.dn42 || !cfg.asyncMetadata
    ensures InOrder(Run(w, cfg, inputs), cfg)
    decreases |inputs|
  {
    hide InOrder, Step, Enabled, ValidConfig, Shaped;
    if inputs != [] {
      StepKeepsOrder(w, cfg, inputs[0]);
      RunKeepsOrder(Step(w, cfg, inputs[0]), cfg, inputs[1..]);
    }
  }

  lemma ReachableInOrder(w: World, cfg: Config)
    requires Reachable(w, cfg) && (!cfg.meta.dn42 || !cfg.asyncMetadata)
    ensures InOrder(w, cfg)
  {
    hide Inv, IsAddress, InOrder, Meta.WorldOk, EndIsNoticed;
    var paused, time, at, inputs :| ReachedBy(w, cfg, paused, time, at, inputs);
    BeginShaped(cfg, paused, time, at);
    BeginInOrder(cfg, paused, time, at);
    RunKeepsOrder(Begin(cfg, paused, time, at), cfg, inputs);
  }

  lemma BeginInOrder(cfg: Config, paused: bool, time: int, at: seq<int>)
    requires ValidConfig(cfg) && Shaped(Begin(cfg, paused, time, at).s, cfg)
    ensures InOrder(Begin(cfg, paused, time, at), cfg)
  {
    hide Inv, IsAddress, Meta.WorldOk, EndIsNoticed, ThenSchedule, CalmState;
    BeginOk(cfg, paused, time, at);
    ReadyKeepsLookups(World(Initial(cfg), multiset{}, [], multiset{}, [], 0, false), cfg, paused, time, at);
    assert Lookups(Begin(cfg, paused, time, at)) == Meta.START;
    Meta.StartIsOk();
    EmptyIsCalm();
    BeginNoticesEnd(cfg, paused, time, at);
  }

  /** Without DN42, or without lookups in the background, and without reset or
      cancellation: results, late enough ticks and returning lookups, in whatever
      order and whatever they bring, use up a bound given by the state, and the
      run can go on by one of them as long as the loop has not ended.  So the
      loop ends, with every TTL in use probed exactly as often as asked. */
  lemma EveryRunEnds(w: World, cfg: Config, inputs: seq<Input>)
    requires Reachable(w, cfg) && Bounded(cfg) && Shaped(w.s, cfg)
    requires ValidRun(w, cfg, inputs) && AllUndisturbed(inputs)
    ensures var w' := Run(w, cfg, inputs);
      && 0 <= Bound(w', cfg) <= Bound(w, cfg) - Counted(w, cfg, inputs)
      && (!w'.finished ==> exists i :: Enabled(w', i) && Undisturbed(i) && Counts(w', cfg, i))
      && (w'.finished && !w.finished ==> Complete(w', cfg))
  {
    hide Inv, ValidRun, Run, Counted, Bound, InOrder, Complete, IsAddress, Counts, Shaped, Bounded;
    BoundedMeans(cfg);
    ReachableInOrder(w, cfg);
    RunLowersBound(w, cfg, inputs);
    var w' := Run(w, cfg, inputs);
    OrderShapes(w', cfg);
    BoundAtLeastZero(w', cfg);
    if !w'.finished {
      var i := SomethingCounts(w', cfg);
    } else if !w.finished {
      FinishedMeansDone(w, cfg, inputs);
      ReachableOk(w, cfg);
      RunKeeps(w, cfg, inputs);
      DoneIsComplete(w', cfg);
    }
  }

  lemma BoundedMeans(cfg: Config)
    requires Bounded(cfg)
    ensures cfg.maxPerHop > 0 && (!cfg.meta.dn42 || !cfg.asyncMetadata)
  {
  }

  lemma {:induction false} FinishedMeansDone(w: World, cfg: Config, inputs: seq<Input>)
    requires ValidConfig(cfg) && Shaped(w.s, cfg) && ValidRun(w, cfg, inputs) && !w.finished
    ensures var w' := Run(w, cfg, inputs); w'.finished ==> ProbesDone(w'.s, cfg)
    decreases |inputs|
  {
    hide Step, ValidConfig, ProbesDone, Shaped;
    if inputs != [] {
      var w1 := Step(w, cfg, inputs[0]);
      FinishedIsDone(w, cfg, inputs[0]);
      if w1.finished {
        assert inputs[1..] == [];
      } else {
        FinishedMeansDone(w1, cfg, inputs[1..]);
      }
    }
  }

  // ----- Exactly when it ends -----

  /** As many probes of the TTL were reported in this generation as the budget asks. */
  ghost predicate ReportedOften(w: World, cfg: Config, t: int) {
    Probes(w.events, t, w.s.generation) == cfg.maxPerHop
  }

  /** So it is for every TTL in use, and no probe and no
      lookup of this generation is on its way. */
  ghost predicate NothingToDo(w: World, cfg: Config) {
    && cfg.maxPerHop > 0 && |w.out| == 0
    && (forall t :: cfg.beginHop <= t <= cfg.maxHops && (w.s.knownFinal < 1 || t <= w.s.knownFinal) ==> ReportedOften(w, cfg, t))
    && (forall l :: l in w.running ==> l.gen != w.s.generation)
  }

  lemma ProbesDoneExactly(w: World, cfg: Config)
    requires Inv(w, cfg) && ValidConfig(cfg) && Shaped(w.s, cfg)
    ensures ProbesDone(w.s, cfg) <==>
      && cfg.maxPerHop > 0 && |w.out| == 0
      && (forall t :: cfg.beginHop <= t <= cfg.maxHops && (w.s.knownFinal < 1 || t <= w.s.knownFinal) ==> ReportedOften(w, cfg, t))
  {
    hide SentSum, Probes, IsAddress;
    var s := w.s;
    if ProbesDone(s, cfg) {
      forall t | cfg.beginHop <= t <= cfg.maxHops && (s.knownFinal < 1 || t <= s.knownFinal)
        ensures ReportedOften(w, cfg, t)
      {
        assert HopOk(s, cfg, w.out, w.events, s.knownFinal, t);
      }
    } else if cfg.maxPerHop > 0 && |w.out| == 0 {
      var t :| cfg.beginHop <= t <= EffectiveMax(s, cfg) && !s.states[t].disabled &&
        !(s.states[t].completed >= cfg.maxPerHop && s.states[t].inFlightCount <= 0);
      assert HopOk(s, cfg, w.out, w.events, s.knownFinal, t);
      assert w.out[Token(t, s.generation)] == 0;
      assert !ReportedOften(w, cfg, t);
    }
  }

  /** The tables of running lookups are empty exactly when none of this generation
      is on its way. */
  lemma NoLookupsExactly(w: World, cfg: Config)
    requires Meta.WorldOk(Lookups(w))
    ensures |w.s.meta.geo.inFlight| == 0 && |w.s.meta.host.inFlight| == 0 <==>
      forall l :: l in w.running ==> l.gen != w.s.generation
  {
    hide Meta.KeyOk, Meta.Since;
    var gen := w.s.generation;
    if l :| l in w.running && l.gen == gen {
      assert Meta.EntryOk(w.s.meta, l.kind, l.ip, gen, w.running, w.log, w.now);
      assert l.ip in Meta.TableOf(w.s.meta, l.kind).inFlight;
    }
    if |w.s.meta.geo.inFlight| != 0 {
      var ip :| ip in w.s.meta.geo.inFlight;
      assert Meta.EntryOk(w.s.meta, Meta.GeoKind, ip, gen, w.running, w.log, w.now);
      assert Meta.Lookup(Meta.GeoKind, ip, gen) in w.running;
    }
    if |w.s.meta.host.inFlight| != 0 {
      var ip :| ip in w.s.meta.host.inFlight;
      assert Meta.EntryOk(w.s.meta, Meta.HostKind, ip, gen, w.running, w.log, w.now);
      assert Meta.Lookup(Meta.HostKind, ip, gen) in w.running;
    }
  }

  lemma FinishedThenDone(w: World, cfg: Config, i: Input)
    requires Inv(w, cfg) && Enabled(w, i) && ValidConfig(cfg) && Shaped(w.s, cfg)
    ensures Step(w, cfg, i).finished ==> IsDone(Step(w, cfg, i).s, cfg)
  {
    hide InvAt, IsDone, ProcessResult, Contract, IsAddress, HandleReset, Meta.ProcessResult, PatchMetadata;
  }

  lemma {:induction false} RunNoticesEnd(w: World, cfg: Config, inputs: seq<Input>)
    requires Inv(w, cfg) && ValidConfig(cfg) && Shaped(w.s, cfg) && ValidRun(w, cfg, inputs)
    requires w.finished <==> IsDone(w.s, cfg)
    ensures Run(w, cfg, inputs).finished <==> IsDone(Run(w, cfg, inputs).s, cfg)
    decreases |inputs|
  {
    hide Inv, Step, ValidConfig, IsDone, Enabled;
    if inputs != [] {
      StepKeeps(w, cfg, inputs[0]);
      StepNoticesEnd(w, cfg, inputs[0]);
      FinishedThenDone(w, cfg, inputs[0]);
      RunNoticesEnd(Step(w, cfg, inputs[0]), cfg, inputs[1..]);
    }
  }

  /** In every reachable state, whatever resets, cancellations and pauses there
      were, the loop has ended if and only if there is nothing left to do. */
  lemma EndsExactly(w: World, cfg: Config)
    requires Reachable(w, cfg)
    ensures w.finished <==> NothingToDo(w, cfg)
  {
    hide Inv, IsAddress, Meta.WorldOk, IsDone, ThenSchedule, Run, ValidRun;
    var paused, time, at, inputs :| ReachedBy(w, cfg, paused, time, at, inputs);
    BeginShaped(cfg, paused, time, at);
    var w0 := Begin(cfg, paused, time, at);
    BeginOk(cfg, paused, time, at);
    BeginNoticesEnd(cfg, paused, time, at);
    BeginIsNotFinished(cfg, paused, time, at);
    RunNoticesEnd(w0, cfg, inputs);
    ReadyKeepsLookups(World(Initial(cfg), multiset{}, [], multiset{}, [], 0, false), cfg, paused, time, at);
    assert Lookups(w0) == Meta.START;
    Meta.StartIsOk();
    LookupsStayOk(w0, cfg, inputs);
    RunKeeps(w0, cfg, inputs);
    ProbesDoneExactly(w, cfg);
    NoLookupsExactly(w, cfg);
    DoneMeans(w, cfg);
  }

  lemma BeginIsNotFinished(cfg: Config, paused: bool, time: int, at: seq<int>)
    requires ValidConfig(cfg)
    ensures !Begin(cfg, paused, time, at).finished
  {
  }

  lemma DoneMeans(w: World, cfg: Config)
    requires ValidConfig(cfg) && Shaped(w.s, cfg)
    ensures IsDone(w.s, cfg) <==>
      ProbesDone(w.s, cfg) && |w.s.meta.geo.inFlight| == 0 && |w.s.meta.host.inFlight| == 0
  {
  }
}
