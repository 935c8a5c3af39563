/** How runs of the scheduler end: however the environment goes about it, results
    and late enough ticks use up the budgets; and from every state it can end. */
module MtrSchedulerEnding {
  import opened Text
  import opened MtrAccum
  import opened MtrRows
  import opened MtrScheduler
  import opened MtrSchedulerProofs
  import opened MtrSchedulerProgress
  import Meta = MtrMetadata

  // ----- Every run that gets answers and ticks -----

  /** An unpaused tick not before any waiting time. */
  ghost predicate LateTick(w: World, i: Input) {
    && i.Tick? && !i.reset && !i.tickPaused
    && forall t :: 0 <= t < |w.s.states| && w.s.states[t].nextAt.Some? ==> w.s.states[t].nextAt.value <= i.tickTime
  }

  /** What moves a run on: a result, or a late enough tick with nothing to wait for. */
  ghost predicate MovesOn(w: World, i: Input) {
    i.ProbeDone? || (LateTick(w, i) && w.out == multiset{})
  }

  ghost function Moves(w: World, cfg: Config, inputs: seq<Input>): nat
    requires ValidConfig(cfg) && Shaped(w.s, cfg)
    decreases |inputs|
  {
    if inputs == [] then 0
    else (if MovesOn(w, inputs[0]) then 1 else 0) + Moves(Step(w, cfg, inputs[0]), cfg, inputs[1..])
  }

  ghost predicate AllUndisturbed(inputs: seq<Input>) {
    forall k :: 0 <= k < |inputs| ==> Undisturbed(inputs[k])
  }

  lemma MoveLowersRank(w: World, cfg: Config, i: Input)
    requires Inv(w, cfg) && Enabled(w, i) && Undisturbed(i) && cfg.maxPerHop > 0 && MovesOn(w, i)
    requires Shaped(w.s, cfg) && ValidConfig(cfg) && !ProbesDone(w.s, cfg)
    ensures Rank(Step(w, cfg, i).s, cfg) < Rank(w.s, cfg)
  {
    hide Inv, ProbesDone, Rank, ScheduleFrom, IsAddress;
    StepLowersRank(w, cfg, i);
    if i.Tick? {
      InFlightCounts(w, cfg);
      LateTickLaunches(w, cfg, i);
    }
  }

  lemma StepLowersOrKeepsRank(w: World, cfg: Config, i: Input)
    requires Inv(w, cfg) && Enabled(w, i) && Undisturbed(i) && cfg.maxPerHop > 0
    requires Shaped(w.s, cfg) && ValidConfig(cfg)
    ensures Rank(Step(w, cfg, i).s, cfg) <= Rank(w.s, cfg)
  {
    hide Inv, Rank, LaunchesOf, IsAddress;
    StepLowersRank(w, cfg, i);
  }

  /** Once the probes are done, nothing is launched any more. */
  lemma NothingLaunchable(s: Sched, cfg: Config, ttl: int, now: int, at: seq<int>)
    requires ValidConfig(cfg) && Shaped(s, cfg) && cfg.beginHop <= ttl
    requires ProbesDone(s, cfg) && forall t :: cfg.beginHop <= t <= cfg.maxHops ==> s.states[t].inFlightCount >= 0
    ensures ScheduleFrom(s, cfg, ttl, now, at) == Scheduled(s, [])
    decreases cfg.maxHops - ttl
  {
    if ttl <= EffectiveMax(s, cfg) && s.inFlight < cfg.parallelism {
      assert !CanLaunch(s, cfg, ttl, now);
      NothingLaunchable(s, cfg, ttl + 1, now, at);
    }
  }

  lemma CountsNotNegative(s: Sched, cfg: Config, out: multiset<Token>, events: seq<ProbeEvent>, d: int)
    requires InvAt(s, cfg, out, events, d)
    ensures forall t :: cfg.beginHop <= t <= cfg.maxHops ==> s.states[t].inFlightCount >= 0
  {
    forall t | cfg.beginHop <= t <= cfg.maxHops ensures s.states[t].inFlightCount >= 0 {
      NotNegative(s, cfg, out, events, d, t);
    }
  }

  lemma DoneStays(w: World, cfg: Config, i: Input)
    requires Inv(w, cfg) && Enabled(w, i) && Undisturbed(i)
    requires Shaped(w.s, cfg) && ValidConfig(cfg) && ProbesDone(w.s, cfg)
    ensures ProbesDone(Step(w, cfg, i).s, cfg)
  {
    hide InvAt, Contract, IsAddress, Meta.ProcessResult, PatchMetadata, ScheduleFrom;
    InFlightCounts(w, cfg);
    CountsNotNegative(w.s, cfg, w.out, w.events, w.s.knownFinal);
    if i.Tick? {
      NothingLaunchable(w.s, cfg, cfg.beginHop, i.tickTime, i.tickAt);
    }
  }

  lemma {:induction false} MovesUseUpRank(w: World, cfg: Config, inputs: seq<Input>)
    requires Inv(w, cfg) && cfg.maxPerHop > 0 && ValidConfig(cfg) && Shaped(w.s, cfg)
    requires ValidRun(w, cfg, inputs) && AllUndisturbed(inputs)
    ensures var w' := Run(w, cfg, inputs);
      && Inv(w', cfg)
      && (ProbesDone(w.s, cfg) ==> ProbesDone(w'.s, cfg))
      && (ProbesDone(w'.s, cfg) || Moves(w, cfg, inputs) + Rank(w'.s, cfg) <= Rank(w.s, cfg))
    decreases |inputs|
  {
    hide Inv, Step, ValidConfig, Enabled, Rank, ProbesDone, MovesOn, Undisturbed, Shaped;
    RankAtLeastZero(w, cfg);
    if inputs != [] {
      StepKeeps(w, cfg, inputs[0]);
      if ProbesDone(w.s, cfg) {
        DoneStays(w, cfg, inputs[0]);
      } else if MovesOn(w, inputs[0]) {
        MoveLowersRank(w, cfg, inputs[0]);
      } else {
        StepLowersOrKeepsRank(w, cfg, inputs[0]);
      }
      MovesUseUpRank(Step(w, cfg, inputs[0]), cfg, inputs[1..]);
    }
  }

  /** Every TTL in use has exactly the budgeted number of probes, completed and
      aggregated, and nothing is on its way. */
  ghost predicate Complete(w: World, cfg: Config) {
    && |w.out| == 0
    && forall t :: cfg.beginHop <= t <= EffectiveMax(w.s, cfg) ==>
         0 <= t < |w.s.states| && w.s.states[t].completed == cfg.maxPerHop && SentSum(RowsAt(w.s.agg, t)) == cfg.maxPerHop
  }

  lemma DoneIsComplete(w: World, cfg: Config)
    requires Inv(w, cfg) && ValidConfig(cfg) && Shaped(w.s, cfg) && ProbesDone(w.s, cfg)
    ensures Complete(w, cfg)
  {
    hide SentSum, Probes, IsAddress;
    forall t | cfg.beginHop <= t <= EffectiveMax(w.s, cfg)
      ensures w.s.states[t].completed == cfg.maxPerHop && SentSum(RowsAt(w.s.agg, t)) == cfg.maxPerHop
    {
      assert HopOk(w.s, cfg, w.out, w.events, w.s.knownFinal, t);
    }
  }

  /** No choice of schedule is needed.  A run from any reachable state, without
      reset or cancellation, in whatever order results, ticks and lookups come:
      either it has completed every TTL in use exactly as often as asked, or the
      results and late enough ticks in it were fewer than the rank it started
      with, each having used up some of it. */
  lemma EveryRunCompletes(w: World, cfg: Config, inputs: seq<Input>)
    requires Reachable(w, cfg) && cfg.maxPerHop > 0 && Shaped(w.s, cfg)
    requires ValidRun(w, cfg, inputs) && AllUndisturbed(inputs)
    ensures var w' := Run(w, cfg, inputs);
      Complete(w', cfg) || (Moves(w, cfg, inputs) < Rank(w.s, cfg) && Moves(w, cfg, inputs) <= Rank(w.s, cfg) - Rank(w'.s, cfg))
  {
    hide Inv, ValidRun, Run, Moves, Rank, ProbesDone, Complete, IsAddress, Shaped;
    ReachableOk(w, cfg);
    MovesUseUpRank(w, cfg, inputs);
    var w' := Run(w, cfg, inputs);
    RankAtLeastZero(w', cfg);
    if ProbesDone(w'.s, cfg) {
      DoneIsComplete(w', cfg);
    } else {
      RankLeft(w', cfg);
    }
  }

  /** While the probes are not done, some rank is left for the next move. */
  lemma RankLeft(w: World, cfg: Config)
    requires Inv(w, cfg) && cfg.maxPerHop > 0 && ValidConfig(cfg) && Shaped(w.s, cfg) && !ProbesDone(w.s, cfg)
    ensures Rank(w.s, cfg) > 0
  {
    hide Inv, Step, Enabled, Rank, ProbesDone, Undisturbed, NextMove, MovesOn;
    var open := w.(finished := false);
    NextMoveMovesOn(open);
    SameInv(w, open, cfg);
    MoveLowersRank(open, cfg, NextMove(open));
    StepKeeps(open, cfg, NextMove(open));
    RankAtLeastZero(Step(open, cfg, NextMove(open)), cfg);
  }

  lemma SameInv(w: World, w': World, cfg: Config)
    requires Inv(w, cfg) && w' == w.(finished := w'.finished)
    ensures Inv(w', cfg)
  {
  }

  // ----- From every state there is a way to the end -----

  lemma {:induction false} ConcatRuns(w: World, cfg: Config, a: seq<Input>, b: seq<Input>)
    requires ValidConfig(cfg) && Shaped(w.s, cfg) && ValidRun(w, cfg, a) && ValidRun(Run(w, cfg, a), cfg, b)
    ensures ValidRun(w, cfg, a + b) && Run(w, cfg, a + b) == Run(Run(w, cfg, a), cfg, b)
    decreases |a|
  {
    hide Step, Enabled, ValidConfig, Shaped;
    if a == [] {
      assert a + b == b;
    } else {
      ConcatRuns(Step(w, cfg, a[0]), cfg, a[1..], b);
      assert (a + b)[1..] == a[1..] + b;
    }
  }

  lemma OneInput(w: World, cfg: Config, i: Input)
    requires ValidConfig(cfg) && Shaped(w.s, cfg) && Enabled(w, i)
    ensures ValidRun(w, cfg, [i]) && Run(w, cfg, [i]) == Step(w, cfg, i)
  {
    var none: seq<Input> := [];
    assert [i][1..] == none;
    assert ValidRun(Step(w, cfg, i), cfg, none);
  }

  /** A time not before any waiting time. */
  function Latest(states: seq<HopState>): int {
    if states == [] then 0
    else
      var t := Latest(states[..|states| - 1]);
      match states[|states| - 1].nextAt
      case Some(n) => if n > t then n else t
      case None => t
  }

  lemma {:induction false} LatestIsLate(states: seq<HopState>, t: int)
    requires 0 <= t < |states| && states[t].nextAt.Some?
    ensures states[t].nextAt.value <= Latest(states)
  {
    if t < |states| - 1 {
      LatestIsLate(states[..|states| - 1], t);
    }
  }

  /** A clock that stands still. */
  function Still(now: int): Meta.Clock {
    Meta.Clock(now, now, now, now)
  }

  /** The probe failed. */
  function Failure(t: Token, now: int): Input {
    ProbeDone(Completed(t.ttl, ProbeResult(t.ttl, false, "", 0, [], "", None), t.gen, true),
              false, Fill("", None), Still(now), true, 0, [])
  }

  /** An answer for what is outstanding, or else a late tick. */
  ghost function NextMove(w: World): Input {
    if w.out == multiset{} then Tick(false, false, Latest(w.s.states), [])
    else
      var t :| t in w.out;
      Failure(t, w.now)
  }

  lemma NextMoveMovesOn(w: World)
    requires !w.finished
    ensures Enabled(w, NextMove(w)) && Undisturbed(NextMove(w)) && MovesOn(w, NextMove(w))
  {
    if w.out == multiset{} {
      forall t | 0 <= t < |w.s.states| && w.s.states[t].nextAt.Some?
        ensures w.s.states[t].nextAt.value <= Latest(w.s.states)
      {
        LatestIsLate(w.s.states, t);
      }
    }
  }

  lemma NextMoveKeepsLookups(w: World, cfg: Config)
    requires Inv(w, cfg) && ValidConfig(cfg) && Shaped(w.s, cfg) && !w.finished
    ensures Lookups(Step(w, cfg, NextMove(w))) == Lookups(w)
  {
    hide Inv, IsAddress, Step, Meta.Step;
    NextMoveMovesOn(w);
    StepFollows(w, cfg, NextMove(w));
    NoLookups(Lookups(w), cfg, Still(w.now));
  }

  /** The loop reports its end only when the probes are done. */
  lemma FinishedIsDone(w: World, cfg: Config, i: Input)
    requires ValidConfig(cfg) && Shaped(w.s, cfg) && Enabled(w, i)
    ensures Step(w, cfg, i).finished ==> ProbesDone(Step(w, cfg, i).s, cfg)
  {
    hide IsAddress, ProcessResult, ProbesDone, Meta.ProcessResult, PatchMetadata, Contract;
  }

  lemma {:induction false} ProbesCanEnd(w: World, cfg: Config) returns (inputs: seq<Input>)
    requires Inv(w, cfg) && cfg.maxPerHop > 0 && ValidConfig(cfg) && Shaped(w.s, cfg)
    requires 0 <= cfg.beginHop && cfg.maxHops < |w.s.states| && (w.finished ==> ProbesDone(w.s, cfg))
    ensures ValidRun(w, cfg, inputs) && AllUndisturbed(inputs) && |inputs| <= Rank(w.s, cfg)
    ensures var w' := Run(w, cfg, inputs); Inv(w', cfg) && ProbesDone(w'.s, cfg) && Lookups(w') == Lookups(w)
    decreases if Rank(w.s, cfg) < 0 then 0 else Rank(w.s, cfg)
  {
    hide Inv, Step, ValidConfig, Enabled, Rank, ProbesDone, Undisturbed, Shaped, Lookups, NextMove, MovesOn;
    RankAtLeastZero(w, cfg);
    if ProbesDone(w.s, cfg) {
      inputs := [];
    } else {
      var i := NextMove(w);
      NextMoveMovesOn(w);
      StepKeeps(w, cfg, i);
      MoveLowersRank(w, cfg, i);
      NextMoveKeepsLookups(w, cfg);
      FinishedIsDone(w, cfg, i);
      var w1 := Step(w, cfg, i);
      RankAtLeastZero(w1, cfg);
      var rest := ProbesCanEnd(w1, cfg);
      inputs := [i] + rest;
      assert inputs[1..] == rest;
    }
  }

  // ----- The lookups -----

  /** Lookups on their way; a host lookup may be followed by a geo lookup. */
  function LookupsLeft(s: Meta.State): nat {
    2 * |s.host.inFlight| + |s.geo.inFlight|
  }

  /** What the lookup finds. */
  function Found(kind: Meta.Kind, ip: string): Meta.Patch {
    if kind.GeoKind? then Meta.Patch(ip, "", Some(Geo("found", "found"))) else Meta.Patch(ip, "found", None)
  }

  lemma Removed<K, V>(m: map<K, V>, k: K)
    requires k in m
    ensures |m - {k}| == |m| - 1
  {
    assert (m - {k}).Keys == m.Keys - {k};
    assert |m.Keys - {k}| == |m.Keys| - 1;
    assert |m - {k}| == |(m - {k}).Keys| && |m| == |m.Keys|;
  }

  lemma Added<K, V>(m: map<K, V>, k: K, v: V)
    ensures |m[k := v]| <= |m| + 1
  {
    assert m[k := v].Keys == m.Keys + {k};
    assert |m[k := v]| == |m[k := v].Keys| && |m| == |m.Keys|;
  }

  /** A lookup that finds something ends, and is not repeated. */
  lemma FoundEnds(s: Meta.State, kind: Meta.Kind, ip: string, cfg: Meta.Config, gen: nat, clock: Meta.Clock)
    requires ip != "" && ip in Meta.TableOf(s, kind).inFlight
    ensures LookupsLeft(Meta.ProcessResult(s, kind, Found(kind, ip), true, cfg, gen, clock).s) < LookupsLeft(s)
  {
    hide Meta.RetriesExhausted;
    Removed(Meta.TableOf(s, kind).inFlight, ip);
    Added(s.geo.inFlight, ip, gen);
    Meta.AskingKeepsFlights(s.geo, ip, clock.d);
    var one := Meta.CachePatch(Meta.ClearInFlight(s, kind, ip), kind, Found(kind, ip)).s;
    Meta.AskingKeepsFlights(one.geo, ip, clock.d);
    Meta.AskingKeepsFlights(one.host, ip, clock.c);
  }

  lemma LookupReturns(w: World, cfg: Config, kind: Meta.Kind, ip: string) returns (i: Input)
    requires Inv(w, cfg) && ValidConfig(cfg) && Shaped(w.s, cfg) && Meta.WorldOk(Lookups(w)) && !w.finished
    requires ip in Meta.TableOf(w.s.meta, kind).inFlight && ProbesDone(w.s, cfg)
    ensures Enabled(w, i) && Undisturbed(i) && i.LookupDone? && i.gen == w.s.generation
    ensures var w' := Step(w, cfg, i);
      && ProbesDone(w'.s, cfg) && Meta.WorldOk(Lookups(w')) && LookupsLeft(w'.s.meta) < LookupsLeft(w.s.meta)
  {
    hide Inv, IsAddress, ProbesDone, Meta.WorldOk, Meta.ProcessResult, PatchMetadata, LookupsLeft, IsDone;
    LookupRuns(w, kind, ip);
    i := LookupDone(kind, Found(kind, ip), w.s.generation, true, Still(w.now));
    DoneStays(w, cfg, i);
    StepFollows(w, cfg, i);
    Meta.StepKeepsWorld(Lookups(w), cfg.meta, LookupStep(w, cfg, i).value);
    FoundEnds(w.s.meta, kind, ip, cfg.meta, w.s.generation, Still(w.now));
  }

  lemma LookupRuns(w: World, kind: Meta.Kind, ip: string)
    requires Meta.WorldOk(Lookups(w)) && ip in Meta.TableOf(w.s.meta, kind).inFlight
    ensures Meta.Lookup(kind, ip, w.s.generation) in w.running && ip != ""
  {
    assert Meta.EntryOk(w.s.meta, kind, ip, w.s.generation, w.running, w.log, w.now);
    Meta.RunningHasIp(Lookups(w), kind, ip);
  }

  lemma {:induction false} LookupsCanEnd(w: World, cfg: Config) returns (inputs: seq<Input>)
    requires Inv(w, cfg) && ValidConfig(cfg) && Shaped(w.s, cfg) && Meta.WorldOk(Lookups(w)) && ProbesDone(w.s, cfg)
    ensures ValidRun(w, cfg, inputs) && AllUndisturbed(inputs) && |inputs| <= LookupsLeft(w.s.meta) + 1
    ensures var w' := Run(w, cfg, inputs); Inv(w', cfg) && w'.finished && ProbesDone(w'.s, cfg)
    decreases LookupsLeft(w.s.meta)
  {
    hide Inv, Step, ValidConfig, Enabled, ProbesDone, Undisturbed, Shaped, Lookups, LookupsLeft, Meta.WorldOk;
    if w.finished {
      inputs := [];
    } else if w.s.meta.geo.inFlight == map[] && w.s.meta.host.inFlight == map[] {
      inputs := EndsNow(w, cfg);
    } else {
      var i;
      if ip :| ip in w.s.meta.host.inFlight {
        i := LookupReturns(w, cfg, Meta.HostKind, ip);
      } else {
        var ip :| ip in w.s.meta.geo.inFlight;
        i := LookupReturns(w, cfg, Meta.GeoKind, ip);
      }
      StepKeeps(w, cfg, i);
      var rest := LookupsCanEnd(Step(w, cfg, i), cfg);
      inputs := [i] + rest;
      assert inputs[1..] == rest;
    }
  }

  /** With nothing left the next tick ends the loop. */
  lemma EndsNow(w: World, cfg: Config) returns (inputs: seq<Input>)
    requires Inv(w, cfg) && ValidConfig(cfg) && Shaped(w.s, cfg) && ProbesDone(w.s, cfg) && !w.finished
    requires w.s.meta.geo.inFlight == map[] && w.s.meta.host.inFlight == map[]
    ensures ValidRun(w, cfg, inputs) && AllUndisturbed(inputs) && |inputs| == 1
    ensures var w' := Run(w, cfg, inputs); Inv(w', cfg) && w'.finished && ProbesDone(w'.s, cfg)
  {
    hide Inv, IsAddress, ProbesDone;
    var i := Tick(false, true, 0, []);
    inputs := [i];
    OneInput(w, cfg, i);
    StepKeeps(w, cfg, i);
    DoneStays(w, cfg, i);
    assert w.out + Tokens([], w.s.generation) == w.out;
  }

  lemma ReachableLookupsOk(w: World, cfg: Config)
    requires Reachable(w, cfg)
    ensures Meta.WorldOk(Lookups(w))
  {
    hide Inv, IsAddress, Meta.WorldOk;
    var paused, time, at, inputs :| ReachedBy(w, cfg, paused, time, at, inputs);
    BeginShaped(cfg, paused, time, at);
    BeginOk(cfg, paused, time, at);
    ReadyKeepsLookups(World(Initial(cfg), multiset{}, [], multiset{}, [], 0, false), cfg, paused, time, at);
    assert Lookups(Begin(cfg, paused, time, at)) == Meta.START;
    Meta.StartIsOk();
    LookupsStayOk(Begin(cfg, paused, time, at), cfg, inputs);
  }

  /** From every reachable state of a run with a budget there is a continuation,
      no longer than the state itself says, without reset or cancellation, that
      ends the loop with every TTL in use probed exactly as often as asked. */
  lemma EveryRunCanFinish(w: World, cfg: Config) returns (inputs: seq<Input>)
    requires Reachable(w, cfg) && cfg.maxPerHop > 0 && Shaped(w.s, cfg) && !w.finished
    requires 0 <= cfg.beginHop && cfg.maxHops < |w.s.states|
    ensures ValidRun(w, cfg, inputs) && AllUndisturbed(inputs)
    ensures |inputs| <= Rank(w.s, cfg) + LookupsLeft(w.s.meta) + 1
    ensures Run(w, cfg, inputs).finished && Complete(Run(w, cfg, inputs), cfg)
  {
    hide Inv, ValidRun, Run, Rank, ProbesDone, Complete, Meta.WorldOk, LookupsLeft, Shaped;
    ReachableOk(w, cfg);
    ReachableLookupsOk(w, cfg);
    var first := ProbesCanEnd(w, cfg);
    var mid := Run(w, cfg, first);
    var second := LookupsCanEnd(mid, cfg);
    ConcatRuns(w, cfg, first, second);
    inputs := first + second;
    DoneIsComplete(Run(mid, cfg, second), cfg);
  }
}
