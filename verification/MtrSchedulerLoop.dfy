/** The scheduler object and the methods of its event loop, each proved against
    its function in MtrScheduler. */
module MtrSchedulerLoop {
  import opened Text
  import opened MtrAccum
  import opened MtrRows
  import opened MtrScheduler
  import opened MtrAggregator
  import opened MtrMetadataTables
  import Meta = MtrMetadata

  /** A round that holds one attempt is an update of that TTL alone. */
  function OneAttempt(hopCount: nat, ttl: int, a: Attempt): seq<seq<Attempt>> {
    seq(hopCount, i => if i == ttl - 1 then [a] else [])
  }

  lemma UpdateWithOne(view: View, hopCount: nat, ttl: int, a: Attempt)
    requires 1 <= ttl <= hopCount
    ensures MtrRows.Update(view, OneAttempt(hopCount, ttl, a)) == view[ttl := UpdateRows(RowsAt(view, ttl), ttl, [a])]
  {
    hide UpdateRows;
    var hops := OneAttempt(hopCount, ttl, a);
    assert AttemptsAt(hops, ttl) == [a];
    assert Probed(hops) == {ttl};
    var after := MtrRows.Update(view, hops);
    forall t | t in view && t != ttl ensures after[t] == view[t] {
      assert AttemptsAt(hops, t) == [];
      UpdateRowsNothing(view[t], t);
    }
  }

  class Scheduler {
    const cfg: Config
    const states: array<HopState>
    var generation: nat
    var knownFinal: int
    var inFlight: int
    const agg: Aggregator
    const meta: Metadata
    /** The calls of onProbe. */
    ghost var events: seq<ProbeEvent>

    ghost predicate Valid()
      reads this, states, agg
    {
      && ValidConfig(cfg) && states.Length == cfg.maxHops + 1 && agg.Valid() && meta.Valid()
      && (knownFinal == -1 || cfg.beginHop <= knownFinal <= cfg.maxHops)
    }

    ghost function Abs(): Sched
      reads this, states, agg, agg.Repr(), meta, meta.geo, meta.host
    {
      Sched(states[..], generation, knownFinal, inFlight, agg.Value(), meta.Val())
    }

    constructor (cfg: Config)
      requires ValidConfig(cfg)
      ensures Valid() && Abs() == Initial(cfg) && events == []
      ensures this.cfg == cfg
    {
      this.cfg := cfg;
      states := new HopState[cfg.maxHops + 1](i => IDLE);
      generation, knownFinal, inFlight := 0, -1, 0;
      agg := new Aggregator();
      meta := new Metadata();
      events := [];
    }

    function EffectiveMax(): (max: int)
      requires Valid()
      reads this, states, agg, agg.Repr(), meta, meta.geo, meta.host
      ensures max == MtrScheduler.EffectiveMax(Abs(), cfg)
    {
      if knownFinal > 0 && knownFinal < cfg.maxHops then knownFinal else cfg.maxHops
    }

    method ComputeIteration() returns (iteration: int)
      requires Valid()
      ensures iteration == MtrScheduler.ComputeIteration(Abs(), cfg)
    {
      var eMax := EffectiveMax();
      var minSnt: int := -1;
      var ttl := cfg.beginHop;
      while ttl <= eMax
        invariant cfg.beginHop <= ttl && -1 <= minSnt
        invariant MinCompleted(states[..], cfg.beginHop, eMax) == Lesser(minSnt, MinCompleted(states[..], ttl, eMax))
        decreases eMax - ttl
      {
        if !states[ttl].disabled {
          var snt := states[ttl].completed;
          if minSnt < 0 || snt < minSnt {
            minSnt := snt;
          }
        }
        ttl := ttl + 1;
      }
      iteration := if minSnt < 0 then 0 else minSnt;
    }

    method LaunchProbe(ttl: int, at: int)
      requires Valid() && 0 <= ttl < states.Length
      modifies this, states
      ensures Valid() && events == old(events)
      ensures Abs() == Launch(old(Abs()), cfg, ttl, at)
    {
      states[ttl] := states[ttl].(inFlightCount := states[ttl].inFlightCount + 1, nextAt := Some(at + cfg.hopInterval));
      inFlight := inFlight + 1;
    }

    method CanLaunchProbe(ttl: int, now: int) returns (can: bool)
      requires Valid() && 0 <= ttl < states.Length
      ensures can == CanLaunch(Abs(), cfg, ttl, now)
    {
      var state := states[ttl];
      if state.disabled || state.inFlightCount >= cfg.maxInFlightHop { return false; }
      if cfg.maxPerHop > 0 && state.completed + state.inFlightCount >= cfg.maxPerHop { return false; }
      if state.nextAt.Some? && now < state.nextAt.value { return false; }
      return true;
    }

    /** One TTL of the scan. */
    method LaunchIfReady(ttl: int, now: int, at: int) returns (can: bool)
      requires Valid() && 0 <= ttl < states.Length
      modifies this, states
      ensures Valid() && events == old(events) && can == CanLaunch(old(Abs()), cfg, ttl, now)
      ensures Abs() == if can then Launch(old(Abs()), cfg, ttl, at) else old(Abs())
    {
      hide Launch, CanLaunch, Unshared;
      ghost var s := Abs();
      can := CanLaunchProbe(ttl, now);
      assert Abs() == s;
      if can {
        LaunchProbe(ttl, at);
      }
    }

    /** Launches what is ready; launched lists the probed TTLs in order. */
    method ScheduleReady(paused: bool, now: int, at: seq<int>) returns (launched: seq<int>)
      requires Valid()
      modifies this, states
      ensures Valid() && events == old(events)
      ensures Scheduled(Abs(), launched) == MtrScheduler.ScheduleReady(old(Abs()), cfg, paused, now, at)
    {
      hide ScheduleFrom, Launch, CanLaunch;
      launched := [];
      if paused { return; }
      ghost var all := ScheduleFrom(Abs(), cfg, cfg.beginHop, now, at);
      var eMax := EffectiveMax();
      var ttl := cfg.beginHop;
      while ttl <= eMax
        invariant Valid() && cfg.beginHop <= ttl && eMax == MtrScheduler.EffectiveMax(Abs(), cfg)
        invariant events == old(events)
        invariant all.s == ScheduleFrom(Abs(), cfg, ttl, now, at).s
        invariant all.launched == launched + ScheduleFrom(Abs(), cfg, ttl, now, at).launched
        decreases eMax - ttl
      {
        ScheduleStep(Abs(), cfg, ttl, now, at);
        LaunchKeepsMax(Abs(), cfg, ttl, ReadingFor(at, ttl, now));
        if inFlight >= cfg.parallelism {
          assert launched + [] == launched;
          return;
        }
        var can := LaunchIfReady(ttl, now, ReadingFor(at, ttl, now));
        if can {
          launched := launched + [ttl];
        }
        ttl := ttl + 1;
      }
      ScheduleStep(Abs(), cfg, ttl, now, at);
      assert launched + [] == launched;
    }

    method DisableHigherTTLs(from: int)
      requires Valid() && 0 <= from
      modifies states
      ensures states[..] == DisableFrom(old(states[..]), from)
    {
      var ttl := from;
      while ttl <= cfg.maxHops
        invariant from <= ttl
        invariant forall t :: 0 <= t < states.Length ==>
          states[t] == if from <= t < ttl then old(states[t]).(disabled := true) else old(states[t])
        decreases cfg.maxHops - ttl
      {
        states[ttl] := states[ttl].(disabled := true);
        ttl := ttl + 1;
      }
    }

    method DetectDestination(ttl: int, r: ProbeResult)
      requires Valid() && cfg.beginHop <= ttl <= cfg.maxHops
      modifies this, states, agg
      ensures Valid() && agg.Repr() <= old(agg.Repr()) && events == old(events)
      ensures Abs() == MtrScheduler.DetectDestination(old(Abs()), cfg, ttl, r)
    {
      if !r.success || r.addr == "" || r.addr != cfg.dst { return; }
      if knownFinal < 0 {
        knownFinal := ttl;
        DisableHigherTTLs(ttl + 1);
        return;
      }
      if ttl < knownFinal {
        var oldFinal := knownFinal;
        knownFinal := ttl;
        DisableHigherTTLs(ttl + 1);
        agg.ClearHop(oldFinal);
      }
    }

    method MarkProbeCompleted(ttl: int)
      requires Valid() && 0 <= ttl < states.Length
      modifies states
      ensures Valid() && Abs() == MarkCompleted(old(Abs()), ttl)
    {
      states[ttl] := states[ttl].(consecutiveErrs := 0);
      states[ttl] := states[ttl].(completed := states[ttl].completed + 1);
    }

    method RecordAttempt(ttl: int, a: Attempt)
      requires Valid() && cfg.beginHop <= ttl <= cfg.maxHops
      modifies agg, agg.Repr()
      ensures Valid() && fresh(agg.Repr() - old(agg.Repr()))
      ensures Abs() == Record(old(Abs()), ttl, a)
    {
      hide MtrRows.Update, UpdateRows, ViewOf, Unshared, ValidConfig;
      ConfigBounds(cfg);
      UpdateWithOne(agg.Value(), cfg.maxHops, ttl, a);
      agg.Update(OneAttempt(cfg.maxHops, ttl, a));
    }

    method ProcessProbeError(ttl: int, cancelled: bool)
      requires Valid() && cfg.beginHop <= ttl <= cfg.maxHops
      modifies this, states, agg, agg.Repr()
      ensures Valid() && fresh(agg.Repr() - old(agg.Repr()))
      ensures var p := ProcessError(old(Abs()), cfg, ttl, cancelled);
        Abs() == p.s && events == old(events) + p.events && p.log == []
    {
      hide Record, MtrScheduler.ComputeIteration, ViewOf, Unshared;
      assert events + [] == events;
      if cancelled { return; }
      var errs := states[ttl].consecutiveErrs + 1;
      if errs < cfg.maxConsecErrs {
        states[ttl] := states[ttl].(consecutiveErrs := errs);
        return;
      }
      MarkProbeCompleted(ttl);
      RecordAttempt(ttl, TIMEOUT);
      var iteration := ComputeIteration();
      events := events + [ProbeEvent(ttl, generation, false, iteration)];
    }

    method ProcessProbeSuccess(ttl: int, r0: ProbeResult, fill: Fill, clock: Meta.Clock)
      requires Valid() && cfg.beginHop <= ttl <= cfg.maxHops
      modifies this, states, agg, agg.Repr(), meta, meta.geo, meta.host
      ensures Valid() && fresh(agg.Repr() - old(agg.Repr()))
      ensures var p := ProcessSuccess(old(Abs()), cfg, ttl, r0, fill, clock);
        Abs() == p.s && events == old(events) + p.events && meta.log == old(meta.log) + p.log
    {
      hide CountResult, MtrScheduler.DetectDestination, ViewOf, Unshared, ValidConfig;
      assert events + [] == events && meta.log + [] == meta.log;
      ConfigBounds(cfg);
      DetectDestination(ttl, r0);
      if cfg.maxPerHop > 0 && states[ttl].completed >= cfg.maxPerHop {
        states[ttl] := states[ttl].(consecutiveErrs := 0);
        return;
      }
      CountProbe(ttl, r0, fill, clock);
    }

    /** Starts the lookups that a result asks for. */
    method FetchMetadata(r: ProbeResult, clock: Meta.Clock)
      requires Valid()
      modifies meta, meta.geo, meta.host
      ensures Valid() && events == old(events) && agg.Repr() == old(agg.Repr())
      ensures var m := if FetchAsync(cfg, r)
          then Meta.LaunchLookups(old(meta.Val()), r.addr, r.host, r.geo, cfg.meta, generation, clock)
          else Meta.Outcome(old(meta.Val()), []);
        Abs() == old(Abs()).(meta := m.s) && meta.log == old(meta.log) + m.log
    {
      hide ViewOf, Unshared, Meta.LaunchLookups, FetchAsync, ValidConfig;
      assert meta.log + [] == meta.log;
      if FetchAsync(cfg, r) {
        meta.LaunchLookups(r.addr, r.host, r.geo, cfg.meta, generation, clock);
      }
    }

    method CountProbe(ttl: int, r0: ProbeResult, fill: Fill, clock: Meta.Clock)
      requires Valid() && cfg.beginHop <= ttl <= cfg.maxHops
      modifies this, states, agg, agg.Repr(), meta, meta.geo, meta.host
      ensures Valid() && fresh(agg.Repr() - old(agg.Repr()))
      ensures var p := CountResult(old(Abs()), cfg, ttl, r0, fill, clock);
        Abs() == p.s && events == old(events) + p.events && meta.log == old(meta.log) + p.log
    {
      hide Record, MtrScheduler.ComputeIteration, ViewOf, Unshared, Meta.LaunchLookups, FetchAsync, ApplyCache, AttemptOf,
        ValidConfig, MarkCompleted;
      ConfigBounds(cfg);
      MarkProbeCompleted(ttl);
      ghost var s2 := Abs();
      var r := ApplyCache(meta.Val(), r0);
      FetchMetadata(r, clock);
      ghost var m := meta.Val();
      RecordAttempt(ttl, AttemptOf(cfg, r, fill));
      RecordIgnoresMeta(s2, ttl, AttemptOf(cfg, r, fill), m);
      var iteration := ComputeIteration();
      events := events + [ProbeEvent(ttl, generation, r.success, iteration)];
    }

    method ProcessResult(cp: Completed, cancelled: bool, fill: Fill, clock: Meta.Clock)
      requires Valid()
      modifies this, states, agg, agg.Repr(), meta, meta.geo, meta.host
      ensures Valid() && fresh(agg.Repr() - old(agg.Repr()))
      ensures var p := MtrScheduler.ProcessResult(old(Abs()), cfg, cp, cancelled, fill, clock);
        Abs() == p.s && events == old(events) + p.events && meta.log == old(meta.log) + p.log
    {
      hide ProcessError, ProcessSuccess, ViewOf, Unshared;
      assert events + [] == events && meta.log + [] == meta.log;
      inFlight := inFlight - 1;
      if cp.gen != generation { return; }
      if cp.ttl < cfg.beginHop || cp.ttl > cfg.maxHops { return; }
      states[cp.ttl] := states[cp.ttl].(inFlightCount := states[cp.ttl].inFlightCount - 1);
      if states[cp.ttl].disabled { return; }
      if cp.failed {
        ProcessProbeError(cp.ttl, cancelled);
      } else {
        ProcessProbeSuccess(cp.ttl, cp.result, fill, clock);
      }
    }

    method ProcessMetadataResult(kind: Meta.Kind, patch: Meta.Patch, gen: nat, parses: bool, clock: Meta.Clock)
      requires Valid()
      modifies agg.Repr(), meta, meta.geo, meta.host
      ensures Valid() && agg.Repr() == old(agg.Repr())
      ensures var p := ProcessMetadata(old(Abs()), cfg, kind, patch, gen, parses, clock);
        Abs() == p.s && meta.log == old(meta.log) + p.log
    {
      hide ViewOf, Unshared, Meta.ProcessResult, PatchMetadata;
      assert meta.log + [] == meta.log;
      if gen != generation { return; }
      if patch.ip == "" { return; }
      meta.ProcessResult(kind, patch, parses, cfg.meta, gen, clock);
      var changed := agg.PatchMetadataByIP(patch.ip, patch.host, patch.geo);
    }

    method HandleReset(requested: bool)
      requires Valid()
      modifies this, states, agg, meta, meta.geo, meta.host
      ensures Valid() && events == old(events) && fresh(agg.Repr() - old(agg.Repr()))
      ensures Abs() == if requested then MtrScheduler.HandleReset(old(Abs())) else old(Abs())
      ensures meta.log == old(meta.log) + if requested then [Meta.WasReset] else []
    {
      hide ViewOf;
      assert meta.log + [] == meta.log;
      if !requested { return; }
      generation := generation + 1;
      for idx := 0 to states.Length
        modifies states
        invariant forall t :: 0 <= t < idx ==> states[t] == IDLE
      {
        states[idx] := IDLE;
      }
      meta.Clear();
      knownFinal := -1;
      agg.Reset();
    }

    method CheckDone() returns (done: bool)
      requires Valid()
      ensures done == IsDone(Abs(), cfg)
    {
      if cfg.maxPerHop <= 0 { return false; }
      var eMax := EffectiveMax();
      var ttl := cfg.beginHop;
      while ttl <= eMax
        invariant cfg.beginHop <= ttl
        invariant forall t :: cfg.beginHop <= t <= eMax && t < ttl ==>
          states[t].disabled || (states[t].completed >= cfg.maxPerHop && states[t].inFlightCount <= 0)
        decreases eMax - ttl
      {
        var state := states[ttl];
        if !state.disabled && (state.completed < cfg.maxPerHop || state.inFlightCount > 0) {
          assert Abs().states[ttl] == state;
          return false;
        }
        ttl := ttl + 1;
      }
      if inFlight != 0 { return false; }
      assert forall t :: cfg.beginHop <= t <= eMax ==> Abs().states[t] == states[t];
      return |meta.geo.inFlight| == 0 && |meta.host.inFlight| == 0;
    }

    method OnResult(i: Input) returns (finished: bool)
      requires Valid() && i.ProbeDone?
      modifies this, states, agg, agg.Repr(), meta, meta.geo, meta.host
      ensures Valid() && fresh(agg.Repr() - old(agg.Repr()))
      ensures var p := MtrScheduler.ProcessResult(old(Abs()), cfg, i.cp, i.cancelled, i.fill, i.clock);
        && events == old(events) + p.events && meta.log == old(meta.log) + p.log
        && |p.s.states| == cfg.maxHops + 1 && finished == IsDone(p.s, cfg)
        && Abs() == if finished then p.s else MtrScheduler.ScheduleReady(p.s, cfg, i.paused, i.time, i.at).s
    {
      hide ViewOf, Unshared, ValidConfig, MtrScheduler.ProcessResult, IsDone, MtrScheduler.ScheduleReady;
      ConfigBounds(cfg);
      ProcessResult(i.cp, i.cancelled, i.fill, i.clock);
      ghost var s := Abs();
      assert |s.states| == cfg.maxHops + 1;
      finished := CheckDone();
      assert Abs() == s;
      if !finished {
        var launched := ScheduleReady(i.paused, i.time, i.at);
      }
    }

    method OnLookup(i: Input) returns (finished: bool)
      requires Valid() && i.LookupDone?
      modifies agg.Repr(), meta, meta.geo, meta.host
      ensures Valid() && agg.Repr() == old(agg.Repr())
      ensures var p := ProcessMetadata(old(Abs()), cfg, i.kind, i.patch, i.gen, i.parses, i.mclock);
        && |p.s.states| == cfg.maxHops + 1 && cfg.beginHop >= 0 && finished == IsDone(p.s, cfg)
        && Abs() == p.s && meta.log == old(meta.log) + p.log
    {
      hide ViewOf, Unshared, ValidConfig, ProcessMetadata, IsDone;
      ConfigBounds(cfg);
      ProcessMetadataResult(i.kind, i.patch, i.gen, i.parses, i.mclock);
      ghost var s := Abs();
      assert |s.states| == cfg.maxHops + 1;
      finished := CheckDone();
      assert Abs() == s;
    }

    method OnTick(i: Input) returns (finished: bool)
      requires Valid() && i.Tick?
      modifies this, states, agg, meta, meta.geo, meta.host
      ensures Valid() && events == old(events) && fresh(agg.Repr() - old(agg.Repr()))
      ensures meta.log == old(meta.log) + if i.reset then [Meta.WasReset] else []
      ensures var s := if i.reset then MtrScheduler.HandleReset(old(Abs())) else old(Abs());
        && Abs() == MtrScheduler.ScheduleReady(s, cfg, i.tickPaused, i.tickTime, i.tickAt).s
        && |Abs().states| == cfg.maxHops + 1 && cfg.beginHop >= 0 && finished == IsDone(Abs(), cfg)
    {
      hide ViewOf, Unshared, ValidConfig, MtrScheduler.HandleReset, IsDone, MtrScheduler.ScheduleReady;
      ConfigBounds(cfg);
      HandleReset(i.reset);
      var launched := ScheduleReady(i.tickPaused, i.tickTime, i.tickAt);
      ghost var s := Abs();
      finished := CheckDone();
      assert Abs() == s;
    }

    /** One turn of the event loop, on whatever message comes first.  The world
        of MtrScheduler is carried along, so that a run of this object is a run
        of that model. */
    method Turn(i: Input, ghost w: World) returns (finished: bool, ghost w': World)
      requires Valid() && w.s == Abs() && Enabled(w, i) && !w.finished
      modifies this, states, agg, agg.Repr(), meta, meta.geo, meta.host
      ensures Valid() && fresh(agg.Repr() - old(agg.Repr()))
      ensures Shaped(w.s, cfg) && w' == Step(w, cfg, i) && w'.s == Abs() && w'.finished == finished
      ensures old(events) <= events && w'.events == w.events + events[|old(events)|..]
      ensures old(meta.log) <= meta.log && w'.log == w.log + meta.log[|old(meta.log)|..]
    {
      hide ViewOf, Unshared, ValidConfig, MtrScheduler.ProcessResult, ProcessMetadata, MtrScheduler.HandleReset, IsDone,
        ScheduleFrom, Enabled, Tokens, Meta.LookupsOf, Meta.ProcessResult, PatchMetadata;
      assert Shaped(w.s, cfg);
      w' := Step(w, cfg, i);
      assert w.events + [] == w.events && w.log + [] == w.log;
      match i {
        case ProbeDone(cp, cancelled, fill, clock, paused, time, at) => finished := OnResult(i);
        case LookupDone(kind, patch, gen, parses, clock) => finished := OnLookup(i);
        case LookupDropped(l) => finished := false;
        case Tick(reset, paused, time, at) => finished := OnTick(i);
      }
    }

    /** The whole event loop against the messages the environment sends: it
        ends in the state of the model's run on the same messages. */
    method RunLoop(paused: bool, time: int, at: seq<int>, inputs: seq<Input>) returns (ghost w: World)
      requires Valid() && Abs() == Initial(cfg)
      requires Shaped(Begin(cfg, paused, time, at).s, cfg) && ValidRun(Begin(cfg, paused, time, at), cfg, inputs)
      modifies this, states, agg, agg.Repr(), meta, meta.geo, meta.host
      ensures Valid() && w == Run(Begin(cfg, paused, time, at), cfg, inputs) && w.s == Abs()
    {
      hide ViewOf, Unshared, ValidConfig, ScheduleFrom, Step, Enabled, Initial;
      ghost var w0 := Begin(cfg, paused, time, at);
      var launched := ScheduleReady(paused, time, at);
      w := w0;
      var n := 0;
      assert inputs[0..] == inputs;
      while n < |inputs|
        invariant 0 <= n <= |inputs| && Valid() && fresh(agg.Repr() - old(agg.Repr()))
        invariant w.s == Abs() && ValidConfig(cfg) && Shaped(w.s, cfg)
        invariant ValidRun(w, cfg, inputs[n..])
        invariant Run(w, cfg, inputs[n..]) == Run(w0, cfg, inputs)
      {
        EnabledIsLive(w, inputs[n]);
        assert inputs[n..][1..] == inputs[n + 1..];
        var finished;
        finished, w := Turn(inputs[n], w);
        n := n + 1;
      }
    }
  }

  lemma EnabledIsLive(w: World, i: Input)
    ensures Enabled(w, i) ==> !w.finished
  {
  }

  lemma RecordIgnoresMeta(s: Sched, ttl: int, a: Attempt, m: Meta.State)
    ensures Record(s.(meta := m), ttl, a) == Record(s, ttl, a).(meta := m)
  {
    hide UpdateRows;
  }

  lemma LaunchKeepsMax(s: Sched, cfg: Config, ttl: int, at: int)
    requires 0 <= ttl < |s.states|
    ensures MtrScheduler.EffectiveMax(Launch(s, cfg, ttl, at), cfg) == MtrScheduler.EffectiveMax(s, cfg)
    ensures |Launch(s, cfg, ttl, at).states| == |s.states|
  {
  }

  function Lesser(a: int, b: int): int {
    if a < 0 then b else if b < 0 then a else if b < a then b else a
  }

  lemma ConfigBounds(cfg: Config)
    requires ValidConfig(cfg)
    ensures 1 <= cfg.beginHop <= cfg.maxHops
  {
  }
}
