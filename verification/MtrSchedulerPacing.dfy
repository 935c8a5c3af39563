/** When probes are launched, told from a log of the launches: successive probes
    of a TTL are kept apart, and a scan launches exactly what is due. */
module MtrSchedulerPacing {
  import opened Text
  import opened MtrAccum
  import opened MtrRows
  import opened MtrScheduler
  import opened MtrSchedulerProofs
  import Meta = MtrMetadata

  // ----- The log -----

  /** A launch: the time of the scan and the clock reading taken at the launch. */
  datatype Entry = Entry(ttl: int, gen: nat, time: int, reading: int)

  function Entries(launched: seq<int>, gen: nat, time: int, at: seq<int>): (r: seq<Entry>)
    ensures |r| == |launched|
  {
    if launched == [] then []
    else [Entry(launched[0], gen, time, ReadingFor(at, launched[0], time))] + Entries(launched[1..], gen, time, at)
  }

  function ScanLog(s: Sched, cfg: Config, paused: bool, time: int, at: seq<int>): seq<Entry>
    requires 0 <= cfg.beginHop && cfg.maxHops < |s.states|
  {
    Entries(ScheduleReady(s, cfg, paused, time, at).launched, s.generation, time, at)
  }

  /** What one turn of the event loop launches. */
  ghost function TurnLog(w: World, cfg: Config, i: Input): seq<Entry>
    requires ValidConfig(cfg) && Shaped(w.s, cfg)
  {
    match i
    case ProbeDone(cp, cancelled, fill, clock, paused, time, at) =>
      ProcessingKeepsShape(w.s, cfg, cp, cancelled, fill, clock);
      var s := AfterResult(w, cfg, i).s;
      if IsDone(s, cfg) then [] else ScanLog(s, cfg, paused, time, at)
    case LookupDone(_, _, _, _, _) => []
    case LookupDropped(_) => []
    case Tick(reset, paused, time, at) => ScanLog(if reset then HandleReset(w.s) else w.s, cfg, paused, time, at)
  }

  ghost function RunLog(w: World, cfg: Config, inputs: seq<Input>, log: seq<Entry>): seq<Entry>
    requires ValidConfig(cfg) && Shaped(w.s, cfg)
    decreases |inputs|
  {
    if inputs == [] then log else RunLog(Step(w, cfg, inputs[0]), cfg, inputs[1..], log + TurnLog(w, cfg, inputs[0]))
  }

  /** The launches of a whole run, those at its beginning included. */
  ghost function LaunchLog(cfg: Config, paused: bool, time: int, at: seq<int>, inputs: seq<Input>): seq<Entry>
    requires ValidConfig(cfg) && Shaped(Begin(cfg, paused, time, at).s, cfg)
  {
    RunLog(Begin(cfg, paused, time, at), cfg, inputs, ScanLog(Initial(cfg), cfg, paused, time, at))
  }

  /** The clock reading of the latest launch of a TTL in a generation. */
  function LastReading(log: seq<Entry>, ttl: int, gen: nat): Option<int> {
    if log == [] then None
    else
      var e := log[|log| - 1];
      if e.ttl == ttl && e.gen == gen then Some(e.reading) else LastReading(log[..|log| - 1], ttl, gen)
  }

  /** The interval since the latest launch of the TTL has passed. */
  predicate Rested(log: seq<Entry>, cfg: Config, ttl: int, gen: nat, time: int) {
    var last := LastReading(log, ttl, gen);
    last.Some? ==> last.value + cfg.hopInterval <= time
  }

  ghost predicate Paced(log: seq<Entry>, cfg: Config) {
    forall j :: 0 <= j < |log| ==> Rested(log[..j], cfg, log[j].ttl, log[j].gen, log[j].time)
  }

  // ----- State and log -----

  predicate NextAgrees(h: HopState, cfg: Config, log: seq<Entry>, ttl: int, gen: nat) {
    var last := LastReading(log, ttl, gen);
    h.nextAt == if last.Some? then Some(last.value + cfg.hopInterval) else None
  }

  ghost predicate LogAgrees(s: Sched, cfg: Config, log: seq<Entry>) {
    && (forall t :: 0 <= t < |s.states| ==> NextAgrees(s.states[t], cfg, log, t, s.generation))
    && (forall k :: 0 <= k < |log| ==> log[k].gen <= s.generation)
    && Paced(log, cfg)
  }

  lemma OneMoreLaunch(log: seq<Entry>, e: Entry, ttl: int, gen: nat)
    ensures LastReading(log + [e], ttl, gen) ==
      if e.ttl == ttl && e.gen == gen then Some(e.reading) else LastReading(log, ttl, gen)
  {
    assert (log + [e])[..|log|] == log;
  }

  lemma PacedMore(log: seq<Entry>, cfg: Config, e: Entry)
    requires Paced(log, cfg) && Rested(log, cfg, e.ttl, e.gen, e.time)
    ensures Paced(log + [e], cfg)
  {
    hide Rested;
    var more := log + [e];
    forall j | 0 <= j < |more| ensures Rested(more[..j], cfg, more[j].ttl, more[j].gen, more[j].time) {
      assert more[..j] == log[..j];
      if j == |log| {
        assert log[..j] == log;
      }
    }
  }

  lemma LaunchLogged(s: Sched, cfg: Config, log: seq<Entry>, ttl: int, now: int, at: int)
    requires 0 <= ttl < |s.states| && LogAgrees(s, cfg, log) && CanLaunch(s, cfg, ttl, now)
    ensures LogAgrees(Launch(s, cfg, ttl, at), cfg, log + [Entry(ttl, s.generation, now, at)])
  {
    hide Paced;
    var s', e := Launch(s, cfg, ttl, at), Entry(ttl, s.generation, now, at);
    var more := log + [e];
    assert NextAgrees(s.states[ttl], cfg, log, ttl, s.generation);
    PacedMore(log, cfg, e);
    forall t | 0 <= t < |s'.states| ensures NextAgrees(s'.states[t], cfg, more, t, s'.generation) {
      assert NextAgrees(s.states[t], cfg, log, t, s.generation);
      OneMoreLaunch(log, e, t, s.generation);
    }
  }

  lemma {:induction false} ScheduleLogged(s: Sched, cfg: Config, log: seq<Entry>, ttl: int, now: int, at: seq<int>)
    requires 0 <= ttl && cfg.maxHops < |s.states| && LogAgrees(s, cfg, log)
    ensures var sch := ScheduleFrom(s, cfg, ttl, now, at);
      && sch.s.generation == s.generation && |sch.s.states| == |s.states|
      && LogAgrees(sch.s, cfg, log + Entries(sch.launched, s.generation, now, at))
    decreases cfg.maxHops - ttl
  {
    hide LogAgrees, ScheduleFrom, CanLaunch, Launch;
    ScheduleStep(s, cfg, ttl, now, at);
    var none: seq<Entry> := [];
    assert log + none == log;
    if ttl <= EffectiveMax(s, cfg) && s.inFlight < cfg.parallelism {
      assert EffectiveMax(s, cfg) <= cfg.maxHops;
      if CanLaunch(s, cfg, ttl, now) {
        var reading := ReadingFor(at, ttl, now);
        var s1, e := Launch(s, cfg, ttl, reading), Entry(ttl, s.generation, now, reading);
        LaunchLogged(s, cfg, log, ttl, now, reading);
        LaunchKeepsRest(s, cfg, ttl, reading);
        ScheduleLogged(s1, cfg, log + [e], ttl + 1, now, at);
        var rest := ScheduleFrom(s1, cfg, ttl + 1, now, at).launched;
        FirstEntry(log, ttl, rest, s.generation, now, at);
      } else {
        ScheduleLogged(s, cfg, log, ttl + 1, now, at);
      }
    }
  }

  lemma FirstEntry(log: seq<Entry>, ttl: int, rest: seq<int>, gen: nat, now: int, at: seq<int>)
    ensures log + Entries([ttl] + rest, gen, now, at) ==
      (log + [Entry(ttl, gen, now, ReadingFor(at, ttl, now))]) + Entries(rest, gen, now, at)
  {
    assert ([ttl] + rest)[1..] == rest;
  }

  ghost predicate SameNext(s: Sched, s': Sched) {
    && s'.generation == s.generation && |s'.states| == |s.states|
    && forall t :: 0 <= t < |s.states| ==> s'.states[t].nextAt == s.states[t].nextAt
  }

  lemma SameNextLogged(s: Sched, s': Sched, cfg: Config, log: seq<Entry>)
    requires SameNext(s, s') && LogAgrees(s, cfg, log)
    ensures LogAgrees(s', cfg, log)
  {
    hide Paced, LastReading;
    forall t | 0 <= t < |s'.states| ensures NextAgrees(s'.states[t], cfg, log, t, s'.generation) {
      assert NextAgrees(s.states[t], cfg, log, t, s.generation);
    }
  }

  lemma ErrorSameNext(s: Sched, cfg: Config, ttl: int, cancelled: bool)
    requires 0 <= ttl < |s.states| && cfg.beginHop >= 0 && cfg.maxHops < |s.states|
    ensures SameNext(s, ProcessError(s, cfg, ttl, cancelled).s)
  {
    hide ComputeIteration, UpdateRows;
  }

  lemma SuccessSameNext(s: Sched, cfg: Config, ttl: int, r: ProbeResult, fill: Fill, clock: Meta.Clock)
    requires 0 <= ttl < |s.states| && cfg.beginHop >= 0 && cfg.maxHops < |s.states|
    ensures SameNext(s, ProcessSuccess(s, cfg, ttl, r, fill, clock).s)
  {
    hide ComputeIteration, UpdateRows, ApplyCache, FetchAsync, AttemptOf, Meta.LaunchLookups;
  }

  lemma ResultSameNext(s: Sched, cfg: Config, cp: Completed, cancelled: bool, fill: Fill, clock: Meta.Clock)
    requires ValidConfig(cfg) && Shaped(s, cfg)
    ensures SameNext(s, ProcessResult(s, cfg, cp, cancelled, fill, clock).s)
  {
    hide ProcessError, ProcessSuccess, IsAddress;
    if cp.gen == s.generation && cfg.beginHop <= cp.ttl <= cfg.maxHops && !s.states[cp.ttl].disabled {
      var s2 := Popped(s, cp.ttl);
      assert SameNext(s, s2);
      ErrorSameNext(s2, cfg, cp.ttl, cancelled);
      SuccessSameNext(s2, cfg, cp.ttl, cp.result, fill, clock);
    }
  }

  lemma {:induction false} NoLaunchYet(log: seq<Entry>, ttl: int, gen: nat)
    requires forall k :: 0 <= k < |log| ==> log[k].gen < gen
    ensures LastReading(log, ttl, gen) == None
  {
    if log != [] {
      NoLaunchYet(log[..|log| - 1], ttl, gen);
    }
  }

  lemma ResetLogged(s: Sched, cfg: Config, log: seq<Entry>)
    requires LogAgrees(s, cfg, log)
    ensures LogAgrees(HandleReset(s), cfg, log) && |HandleReset(s).states| == |s.states|
  {
    hide Paced;
    var s' := HandleReset(s);
    forall t | 0 <= t < |s'.states| ensures NextAgrees(s'.states[t], cfg, log, t, s'.generation) {
      NoLaunchYet(log, t, s'.generation);
    }
  }

  lemma ScanLogged(s: Sched, cfg: Config, paused: bool, time: int, at: seq<int>, log: seq<Entry>)
    requires 0 <= cfg.beginHop && cfg.maxHops < |s.states| && LogAgrees(s, cfg, log)
    ensures LogAgrees(ScheduleReady(s, cfg, paused, time, at).s, cfg, log + ScanLog(s, cfg, paused, time, at))
  {
    hide LogAgrees, ScheduleFrom;
    if paused {
      assert log + ScanLog(s, cfg, paused, time, at) == log;
    } else {
      ScheduleLogged(s, cfg, log, cfg.beginHop, time, at);
    }
  }

  lemma StepLogged(w: World, cfg: Config, i: Input, log: seq<Entry>)
    requires ValidConfig(cfg) && Shaped(w.s, cfg) && LogAgrees(w.s, cfg, log)
    ensures LogAgrees(Step(w, cfg, i).s, cfg, log + TurnLog(w, cfg, i))
  {
    hide LogAgrees, ScheduleReady, ScanLog, ProcessResult, IsDone, IsAddress, HandleReset, Meta.ProcessResult, PatchMetadata;
    assert log + [] == log;
    match i
    case ProbeDone(cp, cancelled, fill, clock, paused, time, at) =>
      ProcessingKeepsShape(w.s, cfg, cp, cancelled, fill, clock);
      var s := AfterResult(w, cfg, i).s;
      ResultSameNext(w.s, cfg, cp, cancelled, fill, clock);
      SameNextLogged(w.s, s, cfg, log);
      ScanLogged(s, cfg, paused, time, at, log);
    case LookupDone(kind, patch, gen, parses, clock) =>
      SameNextLogged(w.s, ProcessMetadata(w.s, cfg, kind, patch, gen, parses, clock).s, cfg, log);
    case LookupDropped(l) =>
    case Tick(reset, paused, time, at) =>
      ResetLogged(w.s, cfg, log);
      ScanLogged(if reset then HandleReset(w.s) else w.s, cfg, paused, time, at, log);
  }

  lemma {:induction false} RunLogged(w: World, cfg: Config, inputs: seq<Input>, log: seq<Entry>)
    requires ValidConfig(cfg) && Shaped(w.s, cfg) && LogAgrees(w.s, cfg, log)
    ensures LogAgrees(Run(w, cfg, inputs).s, cfg, RunLog(w, cfg, inputs, log))
    decreases |inputs|
  {
    hide Step, LogAgrees, ValidConfig, TurnLog;
    if inputs != [] {
      StepLogged(w, cfg, inputs[0], log);
      RunLogged(Step(w, cfg, inputs[0]), cfg, inputs[1..], log + TurnLog(w, cfg, inputs[0]));
    }
  }

  lemma BeginLogged(cfg: Config, paused: bool, time: int, at: seq<int>)
    requires ValidConfig(cfg)
    ensures LogAgrees(Begin(cfg, paused, time, at).s, cfg, ScanLog(Initial(cfg), cfg, paused, time, at))
  {
    hide ScheduleReady, ScanLog, IsAddress;
    var none: seq<Entry> := [];
    ScanLogged(Initial(cfg), cfg, paused, time, at, none);
    assert none + ScanLog(Initial(cfg), cfg, paused, time, at) == ScanLog(Initial(cfg), cfg, paused, time, at);
  }

  lemma LogOfRun(cfg: Config, paused: bool, time: int, at: seq<int>, inputs: seq<Input>)
    requires ValidConfig(cfg) && Shaped(Begin(cfg, paused, time, at).s, cfg)
    ensures LogAgrees(Run(Begin(cfg, paused, time, at), cfg, inputs).s, cfg, LaunchLog(cfg, paused, time, at, inputs))
  {
    hide LogAgrees, ScanLog, IsAddress, Begin, Run, RunLog;
    BeginLogged(cfg, paused, time, at);
    RunLogged(Begin(cfg, paused, time, at), cfg, inputs, ScanLog(Initial(cfg), cfg, paused, time, at));
  }

  lemma {:induction false} LatestIs(log: seq<Entry>, i: nat, ttl: int, gen: nat)
    requires i < |log| && log[i].ttl == ttl && log[i].gen == gen
    requires forall k :: i < k < |log| ==> log[k].ttl != ttl || log[k].gen != gen
    ensures LastReading(log, ttl, gen) == Some(log[i].reading)
  {
    if i < |log| - 1 {
      LatestIs(log[..|log| - 1], i, ttl, gen);
    }
  }

  /** In every run two successive launches of a TTL in one generation are kept
      apart: the scan of the later one comes no earlier than the interval after
      the clock reading of the earlier one. */
  lemma LaunchesArePaced(cfg: Config, paused: bool, time: int, at: seq<int>, inputs: seq<Input>, i: nat, j: nat)
    requires ValidConfig(cfg) && Shaped(Begin(cfg, paused, time, at).s, cfg)
    requires var log := LaunchLog(cfg, paused, time, at, inputs);
      && i < j < |log| && log[i].ttl == log[j].ttl && log[i].gen == log[j].gen
      && forall k :: i < k < j ==> log[k].ttl != log[j].ttl || log[k].gen != log[j].gen
    ensures var log := LaunchLog(cfg, paused, time, at, inputs);
      log[j].time >= log[i].reading + cfg.hopInterval
  {
    hide LaunchLog, IsAddress, Begin, Run;
    LogOfRun(cfg, paused, time, at, inputs);
    var log := LaunchLog(cfg, paused, time, at, inputs);
    var e := log[j];
    LatestIs(log[..j], i, e.ttl, e.gen);
    assert Rested(log[..j], cfg, e.ttl, e.gen, e.time);
  }

  // ----- What a scan launches -----

  /** A TTL is due: not above the final one, with room among its probes on their
      way and in its budget, and rested. */
  ghost predicate Due(w: World, cfg: Config, log: seq<Entry>, ttl: int, time: int) {
    var outstanding := w.out[Token(ttl, w.s.generation)];
    && (w.s.knownFinal == -1 || ttl <= w.s.knownFinal)
    && outstanding < cfg.maxInFlightHop
    && (cfg.maxPerHop > 0 ==> Probes(w.events, ttl, w.s.generation) + outstanding < cfg.maxPerHop)
    && Rested(log, cfg, ttl, w.s.generation, time)
  }

  ghost function DueFrom(w: World, cfg: Config, log: seq<Entry>, ttl: int, time: int): seq<int>
    decreases cfg.maxHops - ttl
  {
    if ttl > cfg.maxHops then []
    else (if Due(w, cfg, log, ttl, time) then [ttl] else []) + DueFrom(w, cfg, log, ttl + 1, time)
  }

  function Take(xs: seq<int>, n: int): seq<int> {
    if n <= 0 then [] else if n >= |xs| then xs else xs[..n]
  }

  lemma DueIsLaunchable(w: World, cfg: Config, log: seq<Entry>, ttl: int, time: int)
    requires Inv(w, cfg) && LogAgrees(w.s, cfg, log) && cfg.beginHop <= ttl <= cfg.maxHops && ttl < |w.s.states|
    ensures Due(w, cfg, log, ttl, time) <==> ttl <= EffectiveMax(w.s, cfg) && CanLaunch(w.s, cfg, ttl, time)
  {
    hide SentSum, Probes, IsAddress, Paced, LastReading;
    assert HopOk(w.s, cfg, w.out, w.events, w.s.knownFinal, ttl);
    assert NextAgrees(w.s.states[ttl], cfg, log, ttl, w.s.generation);
  }

  /** s differs from w.s only by launches below ttl. */
  ghost predicate SameFrom(s: Sched, w: World, ttl: int) {
    && |s.states| == |w.s.states| && s.knownFinal == w.s.knownFinal
    && forall t :: ttl <= t < |s.states| ==> 0 <= t && s.states[t] == w.s.states[t]
  }

  lemma NothingDue(w: World, cfg: Config, log: seq<Entry>, ttl: int, time: int)
    requires ValidConfig(cfg) && Shaped(w.s, cfg) && ttl > EffectiveMax(w.s, cfg) && ttl > 0
    ensures DueFrom(w, cfg, log, ttl, time) == []
    decreases cfg.maxHops - ttl
  {
  }

  lemma {:induction false} ScanFrom(w: World, cfg: Config, log: seq<Entry>, s: Sched, ttl: int, time: int, at: seq<int>)
    requires Inv(w, cfg) && LogAgrees(w.s, cfg, log) && cfg.beginHop <= ttl && ValidConfig(cfg) && Shaped(w.s, cfg)
    requires SameFrom(s, w, ttl)
    ensures ScheduleFrom(s, cfg, ttl, time, at).launched ==
      Take(DueFrom(w, cfg, log, ttl, time), cfg.parallelism - s.inFlight)
    decreases cfg.maxHops - ttl
  {
    hide Inv, LogAgrees, ScheduleFrom, Due, DueFrom, Take, ValidConfig, Launch, CanLaunch, SameFrom;
    SameFromBasics(s, w, cfg, ttl, time);
    ConfigStarts(cfg);
    ScheduleStep(s, cfg, ttl, time, at);
    var room := cfg.parallelism - s.inFlight;
    if ttl > EffectiveMax(s, cfg) {
      NothingDue(w, cfg, log, ttl, time);
      TakeNone(room);
    } else if s.inFlight >= cfg.parallelism {
      TakeNothing(DueFrom(w, cfg, log, ttl, time), room);
    } else {
      DueIsLaunchable(w, cfg, log, ttl, time);
      DueStep(w, cfg, log, ttl, time);
      TakeStep(ttl, DueFrom(w, cfg, log, ttl + 1, time), room);
      var can, reading := CanLaunch(s, cfg, ttl, time), ReadingFor(at, ttl, time);
      SameFromNext(s, w, cfg, ttl, reading);
      ScanFrom(w, cfg, log, if can then Launch(s, cfg, ttl, reading) else s, ttl + 1, time, at);
    }
  }

  lemma ConfigStarts(cfg: Config)
    requires ValidConfig(cfg)
    ensures 1 <= cfg.beginHop <= cfg.maxHops
  {
  }

  lemma DueStep(w: World, cfg: Config, log: seq<Entry>, ttl: int, time: int)
    requires ttl <= cfg.maxHops
    ensures DueFrom(w, cfg, log, ttl, time) ==
      if Due(w, cfg, log, ttl, time) then [ttl] + DueFrom(w, cfg, log, ttl + 1, time) else DueFrom(w, cfg, log, ttl + 1, time)
  {
    hide Due;
  }

  lemma TakeNone(n: int)
    ensures Take([], n) == []
  {
  }

  lemma TakeNothing(xs: seq<int>, n: int)
    requires n <= 0
    ensures Take(xs, n) == []
  {
  }

  lemma TakeStep(x: int, xs: seq<int>, n: int)
    requires n > 0
    ensures Take([x] + xs, n) == [x] + Take(xs, n - 1)
  {
  }

  lemma SameFromBasics(s: Sched, w: World, cfg: Config, ttl: int, time: int)
    requires SameFrom(s, w, ttl)
    ensures |s.states| == |w.s.states| && EffectiveMax(s, cfg) == EffectiveMax(w.s, cfg)
    ensures 0 <= ttl < |s.states| ==> CanLaunch(s, cfg, ttl, time) == CanLaunch(w.s, cfg, ttl, time)
  {
  }

  lemma SameFromNext(s: Sched, w: World, cfg: Config, ttl: int, at: int)
    requires SameFrom(s, w, ttl) && 0 <= ttl < |s.states|
    ensures SameFrom(s, w, ttl + 1) && SameFrom(Launch(s, cfg, ttl, at), w, ttl + 1)
    ensures Launch(s, cfg, ttl, at).inFlight == s.inFlight + 1
  {
  }

  lemma ScanIsDue(w: World, cfg: Config, log: seq<Entry>, paused: bool, time: int, at: seq<int>)
    requires Inv(w, cfg) && LogAgrees(w.s, cfg, log) && ValidConfig(cfg) && Shaped(w.s, cfg)
    ensures ScanLog(w.s, cfg, paused, time, at) ==
      Entries(if paused then [] else Take(DueFrom(w, cfg, log, cfg.beginHop, time), cfg.parallelism - |w.out|),
              w.s.generation, time, at)
  {
    hide Inv, LogAgrees, ScheduleFrom, Due, IsAddress, Entries, DueFrom;
    OutIsCounted(w, cfg);
    ScanFrom(w, cfg, log, w.s, cfg.beginHop, time, at);
  }

  /** The world of a turn after its message, before its scan. */
  ghost function Settled(w: World, cfg: Config, i: Input): World
    requires ValidConfig(cfg) && Shaped(w.s, cfg)
  {
    if i.ProbeDone? then AfterResult(w, cfg, i)
    else if i.Tick? && i.reset then w.(s := HandleReset(w.s))
    else w
  }

  function TimeOf(i: Input): int {
    if i.Tick? then i.tickTime else if i.ProbeDone? then i.time else 0
  }

  function ReadingsOf(i: Input): seq<int> {
    if i.Tick? then i.tickAt else if i.ProbeDone? then i.at else []
  }

  ghost predicate Scans(w: World, cfg: Config, i: Input)
    requires ValidConfig(cfg) && Shaped(w.s, cfg)
  {
    match i
    case ProbeDone(cp, cancelled, fill, clock, paused, _, _) =>
      ProcessingKeepsShape(w.s, cfg, cp, cancelled, fill, clock);
      !paused && !IsDone(AfterResult(w, cfg, i).s, cfg)
    case LookupDone(_, _, _, _, _) => false
    case LookupDropped(_) => false
    case Tick(_, paused, _, _) => !paused
  }

  lemma TurnLaunches(w: World, cfg: Config, i: Input, log: seq<Entry>)
    requires Inv(w, cfg) && Enabled(w, i) && LogAgrees(w.s, cfg, log) && ValidConfig(cfg) && Shaped(w.s, cfg)
    ensures var w1 := Settled(w, cfg, i);
      TurnLog(w, cfg, i) ==
        Entries(if Scans(w, cfg, i) then Take(DueFrom(w1, cfg, log, cfg.beginHop, TimeOf(i)), cfg.parallelism - |w1.out|) else [],
                w1.s.generation, TimeOf(i), ReadingsOf(i))
  {
    hide InvAt, LogAgrees, ScanLog, ProcessResult, IsDone, IsAddress, HandleReset, Entries, DueFrom, Contract;
    match i
    case ProbeDone(cp, cancelled, fill, clock, paused, time, at) =>
      ProcessingKeepsShape(w.s, cfg, cp, cancelled, fill, clock);
      var w1 := AfterResult(w, cfg, i);
      ResultSameNext(w.s, cfg, cp, cancelled, fill, clock);
      SameNextLogged(w.s, w1.s, cfg, log);
      ResultKeeps(w.s, cfg, w.out, w.events, cp, cancelled, fill, clock);
      ScanIsDue(w1, cfg, log, paused, time, at);
      NoEntries(w1.s.generation, time, at);
    case LookupDone(kind, patch, gen, parses, clock) => NoEntries(w.s.generation, 0, []);
    case LookupDropped(l) => NoEntries(w.s.generation, 0, []);
    case Tick(reset, paused, time, at) =>
      var w1 := Settled(w, cfg, i);
      ResetLogged(w.s, cfg, log);
      ResetKeeps(w.s, cfg, w.out, w.events, w.s.knownFinal);
      ResetForgetsFinal(w.s);
      InvShape(w1.s, cfg, w1.out, w1.events, w1.s.knownFinal);
      ScanIsDue(w1, cfg, log, paused, time, at);
  }

  lemma NoEntries(gen: nat, time: int, at: seq<int>)
    ensures Entries([], gen, time, at) == []
  {
  }

  /** In every run each turn launches exactly the TTLs that are due once its
      message is processed, in order, as far as the parallelism allows, and none
      while paused; told from the probes on their way, the callbacks, the final
      TTL and the log. */
  lemma TurnsLaunchWhatIsDue(cfg: Config, paused: bool, time: int, at: seq<int>, inputs: seq<Input>, i: Input)
    requires ValidConfig(cfg) && Shaped(Begin(cfg, paused, time, at).s, cfg)
    requires ValidRun(Begin(cfg, paused, time, at), cfg, inputs)
    requires Enabled(Run(Begin(cfg, paused, time, at), cfg, inputs), i)
    ensures var w, log := Run(Begin(cfg, paused, time, at), cfg, inputs), LaunchLog(cfg, paused, time, at, inputs);
      var w1 := Settled(w, cfg, i);
      TurnLog(w, cfg, i) ==
        Entries(if Scans(w, cfg, i) then Take(DueFrom(w1, cfg, log, cfg.beginHop, TimeOf(i)), cfg.parallelism - |w1.out|) else [],
                w1.s.generation, TimeOf(i), ReadingsOf(i))
  {
    hide LaunchLog, IsAddress, Begin, Run, ValidRun, LogAgrees, Inv, Settled, Scans, Take, DueFrom, Entries, Enabled, TurnLog;
    LogOfRun(cfg, paused, time, at, inputs);
    BeginOk(cfg, paused, time, at);
    RunKeeps(Begin(cfg, paused, time, at), cfg, inputs);
    TurnLaunches(Run(Begin(cfg, paused, time, at), cfg, inputs), cfg, i, LaunchLog(cfg, paused, time, at, inputs));
  }

  lemma OutIsCounted(w: World, cfg: Config)
    requires Inv(w, cfg)
    ensures w.s.inFlight == |w.out|
  {
  }
}
