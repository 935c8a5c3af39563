/** The per-hop MTR scheduler as a value: its state, the functions of its event
    loop, and the runs of that loop against an arbitrary environment. */
module MtrScheduler {
  import opened Text
  import opened MtrAccum
  import opened MtrRows
  import Meta = MtrMetadata

  const MAX_HOP_COUNT := 255
  const SECOND := 1_000_000_000

  /** A configuration as given by the caller; zero or less means "default". */
  datatype RawConfig = RawConfig(beginHop: int, maxHops: int, parallelRequests: int, hopInterval: int, timeout: int,
                                 maxPerHop: int, maxConsecErrors: int, maxInFlightPerHop: int, dst: string,
                                 fillGeo: bool, asyncMetadata: bool, meta: Meta.Config)

  datatype Config = Config(beginHop: int, maxHops: int, parallelism: int, hopInterval: int, maxConsecErrs: int,
                           maxInFlightHop: int, maxPerHop: int, dst: string, fillGeo: bool, asyncMetadata: bool,
                           meta: Meta.Config)

  /** The defaults applied by the constructor; None is the reported error. */
  function Normalize(raw: RawConfig): Option<Config> {
    var begin := if raw.beginHop <= 0 then 1 else raw.beginHop;
    var hops0 := if raw.maxHops <= 0 then 30 else raw.maxHops;
    var hops := if hops0 > MAX_HOP_COUNT then MAX_HOP_COUNT else hops0;
    if begin > hops then None
    else
      var interval := if raw.hopInterval <= 0 then SECOND else raw.hopInterval;
      var timeout := if raw.timeout <= 0 then 2 * SECOND else raw.timeout;
      Some(Config(begin, hops,
                  if raw.parallelRequests < 1 then 1 else raw.parallelRequests,
                  interval,
                  if raw.maxConsecErrors <= 0 then 10 else raw.maxConsecErrors,
                  if raw.maxInFlightPerHop <= 0 then (timeout + interval - 1) / interval + 1 else raw.maxInFlightPerHop,
                  raw.maxPerHop, raw.dst, raw.fillGeo, raw.asyncMetadata, raw.meta))
  }

  ghost predicate ValidConfig(c: Config) {
    && 1 <= c.beginHop <= c.maxHops <= MAX_HOP_COUNT
    && c.parallelism >= 1 && c.hopInterval > 0 && c.maxConsecErrs >= 1 && c.maxInFlightHop >= 1
    && IsAddress(c.dst)
  }

  lemma NormalizeGivesValid(raw: RawConfig)
    requires IsAddress(raw.dst)
    ensures Normalize(raw).Some? ==> ValidConfig(Normalize(raw).value)
    ensures Normalize(raw).None? <==>
      (if raw.beginHop <= 0 then 1 else raw.beginHop) >
      (if raw.maxHops <= 0 then 30 else if raw.maxHops > 255 then 255 else raw.maxHops)
  {
  }

  /** What the caller leaves out is set as documented: TTLs 1 to 30 and at most 255,
      one probe at a time, every second, two seconds of patience, ten errors in a
      row, and as many probes of a TTL on their way as fit into the patience and
      one more. */
  lemma DefaultsByTable(raw: RawConfig)
    requires Normalize(raw).Some?
    ensures var c := Normalize(raw).value;
      var timeout := if raw.timeout > 0 then raw.timeout else 2_000_000_000;
      && c.beginHop == (if raw.beginHop > 0 then raw.beginHop else 1)
      && c.maxHops == (if raw.maxHops > 255 then 255 else if raw.maxHops > 0 then raw.maxHops else 30)
      && c.parallelism == (if raw.parallelRequests > 0 then raw.parallelRequests else 1)
      && c.hopInterval == (if raw.hopInterval > 0 then raw.hopInterval else 1_000_000_000)
      && c.maxConsecErrs == (if raw.maxConsecErrors > 0 then raw.maxConsecErrors else 10)
      && (raw.maxInFlightPerHop > 0 ==> c.maxInFlightHop == raw.maxInFlightPerHop)
      && (raw.maxInFlightPerHop <= 0 ==>
            (c.maxInFlightHop - 2) * c.hopInterval < timeout <= (c.maxInFlightHop - 1) * c.hopInterval)
      && c.maxPerHop == raw.maxPerHop && c.dst == raw.dst && c.fillGeo == raw.fillGeo
      && c.asyncMetadata == raw.asyncMetadata && c.meta == raw.meta
  {
    var interval := if raw.hopInterval <= 0 then SECOND else raw.hopInterval;
    var timeout := if raw.timeout <= 0 then 2 * SECOND else raw.timeout;
    RoundedUp(timeout, interval);
  }

  lemma RoundedUp(x: int, step: int)
    requires step > 0
    ensures var n := (x + step - 1) / step; (n - 1) * step < x <= n * step
  {
    var n, r := (x + step - 1) / step, (x + step - 1) % step;
    assert x + step - 1 == n * step + r;
  }

  /** The outcome of one probe.  A missing address is the empty string. */
  datatype ProbeResult = ProbeResult(ttl: int, success: bool, addr: string, rtt: Duration, mpls: seq<string>, host: string,
                                     geo: Option<Geo>)

  datatype Completed = Completed(ttl: int, result: ProbeResult, gen: nat, failed: bool)

  /** nextAt is None for the zero time. */
  datatype HopState = HopState(completed: nat, inFlightCount: int, nextAt: Option<int>, disabled: bool, consecutiveErrs: nat)

  const IDLE := HopState(0, 0, None, false, 0)

  datatype Sched = Sched(states: seq<HopState>, generation: nat, knownFinal: int, inFlight: int, agg: View, meta: Meta.State)

  /** One call of the onProbe callback. */
  datatype ProbeEvent = ProbeEvent(ttl: int, gen: nat, success: bool, iteration: int)

  /** Effects of processing one message. */
  datatype Processed = Processed(s: Sched, events: seq<ProbeEvent>, log: seq<Meta.LogEntry>)

  /** What the synchronous metadata lookup found for the hop. */
  datatype Fill = Fill(host: string, geo: Option<Geo>)

  ghost predicate Shaped(s: Sched, cfg: Config) {
    |s.states| == cfg.maxHops + 1 && (s.knownFinal == -1 || cfg.beginHop <= s.knownFinal <= cfg.maxHops)
  }

  function Initial(cfg: Config): Sched
    requires cfg.maxHops >= 0
  {
    Sched(seq(cfg.maxHops + 1, i => IDLE), 0, -1, 0, map[], Meta.EMPTY)
  }

  function EffectiveMax(s: Sched, cfg: Config): int {
    if s.knownFinal > 0 && s.knownFinal < cfg.maxHops then s.knownFinal else cfg.maxHops
  }

  /** The least completed count of the enabled TTLs from ttl on; -1 for none. */
  function MinCompleted(states: seq<HopState>, ttl: int, eMax: int): int
    requires 0 <= ttl && eMax < |states|
    decreases eMax - ttl
  {
    if ttl > eMax then -1
    else
      var rest := MinCompleted(states, ttl + 1, eMax);
      if states[ttl].disabled then rest
      else if rest < 0 || states[ttl].completed < rest then states[ttl].completed else rest
  }

  function ComputeIteration(s: Sched, cfg: Config): int
    requires cfg.beginHop >= 0 && cfg.maxHops < |s.states|
  {
    var m := MinCompleted(s.states, cfg.beginHop, EffectiveMax(s, cfg));
    if m < 0 then 0 else m
  }

  function SetHop(s: Sched, ttl: int, h: HopState): Sched
    requires 0 <= ttl < |s.states|
  {
    s.(states := s.states[ttl := h])
  }

  // ----- Launching -----

  function Launch(s: Sched, cfg: Config, ttl: int, at: int): Sched
    requires 0 <= ttl < |s.states|
  {
    var h := s.states[ttl];
    SetHop(s, ttl, h.(inFlightCount := h.inFlightCount + 1, nextAt := Some(at + cfg.hopInterval))).(inFlight := s.inFlight + 1)
  }

  predicate CanLaunch(s: Sched, cfg: Config, ttl: int, now: int)
    requires 0 <= ttl < |s.states|
  {
    var h := s.states[ttl];
    && !h.disabled && h.inFlightCount < cfg.maxInFlightHop
    && !(cfg.maxPerHop > 0 && h.completed + h.inFlightCount >= cfg.maxPerHop)
    && !(h.nextAt.Some? && now < h.nextAt.value)
  }

  datatype Scheduled = Scheduled(s: Sched, launched: seq<int>)

  /** The clock reading taken when ttl is launched. */
  function ReadingFor(at: seq<int>, ttl: int, now: int): int {
    if 0 <= ttl < |at| then at[ttl] else now
  }

  function ScheduleFrom(s: Sched, cfg: Config, ttl: int, now: int, at: seq<int>): Scheduled
    requires 0 <= ttl && cfg.maxHops < |s.states|
    decreases cfg.maxHops - ttl
  {
    if ttl > EffectiveMax(s, cfg) || s.inFlight >= cfg.parallelism then Scheduled(s, [])
    else if CanLaunch(s, cfg, ttl, now) then
      var rest := ScheduleFrom(Launch(s, cfg, ttl, ReadingFor(at, ttl, now)), cfg, ttl + 1, now, at);
      Scheduled(rest.s, [ttl] + rest.launched)
    else ScheduleFrom(s, cfg, ttl + 1, now, at)
  }

  /** One step of the scan. */
  lemma ScheduleStep(s: Sched, cfg: Config, ttl: int, now: int, at: seq<int>)
    requires 0 <= ttl && cfg.maxHops < |s.states|
    ensures ttl > EffectiveMax(s, cfg) || s.inFlight >= cfg.parallelism ==>
      ScheduleFrom(s, cfg, ttl, now, at) == Scheduled(s, [])
    ensures ttl <= EffectiveMax(s, cfg) && s.inFlight < cfg.parallelism ==>
      var can := CanLaunch(s, cfg, ttl, now);
      var rest := ScheduleFrom(if can then Launch(s, cfg, ttl, ReadingFor(at, ttl, now)) else s, cfg, ttl + 1, now, at);
      ScheduleFrom(s, cfg, ttl, now, at) == Scheduled(rest.s, if can then [ttl] + rest.launched else rest.launched)
  {
    hide Launch, CanLaunch;
  }

  function ScheduleReady(s: Sched, cfg: Config, paused: bool, now: int, at: seq<int>): Scheduled
    requires 0 <= cfg.beginHop && cfg.maxHops < |s.states|
  {
    if paused then Scheduled(s, []) else ScheduleFrom(s, cfg, cfg.beginHop, now, at)
  }

  // ----- Results -----

  function DisableFrom(states: seq<HopState>, from: int): seq<HopState> {
    seq(|states|, i requires 0 <= i < |states| => if i >= from then states[i].(disabled := true) else states[i])
  }

  function DetectDestination(s: Sched, cfg: Config, ttl: int, r: ProbeResult): Sched {
    if !r.success || r.addr == "" || r.addr != cfg.dst then s
    else if s.knownFinal < 0 then s.(knownFinal := ttl, states := DisableFrom(s.states, ttl + 1))
    else if ttl < s.knownFinal then
      s.(knownFinal := ttl, states := DisableFrom(s.states, ttl + 1), agg := ClearHop(s.agg, s.knownFinal))
    else s
  }

  predicate BudgetReached(s: Sched, cfg: Config, ttl: int)
    requires 0 <= ttl < |s.states|
  {
    cfg.maxPerHop > 0 && s.states[ttl].completed >= cfg.maxPerHop
  }

  function MarkCompleted(s: Sched, ttl: int): Sched
    requires 0 <= ttl < |s.states|
  {
    SetHop(s, ttl, s.states[ttl].(consecutiveErrs := 0, completed := s.states[ttl].completed + 1))
  }

  ghost function Record(s: Sched, ttl: int, a: Attempt): (r: Sched)
    ensures r == s.(agg := r.agg)
  {
    s.(agg := s.agg[ttl := UpdateRows(RowsAt(s.agg, ttl), ttl, [a])])
  }

  const TIMEOUT := Attempt(false, "", "", 0, None, [])

  ghost function ProcessError(s: Sched, cfg: Config, ttl: int, cancelled: bool): Processed
    requires 0 <= ttl < |s.states| && cfg.beginHop >= 0 && cfg.maxHops < |s.states|
  {
    if cancelled then Processed(s, [], [])
    else
      var h := s.states[ttl];
      if h.consecutiveErrs + 1 < cfg.maxConsecErrs then
        Processed(SetHop(s, ttl, h.(consecutiveErrs := h.consecutiveErrs + 1)), [], [])
      else
        var s1 := Record(MarkCompleted(s, ttl), ttl, TIMEOUT);
        Processed(s1, [ProbeEvent(ttl, s.generation, false, ComputeIteration(s1, cfg))], [])
  }

  function ApplyCache(meta: Meta.State, r: ProbeResult): ProbeResult {
    if r.addr == "" || r.addr !in meta.cache then r
    else
      var c := meta.cache[r.addr];
      r.(host := if r.host == "" && c.host != "" then c.host else r.host,
         geo := if r.geo.None? && c.geo.Some? then c.geo else r.geo)
  }

  predicate FetchAsync(cfg: Config, r: ProbeResult) {
    && cfg.fillGeo && cfg.asyncMetadata && r.addr != ""
    && (cfg.meta.hasGeoSource || cfg.meta.rdns)
    && ((cfg.meta.hasGeoSource && r.geo.None?) || (cfg.meta.rdns && r.host == ""))
  }

  function AttemptOf(cfg: Config, r: ProbeResult, fill: Fill): Attempt {
    if !FetchAsync(cfg, r) && cfg.fillGeo && r.geo.None? && r.success && r.addr != "" then
      Attempt(r.success, r.addr, fill.host, r.rtt, fill.geo, r.mpls)
    else Attempt(r.success, r.addr, r.host, r.rtt, r.geo, r.mpls)
  }

  /** A result within the budget: counted, completed from the cache and by
      lookups, aggregated, reported. */
  ghost function CountResult(s1: Sched, cfg: Config, ttl: int, r0: ProbeResult, fill: Fill, clock: Meta.Clock): Processed
    requires 0 <= ttl < |s1.states| && cfg.beginHop >= 0 && cfg.maxHops < |s1.states|
  {
    var s2 := MarkCompleted(s1, ttl);
    var r := ApplyCache(s2.meta, r0);
    var m := if FetchAsync(cfg, r) then Meta.LaunchLookups(s2.meta, r.addr, r.host, r.geo, cfg.meta, s1.generation, clock)
             else Meta.Outcome(s2.meta, []);
    var s3 := Record(s2, ttl, AttemptOf(cfg, r, fill)).(meta := m.s);
    Processed(s3, [ProbeEvent(ttl, s1.generation, r.success, ComputeIteration(s3, cfg))], m.log)
  }

  ghost function ProcessSuccess(s: Sched, cfg: Config, ttl: int, r0: ProbeResult, fill: Fill, clock: Meta.Clock): Processed
    requires 0 <= ttl < |s.states| && cfg.beginHop >= 0 && cfg.maxHops < |s.states|
  {
    var s1 := DetectDestination(s, cfg, ttl, r0);
    if BudgetReached(s1, cfg, ttl) then
      Processed(SetHop(s1, ttl, s1.states[ttl].(consecutiveErrs := 0)), [], [])
    else CountResult(s1, cfg, ttl, r0, fill, clock)
  }

  ghost function ProcessResult(s: Sched, cfg: Config, cp: Completed, cancelled: bool, fill: Fill, clock: Meta.Clock): Processed
    requires cfg.beginHop >= 0 && cfg.maxHops < |s.states|
  {
    var s1 := s.(inFlight := s.inFlight - 1);
    if cp.gen != s.generation || cp.ttl < cfg.beginHop || cp.ttl > cfg.maxHops then Processed(s1, [], [])
    else
      var h := s.states[cp.ttl];
      var s2 := SetHop(s1, cp.ttl, h.(inFlightCount := h.inFlightCount - 1));
      if h.disabled then Processed(s2, [], [])
      else if cp.failed then ProcessError(s2, cfg, cp.ttl, cancelled)
      else ProcessSuccess(s2, cfg, cp.ttl, cp.result, fill, clock)
  }

  // ----- Metadata results, reset, end -----

  function ProcessMetadata(s: Sched, cfg: Config, kind: Meta.Kind, patch: Meta.Patch, gen: nat, parses: bool,
                           clock: Meta.Clock): Processed
  {
    if gen != s.generation || patch.ip == "" then Processed(s, [], [])
    else
      var m := Meta.ProcessResult(s.meta, kind, patch, parses, cfg.meta, gen, clock);
      Processed(s.(meta := m.s, agg := PatchMetadata(s.agg, patch.ip, patch.host, patch.geo)), [], m.log)
  }

  function HandleReset(s: Sched): Sched {
    Sched(seq(|s.states|, i => IDLE), s.generation + 1, -1, s.inFlight, map[], Meta.EMPTY)
  }

  /** Every enabled TTL up to the effective maximum has used its budget and
      nothing is on its way. */
  predicate ProbesDone(s: Sched, cfg: Config)
    requires 0 <= cfg.beginHop && cfg.maxHops < |s.states|
  {
    && cfg.maxPerHop > 0
    && (forall ttl :: cfg.beginHop <= ttl <= EffectiveMax(s, cfg) ==>
          s.states[ttl].disabled || (s.states[ttl].completed >= cfg.maxPerHop && s.states[ttl].inFlightCount <= 0))
    && s.inFlight == 0
  }

  predicate IsDone(s: Sched, cfg: Config)
    requires 0 <= cfg.beginHop && cfg.maxHops < |s.states|
  {
    ProbesDone(s, cfg) && |s.meta.geo.inFlight| == 0 && |s.meta.host.inFlight| == 0
  }

  // ----- Runs -----

  /** A launched probe whose result has not been processed. */
  datatype Token = Token(ttl: int, gen: nat)

  datatype World = World(s: Sched, out: multiset<Token>, events: seq<ProbeEvent>, running: multiset<Meta.Lookup>,
                         log: seq<Meta.LogEntry>, now: int, finished: bool)

  /** One turn of the event loop, with everything the environment chooses. */
  datatype Input =
    | ProbeDone(cp: Completed, cancelled: bool, fill: Fill, clock: Meta.Clock, paused: bool, time: int, at: seq<int>)
    | LookupDone(kind: Meta.Kind, patch: Meta.Patch, gen: nat, parses: bool, mclock: Meta.Clock)
    | LookupDropped(lookup: Meta.Lookup)
    | Tick(reset: bool, tickPaused: bool, tickTime: int, tickAt: seq<int>)

  function Tokens(ttls: seq<int>, gen: nat): multiset<Token> {
    if ttls == [] then multiset{} else multiset{Token(ttls[0], gen)} + Tokens(ttls[1..], gen)
  }

  /** The contract of the prober: the result is for the TTL asked for, it is a
      success exactly when it carries an address, and an address is printed
      without blanks. */
  ghost predicate Contract(cp: Completed) {
    && cp.result.ttl == cp.ttl
    && (cp.result.success <==> cp.result.addr != "")
    && (cp.result.addr != "" ==> IsAddress(cp.result.addr))
  }

  ghost predicate Enabled(w: World, i: Input) {
    !w.finished &&
    match i
    case ProbeDone(cp, _, _, clock, _, _, _) => Token(cp.ttl, cp.gen) in w.out && Contract(cp) && Meta.Ticks(w.now, clock)
    case LookupDone(kind, patch, gen, _, clock) => Meta.Lookup(kind, patch.ip, gen) in w.running && Meta.Ticks(w.now, clock)
    case LookupDropped(l) => l in w.running && l.gen < w.s.generation
    case Tick(_, _, _, _) => true
  }

  /** Schedules what is ready and records the launched probes. */
  function ThenSchedule(w: World, cfg: Config, paused: bool, time: int, at: seq<int>): World
    requires 0 <= cfg.beginHop && cfg.maxHops < |w.s.states|
  {
    var sch := ScheduleReady(w.s, cfg, paused, time, at);
    w.(s := sch.s, out := w.out + Tokens(sch.launched, w.s.generation))
  }

  ghost function Begin(cfg: Config, paused: bool, time: int, at: seq<int>): World
    requires ValidConfig(cfg)
  {
    ThenSchedule(World(Initial(cfg), multiset{}, [], multiset{}, [], 0, false), cfg, paused, time, at)
  }

  /** The probe result alone, before anything is scheduled. */
  ghost function AfterResult(w: World, cfg: Config, i: Input): World
    requires i.ProbeDone? && 0 <= cfg.beginHop && cfg.maxHops < |w.s.states|
  {
    var p := ProcessResult(w.s, cfg, i.cp, i.cancelled, i.fill, i.clock);
    World(p.s, w.out - multiset{Token(i.cp.ttl, i.cp.gen)}, w.events + p.events,
          w.running + Meta.LookupsOf(p.log), w.log + p.log, i.clock.d, false)
  }

  function AfterTick(w: World, cfg: Config, i: Input): World
    requires i.Tick? && 0 <= cfg.beginHop && cfg.maxHops < |w.s.states|
  {
    var w1 := if i.reset then w.(s := HandleReset(w.s), log := w.log + [Meta.WasReset]) else w;
    ThenSchedule(w1, cfg, i.tickPaused, i.tickTime, i.tickAt)
  }

  lemma SchedulingKeepsShape(s: Sched, cfg: Config, ttl: int, now: int, at: seq<int>)
    requires 0 <= ttl && Shaped(s, cfg)
    ensures var s' := ScheduleFrom(s, cfg, ttl, now, at).s;
      Shaped(s', cfg) && s'.generation == s.generation && s'.knownFinal == s.knownFinal && s'.agg == s.agg && s'.meta == s.meta
    decreases cfg.maxHops - ttl
  {
  }

  lemma ProcessingKeepsShape(s: Sched, cfg: Config, cp: Completed, cancelled: bool, fill: Fill, clock: Meta.Clock)
    requires ValidConfig(cfg) && Shaped(s, cfg)
    ensures Shaped(ProcessResult(s, cfg, cp, cancelled, fill, clock).s, cfg)
  {
    hide Meta.LaunchLookups, Record, ComputeIteration, ApplyCache, FetchAsync, AttemptOf, IsAddress;
  }

  ghost function Step(w: World, cfg: Config, i: Input): World
    requires ValidConfig(cfg) && Shaped(w.s, cfg)
    ensures Shaped(Step(w, cfg, i).s, cfg)
  {
    match i
    case ProbeDone(cp, cancelled, fill, clock, paused, time, at) =>
      var w1 := AfterResult(w, cfg, i);
      ProcessingKeepsShape(w.s, cfg, cp, cancelled, fill, clock);
      if IsDone(w1.s, cfg) then w1.(finished := true)
      else
        SchedulingKeepsShape(w1.s, cfg, cfg.beginHop, time, at);
        ThenSchedule(w1, cfg, paused, time, at)
    case LookupDone(kind, patch, gen, parses, clock) =>
      var p := ProcessMetadata(w.s, cfg, kind, patch, gen, parses, clock);
      var w1 := w.(s := p.s, running := w.running - multiset{Meta.Lookup(kind, patch.ip, gen)} + Meta.LookupsOf(p.log),
                   log := w.log + p.log, now := clock.d);
      w1.(finished := IsDone(w1.s, cfg))
    case LookupDropped(l) => w.(running := w.running - multiset{l})
    case Tick(reset, paused, time, at) =>
      SchedulingKeepsShape(if reset then HandleReset(w.s) else w.s, cfg, cfg.beginHop, time, at);
      var w1 := AfterTick(w, cfg, i);
      w1.(finished := IsDone(w1.s, cfg))
  }

  ghost predicate ValidRun(w: World, cfg: Config, inputs: seq<Input>)
    requires ValidConfig(cfg) && Shaped(w.s, cfg)
    decreases |inputs|
  {
    inputs == [] || (Enabled(w, inputs[0]) && ValidRun(Step(w, cfg, inputs[0]), cfg, inputs[1..]))
  }

  ghost function Run(w: World, cfg: Config, inputs: seq<Input>): (r: World)
    requires ValidConfig(cfg) && Shaped(w.s, cfg)
    ensures Shaped(r.s, cfg)
    decreases |inputs|
  {
    if inputs == [] then w else Run(Step(w, cfg, inputs[0]), cfg, inputs[1..])
  }
}
