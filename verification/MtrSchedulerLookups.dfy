/** The metadata lookups of the scheduler, told from the messages of a run alone:
    for every address they are those of MtrMetadataPolicy. */
module MtrSchedulerLookups {
  import opened Text
  import opened MtrAccum
  import opened MtrRows
  import opened MtrScheduler
  import opened MtrSchedulerProofs
  import opened MtrSchedulerFinals
  import opened MtrSchedulerRows
  import opened MtrMetadataPolicy
  import Meta = MtrMetadata

  /** For one address: what is known of it in this generation, and all lookups
      launched for it so far, with the times of their launches. */
  datatype Heard = Heard(gen: nat, final: int, k: Known, launched: seq<(Meta.Kind, int)>)

  const NOTHING_HEARD := Heard(0, -1, STRANGER, [])

  function Go(h: Heard, next: Next): Heard {
    h.(k := next.k, launched := h.launched + next.launched)
  }

  /** A counted reply of the address asks for what neither it nor an earlier lookup
      brought, if metadata is looked up in the background. */
  function HearReply(cfg: Config, ip: string, h: Heard, ttl: int, r: ProbeResult, clock: Meta.Clock): Heard {
    var h1 := if r.addr == cfg.dst && (h.final == -1 || ttl < h.final) then h.(final := ttl) else h;
    if r.addr != ip || !cfg.fillGeo || !cfg.asyncMetadata then h1
    else Go(h1, OnSeen(h.k, if r.host != "" then r.host else h.k.host, if r.geo.Some? then r.geo else h.k.geo, cfg.meta, clock))
  }

  function HearOne(cfg: Config, ip: string, h: Heard, i: Input): Heard {
    match i
    case ProbeDone(cp, _, _, clock, _, _, _) =>
      if cp.gen != h.gen || (h.final != -1 && cp.ttl > h.final) || cp.failed then h
      else HearReply(cfg, ip, h, cp.ttl, cp.result, clock)
    case LookupDone(kind, patch, gen, parses, clock) =>
      if gen != h.gen || patch.ip != ip then h
      else Go(h, OnReturned(h.k, kind, patch.host, patch.geo, parses, cfg.meta, clock))
    case LookupDropped(_) => h
    case Tick(reset, _, _, _) => if reset then Heard(h.gen + 1, -1, STRANGER, h.launched) else h
  }

  function HearRun(cfg: Config, ip: string, h: Heard, inputs: seq<Input>): Heard
    decreases |inputs|
  {
    if inputs == [] then h else HearRun(cfg, ip, HearOne(cfg, ip, h, inputs[0]), inputs[1..])
  }

  ghost predicate Follows(s: Sched, log: seq<Meta.LogEntry>, ip: string, h: Heard) {
    && s.generation == h.gen && s.knownFinal == h.final
    && KnownIn(s.meta, ip) == h.k && LaunchedFor(log, ip) == h.launched
  }

  lemma SameFollows(s: Sched, s': Sched, log: seq<Meta.LogEntry>, ip: string, h: Heard)
    requires Follows(s, log, ip, h)
    requires s'.generation == s.generation && s'.knownFinal == s.knownFinal && s'.meta == s.meta
    ensures Follows(s', log, ip, h) && Follows(s', log + [], ip, h)
  {
    assert log + [] == log;
  }

  lemma Moved(s: Sched, log: seq<Meta.LogEntry>, more: seq<Meta.LogEntry>, ip: string, h: Heard, s': Sched, next: Next)
    requires Follows(s, log, ip, h) && s'.generation == s.generation
    requires Next(KnownIn(s'.meta, ip), LaunchedFor(more, ip)) == next
    ensures Follows(s', log + more, ip, Go(h.(final := s'.knownFinal), next))
  {
    LaunchedForBoth(log, more, ip);
  }

  lemma ErrorFollows(s: Sched, cfg: Config, ttl: int, cancelled: bool)
    requires 0 <= ttl < |s.states| && cfg.beginHop >= 0 && cfg.maxHops < |s.states|
    ensures var p := ProcessError(s, cfg, ttl, cancelled);
      p.s.generation == s.generation && p.s.knownFinal == s.knownFinal && p.s.meta == s.meta && p.log == []
  {
    hide ComputeIteration, UpdateRows;
  }

  lemma CountFollows(s: Sched, cfg: Config, ttl: int, r: ProbeResult, fill: Fill, clock: Meta.Clock)
    requires 0 <= ttl < |s.states| && cfg.beginHop >= 0 && cfg.maxHops < |s.states|
    ensures var p, c := CountResult(s, cfg, ttl, r, fill, clock), ApplyCache(s.meta, r);
      && p.s.generation == s.generation && p.s.knownFinal == s.knownFinal
      && (FetchAsync(cfg, c) ==>
            var m := Meta.LaunchLookups(s.meta, c.addr, c.host, c.geo, cfg.meta, s.generation, clock);
            p.s.meta == m.s && p.log == m.log)
      && (!FetchAsync(cfg, c) ==> p.s.meta == s.meta && p.log == [])
  {
    hide ComputeIteration, UpdateRows, ApplyCache, FetchAsync, AttemptOf, Meta.LaunchLookups;
  }

  lemma CachedReply(meta: Meta.State, r: ProbeResult, ip: string)
    requires r.addr == ip && ip != ""
    ensures var c, k := ApplyCache(meta, r), KnownIn(meta, ip);
      c.addr == ip && c.host == (if r.host != "" then r.host else k.host) && c.geo == (if r.geo.Some? then r.geo else k.geo)
  {
  }

  lemma NothingMissing(k: Known, host: string, geo: Option<Geo>, cfg: Meta.Config, clock: Meta.Clock)
    requires !((cfg.hasGeoSource && geo.None?) || (cfg.rdns && host == ""))
    ensures OnSeen(k, host, geo, cfg, clock) == Next(k, [])
  {
  }

  lemma ReplyFollows(s: Sched, cfg: Config, log: seq<Meta.LogEntry>, ttl: int, r: ProbeResult, fill: Fill, clock: Meta.Clock,
                     ip: string, h: Heard)
    requires Follows(s, log, ip, h) && ip != "" && (r.success <==> r.addr != "") && cfg.dst != ""
    requires 0 <= ttl < |s.states| && cfg.beginHop >= 0 && cfg.maxHops < |s.states| && s.knownFinal >= -1
    requires |DetectDestination(s, cfg, ttl, r).states| == |s.states| && !BudgetReached(DetectDestination(s, cfg, ttl, r), cfg, ttl)
    ensures var p := ProcessSuccess(s, cfg, ttl, r, fill, clock);
      Follows(p.s, log + p.log, ip, HearReply(cfg, ip, h, ttl, r, clock))
  {
    hide CountResult, BudgetReached, ApplyCache, FetchAsync, Meta.LaunchLookups, OnSeen, KnownIn, LaunchedFor;
    var s1 := DetectDestination(s, cfg, ttl, r);
    var p := ProcessSuccess(s, cfg, ttl, r, fill, clock);
    var c := ApplyCache(s1.meta, r);
    assert s1.meta == s.meta && s1.generation == s.generation;
    CountFollows(s1, cfg, ttl, r, fill, clock);
    NothingLaunched(ip);
    CachedAddr(s1.meta, r);
    Fetches(cfg, c);
    if r.addr == ip {
      CachedReply(s1.meta, r, ip);
    }
    if FetchAsync(cfg, c) {
      SeenIn(s1.meta, c.addr, c.host, c.geo, cfg.meta, s1.generation, clock, ip);
    } else if r.addr == ip && cfg.fillGeo && cfg.asyncMetadata {
      NothingMissing(KnownIn(s1.meta, ip), c.host, c.geo, cfg.meta, clock);
    }
    Moved(s, log, p.log, ip, h, p.s, Next(KnownIn(p.s.meta, ip), LaunchedFor(p.log, ip)));
    NoMore(h.launched);
  }

  lemma NoMore(launched: seq<(Meta.Kind, int)>)
    ensures launched + [] == launched
  {
  }

  lemma CachedAddr(meta: Meta.State, r: ProbeResult)
    ensures ApplyCache(meta, r).addr == r.addr
  {
  }

  lemma Fetches(cfg: Config, c: ProbeResult)
    ensures FetchAsync(cfg, c) <==>
      cfg.fillGeo && cfg.asyncMetadata && c.addr != "" &&
      ((cfg.meta.hasGeoSource && c.geo.None?) || (cfg.meta.rdns && c.host == ""))
  {
  }

  lemma ResultFollows(w: World, cfg: Config, i: Input, ip: string, h: Heard)
    requires Inv(w, cfg) && Enabled(w, i) && i.ProbeDone? && ValidConfig(cfg) && Shaped(w.s, cfg)
    requires Follows(w.s, w.log, ip, h) && ip != ""
    ensures var w1 := AfterResult(w, cfg, i); Follows(w1.s, w1.log, ip, HearOne(cfg, ip, h, i))
  {
    hide Inv, Contract, IsAddress, ProcessError, ProcessSuccess, Follows, HearReply, Popped;
    var cp, s := i.cp, w.s;
    FollowsBasics(s, w.log, ip, h);
    if cp.gen != s.generation {
      SameFollows(s, s.(inFlight := s.inFlight - 1), w.log, ip, h);
    } else {
      ResultInRange(w, cfg, i);
      var s2 := Popped(s, cp.ttl);
      PoppedIsPopped(s, cp.ttl);
      PoppedSame(s, cp.ttl);
      SameFollows(s, s2, w.log, ip, h);
      if !s.states[cp.ttl].disabled {
        if cp.failed {
          ErrorFollows(s2, cfg, cp.ttl, i.cancelled);
          SameFollows(s2, ProcessError(s2, cfg, cp.ttl, i.cancelled).s, w.log, ip, h);
        } else {
          NotUsedUp(w, cfg, i);
          DetectKeepsLength(s2, cfg, cp.ttl, cp.result);
          ReplyFollows(s2, cfg, w.log, cp.ttl, cp.result, i.fill, i.clock, ip, h);
        }
      }
    }
  }

  lemma FollowsBasics(s: Sched, log: seq<Meta.LogEntry>, ip: string, h: Heard)
    requires Follows(s, log, ip, h)
    ensures s.generation == h.gen && s.knownFinal == h.final
  {
  }

  lemma PoppedSame(s: Sched, ttl: int)
    requires 0 <= ttl < |s.states|
    ensures var s2 := Popped(s, ttl);
      && s2.generation == s.generation && s2.knownFinal == s.knownFinal && s2.meta == s.meta
      && |s2.states| == |s.states| && s2.states[ttl].disabled == s.states[ttl].disabled
  {
  }

  lemma LookupFollows(w: World, cfg: Config, i: Input, ip: string, h: Heard)
    requires i.LookupDone? && Follows(w.s, w.log, ip, h) && ip != ""
    ensures var p := ProcessMetadata(w.s, cfg, i.kind, i.patch, i.gen, i.parses, i.mclock);
      Follows(p.s, w.log + p.log, ip, HearOne(cfg, ip, h, i))
  {
    hide Meta.ProcessResult, PatchMetadata, OnReturned, KnownIn, LaunchedFor;
    var p := ProcessMetadata(w.s, cfg, i.kind, i.patch, i.gen, i.parses, i.mclock);
    NothingLaunched(ip);
    NoMore(h.launched);
    if i.gen == w.s.generation && i.patch.ip != "" {
      ReturnedIn(w.s.meta, i.kind, i.patch, i.parses, cfg.meta, i.gen, i.mclock, ip);
    }
    Moved(w.s, w.log, p.log, ip, h, p.s, Next(KnownIn(p.s.meta, ip), LaunchedFor(p.log, ip)));
  }

  lemma ResetFollows(s: Sched, log: seq<Meta.LogEntry>, ip: string, h: Heard)
    requires Follows(s, log, ip, h)
    ensures Follows(HandleReset(s), log + [Meta.WasReset], ip, Heard(h.gen + 1, -1, STRANGER, h.launched))
  {
    assert (log + [Meta.WasReset])[..|log|] == log;
  }

  lemma ReadyFollows(w: World, cfg: Config, paused: bool, time: int, at: seq<int>, ip: string, h: Heard)
    requires ValidConfig(cfg) && Shaped(w.s, cfg) && Follows(w.s, w.log, ip, h)
    ensures var w' := ThenSchedule(w, cfg, paused, time, at); Follows(w'.s, w'.log, ip, h)
  {
    hide Follows, ScheduleFrom, IsAddress;
    SchedulingKeepsShape(w.s, cfg, cfg.beginHop, time, at);
    SameFollows(w.s, ThenSchedule(w, cfg, paused, time, at).s, w.log, ip, h);
  }

  lemma StepFollows(w: World, cfg: Config, i: Input, ip: string, h: Heard)
    requires Inv(w, cfg) && Enabled(w, i) && ValidConfig(cfg) && Shaped(w.s, cfg)
    requires Follows(w.s, w.log, ip, h) && ip != ""
    ensures var w' := Step(w, cfg, i); Follows(w'.s, w'.log, ip, HearOne(cfg, ip, h, i))
  {
    hide Inv, Follows, ThenSchedule, ProcessResult, ProcessMetadata, IsDone, Contract, IsAddress, HandleReset, HearReply,
      OnReturned;
    match i
    case ProbeDone(cp, cancelled, fill, clock, paused, time, at) =>
      ResultFollows(w, cfg, i, ip, h);
      ProcessingKeepsShape(w.s, cfg, cp, cancelled, fill, clock);
      ReadyFollows(AfterResult(w, cfg, i), cfg, paused, time, at, ip, HearOne(cfg, ip, h, i));
    case LookupDone(kind, patch, gen, parses, clock) => LookupFollows(w, cfg, i, ip, h);
    case LookupDropped(l) =>
    case Tick(reset, paused, time, at) =>
      if reset {
        ResetFollows(w.s, w.log, ip, h);
        ResetShaped(w.s, cfg);
        ReadyFollows(w.(s := HandleReset(w.s), log := w.log + [Meta.WasReset]), cfg, paused, time, at, ip,
                     Heard(h.gen + 1, -1, STRANGER, h.launched));
      } else {
        ReadyFollows(w, cfg, paused, time, at, ip, h);
      }
  }

  lemma ResetShaped(s: Sched, cfg: Config)
    requires ValidConfig(cfg) && Shaped(s, cfg)
    ensures Shaped(HandleReset(s), cfg)
  {
  }

  lemma {:induction false} RunFollows(w: World, cfg: Config, inputs: seq<Input>, ip: string, h: Heard)
    requires Inv(w, cfg) && ValidConfig(cfg) && Shaped(w.s, cfg) && ValidRun(w, cfg, inputs)
    requires Follows(w.s, w.log, ip, h) && ip != ""
    ensures var w' := Run(w, cfg, inputs); Follows(w'.s, w'.log, ip, HearRun(cfg, ip, h, inputs))
    decreases |inputs|
  {
    hide Inv, Step, Enabled, Follows, ValidConfig, HearOne;
    if inputs != [] {
      StepKeeps(w, cfg, inputs[0]);
      StepFollows(w, cfg, inputs[0], ip, h);
      RunFollows(Step(w, cfg, inputs[0]), cfg, inputs[1..], ip, HearOne(cfg, ip, h, inputs[0]));
    }
  }

  lemma BeginFollows(cfg: Config, paused: bool, time: int, at: seq<int>, ip: string)
    requires ValidConfig(cfg)
    ensures var w := Begin(cfg, paused, time, at); Follows(w.s, w.log, ip, NOTHING_HEARD)
  {
    hide ThenSchedule, IsAddress;
    var w := World(Initial(cfg), multiset{}, [], multiset{}, [], 0, false);
    ReadyFollows(w, cfg, paused, time, at, ip, NOTHING_HEARD);
  }

  /** Over any run, for any address: what the scheduler knows of it, what it is
      looking up, and every lookup it launched, with its time, are those the
      messages call for, whatever other addresses do. */
  lemma LookupsAreThoseCalledFor(cfg: Config, paused: bool, time: int, at: seq<int>, inputs: seq<Input>, ip: string)
    requires ValidConfig(cfg) && Shaped(Begin(cfg, paused, time, at).s, cfg) && ip != ""
    requires ValidRun(Begin(cfg, paused, time, at), cfg, inputs)
    ensures var w, h := Run(Begin(cfg, paused, time, at), cfg, inputs), HearRun(cfg, ip, NOTHING_HEARD, inputs);
      KnownIn(w.s.meta, ip) == h.k && LaunchedFor(w.log, ip) == h.launched
  {
    hide Inv, ValidRun, Run, HearRun, IsAddress, Begin, KnownIn, LaunchedFor;
    BeginOk(cfg, paused, time, at);
    BeginFollows(cfg, paused, time, at, ip);
    RunFollows(Begin(cfg, paused, time, at), cfg, inputs, ip, NOTHING_HEARD);
  }
}
