/** What the scheduler reports: the iterations passed to the probe callback, and
    a run whose aggregate keeps rows above the final TTL. */
module MtrSchedulerReports {
  import opened Text
  import opened MtrAccum
  import opened MtrRows
  import opened MtrScheduler
  import opened MtrSchedulerProofs
  import opened MtrSchedulerProgress
  import Meta = MtrMetadata

  /** Callbacks of one generation carry iterations in non-decreasing order, those
      of the current one none above the present iteration. */
  ghost predicate ReportsOk(s: Sched, cfg: Config, events: seq<ProbeEvent>)
    requires 0 <= cfg.beginHop && cfg.maxHops < |s.states|
  {
    && (forall j, k :: 0 <= j < k < |events| && events[j].gen == events[k].gen ==> events[j].iteration <= events[k].iteration)
    && (forall k :: 0 <= k < |events| && events[k].gen == s.generation ==> events[k].iteration <= ComputeIteration(s, cfg))
  }

  /** A processed result is reported at most once, with the iteration it leads to. */
  lemma ReportIsCurrent(s: Sched, cfg: Config, cp: Completed, cancelled: bool, fill: Fill, clock: Meta.Clock)
    requires ValidConfig(cfg) && Shaped(s, cfg)
    ensures var p := ProcessResult(s, cfg, cp, cancelled, fill, clock);
      && |p.s.states| == |s.states| && |p.events| <= 1
      && forall e :: e in p.events ==> e.gen == s.generation && e.iteration == ComputeIteration(p.s, cfg)
  {
    hide Record, Meta.LaunchLookups, ApplyCache, FetchAsync, AttemptOf, IsAddress, ComputeIteration;
  }

  lemma ResultKeepsReports(w: World, cfg: Config, i: Input)
    requires Inv(w, cfg) && Enabled(w, i) && i.ProbeDone? && ValidConfig(cfg) && Shaped(w.s, cfg)
    requires ReportsOk(w.s, cfg, w.events)
    ensures var w1 := AfterResult(w, cfg, i);
      && Inv(w1, cfg) && Shaped(w1.s, cfg) && ReportsOk(w1.s, cfg, w1.events)
  {
    hide InvAt, ProcessResult, ComputeIteration, Contract, IsAddress;
    ReportIsCurrent(w.s, cfg, i.cp, i.cancelled, i.fill, i.clock);
    ProcessingKeepsShape(w.s, cfg, i.cp, i.cancelled, i.fill, i.clock);
    ResultKeeps(w.s, cfg, w.out, w.events, i.cp, i.cancelled, i.fill, i.clock);
    ResultGrows(w.s, cfg, i.cp, i.cancelled, i.fill, i.clock);
    var w1 := AfterResult(w, cfg, i);
    IterationGrows(w, w1, cfg);
  }

  lemma SchedulingKeepsReports(w: World, cfg: Config, paused: bool, time: int, at: seq<int>)
    requires Inv(w, cfg) && ValidConfig(cfg) && Shaped(w.s, cfg) && ReportsOk(w.s, cfg, w.events)
    ensures var w' := ThenSchedule(w, cfg, paused, time, at); Shaped(w'.s, cfg) && ReportsOk(w'.s, cfg, w'.events)
  {
    hide InvAt, ComputeIteration, ScheduleFrom, IsAddress;
    SchedulingKeepsShape(w.s, cfg, cfg.beginHop, time, at);
    ReadyKeeps(w, cfg, paused, time, at);
    ScheduleGrows(w.s, cfg, cfg.beginHop, time, at);
    GrowsReflexive(w.s, w.s);
    IterationGrows(w, ThenSchedule(w, cfg, paused, time, at), cfg);
  }

  lemma ResetKeepsReports(w: World, cfg: Config)
    requires Inv(w, cfg) && ValidConfig(cfg) && Shaped(w.s, cfg) && ReportsOk(w.s, cfg, w.events)
    ensures var w1 := w.(s := HandleReset(w.s), log := w.log + [Meta.WasReset]);
      Inv(w1, cfg) && Shaped(w1.s, cfg) && ReportsOk(w1.s, cfg, w1.events)
  {
    hide ComputeIteration, HopsOk, IsAddress;
    ResetKeeps(w.s, cfg, w.out, w.events, w.s.knownFinal);
    ResetForgetsFinal(w.s);
  }

  lemma StepKeepsReports(w: World, cfg: Config, i: Input)
    requires Inv(w, cfg) && Enabled(w, i) && ValidConfig(cfg) && Shaped(w.s, cfg) && ReportsOk(w.s, cfg, w.events)
    ensures ReportsOk(Step(w, cfg, i).s, cfg, Step(w, cfg, i).events)
  {
    hide Inv, ReportsOk, ThenSchedule, ProcessResult, IsDone, Contract, IsAddress, HandleReset, Meta.ProcessResult, PatchMetadata;
    match i
    case ProbeDone(cp, cancelled, fill, clock, paused, time, at) =>
      ResultKeepsReports(w, cfg, i);
      SchedulingKeepsReports(AfterResult(w, cfg, i), cfg, paused, time, at);
    case LookupDone(kind, patch, gen, parses, clock) =>
      var s' := ProcessMetadata(w.s, cfg, kind, patch, gen, parses, clock).s;
      SameReports(w.s, s', cfg, w.events);
    case LookupDropped(l) =>
    case Tick(reset, paused, time, at) =>
      if reset {
        ResetKeepsReports(w, cfg);
        SchedulingKeepsReports(w.(s := HandleReset(w.s), log := w.log + [Meta.WasReset]), cfg, paused, time, at);
      } else {
        SchedulingKeepsReports(w, cfg, paused, time, at);
      }
  }

  lemma SameReports(s: Sched, s': Sched, cfg: Config, events: seq<ProbeEvent>)
    requires 0 <= cfg.beginHop && cfg.maxHops < |s.states| && ReportsOk(s, cfg, events)
    requires s'.states == s.states && s'.generation == s.generation && s'.knownFinal == s.knownFinal
    ensures ReportsOk(s', cfg, events)
  {
  }

  lemma {:induction false} RunKeepsReports(w: World, cfg: Config, inputs: seq<Input>)
    requires Inv(w, cfg) && ValidConfig(cfg) && Shaped(w.s, cfg) && ValidRun(w, cfg, inputs)
    requires ReportsOk(w.s, cfg, w.events)
    ensures ReportsOk(Run(w, cfg, inputs).s, cfg, Run(w, cfg, inputs).events)
    decreases |inputs|
  {
    hide Inv, Step, Enabled, ReportsOk, ValidConfig;
    if inputs != [] {
      StepKeeps(w, cfg, inputs[0]);
      StepKeepsReports(w, cfg, inputs[0]);
      RunKeepsReports(Step(w, cfg, inputs[0]), cfg, inputs[1..]);
    }
  }

  /** In every run, resets included: the iterations passed to the callback never
      decrease within a generation, and the last one is not above the present. */
  lemma ReportedIterationsNeverDecrease(w: World, cfg: Config)
    requires Reachable(w, cfg) && 0 <= cfg.beginHop && cfg.maxHops < |w.s.states|
    ensures ReportsOk(w.s, cfg, w.events)
  {
    hide Inv, ReportsOk, IsAddress;
    var paused, time, at, inputs :| ReachedBy(w, cfg, paused, time, at, inputs);
    BeginShaped(cfg, paused, time, at);
    BeginOk(cfg, paused, time, at);
    NothingReported(cfg, paused, time, at);
    RunKeepsReports(Begin(cfg, paused, time, at), cfg, inputs);
  }

  lemma NothingReported(cfg: Config, paused: bool, time: int, at: seq<int>)
    requires ValidConfig(cfg) && Shaped(Begin(cfg, paused, time, at).s, cfg)
    ensures ReportsOk(Begin(cfg, paused, time, at).s, cfg, Begin(cfg, paused, time, at).events)
  {
  }

  // ----- Rows above the final TTL -----

  const TWO_HOPS := Config(1, 2, 2, SECOND, 10, 1, 0, "d", false, false, Meta.Config(false, false, false))

  /** A reply of addr to the first probe of a TTL. */
  function ReplyOf(ttl: int, addr: string): Input {
    ProbeDone(Completed(ttl, ProbeResult(ttl, true, addr, 1, [], "", None), 0, false),
              false, Fill("", None), Meta.Clock(0, 0, 0, 0), true, 0, [])
  }

  lemma LetterIsAddress(s: string)
    requires |s| == 1 && !IsSpace(s[0])
    ensures IsAddress(s)
  {
    TrimFixes(s);
  }

  lemma TwoHopsOk()
    ensures ValidConfig(TWO_HOPS) && IsAddress("a") && IsAddress("d")
  {
    hide IsAddress;
    LetterIsAddress("d");
    LetterIsAddress("a");
  }

  /** What a first reply does to the counters and to the keys of the aggregate. */
  ghost predicate Replied(s: Sched, s': Sched, ttl: int, addr: string)
    requires 1 <= ttl <= 2 && |s.states| == 3
  {
    && s'.generation == 0 && s'.knownFinal == (if addr == "d" then ttl else -1) && |s'.states| == 3
    && s'.agg.Keys == s.agg.Keys + {ttl}
    && s'.states[ttl].completed == s.states[ttl].completed + 1
    && forall t :: 0 <= t <= 2 && t != ttl ==>
         s'.states[t].completed == s.states[t].completed && (t < ttl ==> s'.states[t].disabled == s.states[t].disabled)
  }

  lemma FirstReply(s: Sched, ttl: int, addr: string)
    requires Shaped(s, TWO_HOPS) && 1 <= ttl <= 2 && addr != "" && ValidConfig(TWO_HOPS)
    requires s.generation == 0 && s.knownFinal == -1 && !s.states[ttl].disabled
    ensures var i := ReplyOf(ttl, addr); Replied(s, ProcessResult(s, TWO_HOPS, i.cp, false, i.fill, i.clock).s, ttl, addr)
  {
    hide UpdateRows, ComputeIteration, Meta.LaunchLookups, IsAddress;
    var i := ReplyOf(ttl, addr);
    var s2 := Popped(s, ttl);
    var s3 := DetectDestination(s2, TWO_HOPS, ttl, i.cp.result);
    assert !BudgetReached(s3, TWO_HOPS, ttl);
    assert ProcessResult(s, TWO_HOPS, i.cp, false, i.fill, i.clock) == CountResult(s3, TWO_HOPS, ttl, i.cp.result, i.fill, i.clock);
  }

  lemma ReplyStep(w: World, ttl: int, addr: string)
    requires ValidConfig(TWO_HOPS) && Shaped(w.s, TWO_HOPS) && 1 <= ttl <= 2 && addr != ""
    requires w.s.generation == 0 && w.s.knownFinal == -1 && !w.s.states[ttl].disabled
    ensures var w' := Step(w, TWO_HOPS, ReplyOf(ttl, addr));
      Replied(w.s, w'.s, ttl, addr) && !w'.finished && w'.out == w.out - multiset{Token(ttl, 0)} && w'.now == 0
  {
    hide ProcessResult, Replied, IsAddress;
    FirstReply(w.s, ttl, addr);
    var rest := w.out - multiset{Token(ttl, 0)};
    assert rest + Tokens([], 0) == rest;
    assert Replied(w.s, Step(w, TWO_HOPS, ReplyOf(ttl, addr)).s, ttl, addr);
  }

  lemma BothLaunched()
    requires ValidConfig(TWO_HOPS)
    ensures var w := Begin(TWO_HOPS, false, 0, []);
      && w.out == multiset{Token(1, 0), Token(2, 0)} && !w.finished && w.now == 0
      && w.s.generation == 0 && w.s.knownFinal == -1 && w.s.agg == map[] && |w.s.states| == 3
      && forall t :: 0 <= t <= 2 ==> w.s.states[t].completed == 0 && !w.s.states[t].disabled
  {
    hide IsAddress;
    var s := Initial(TWO_HOPS);
    var s1 := Launch(s, TWO_HOPS, 1, 0);
    var s2 := Launch(s1, TWO_HOPS, 2, 0);
    assert ScheduleFrom(s2, TWO_HOPS, 3, 0, []) == Scheduled(s2, []);
    assert ScheduleFrom(s1, TWO_HOPS, 2, 0, []) == Scheduled(s2, [2]);
    assert ScheduleFrom(s, TWO_HOPS, 1, 0, []) == Scheduled(s2, [1, 2]);
    assert Tokens([2], 0) == multiset{Token(2, 0)} by { assert [2][1..] == []; }
    assert Tokens([1, 2], 0) == multiset{Token(1, 0)} + Tokens([2], 0) by { assert [1, 2][1..] == [2]; }
  }

  lemma ReplyEnabled(w: World, ttl: int, addr: string)
    requires Token(ttl, 0) in w.out && !w.finished && w.now == 0 && IsAddress(addr)
    ensures Enabled(w, ReplyOf(ttl, addr))
  {
  }

  lemma SecondReply(w0: World, w1: World) returns (w: World)
    requires ValidConfig(TWO_HOPS) && IsAddress("d") && Shaped(w0.s, TWO_HOPS) && |w0.s.states| == 3
    requires w0.s.states[1].completed == w0.s.states[2].completed == 0 && !w0.s.states[1].disabled
    requires Replied(w0.s, w1.s, 2, "a") && !w1.finished && w1.out == multiset{Token(1, 0)} && w1.now == 0
    requires Shaped(w1.s, TWO_HOPS)
    ensures Enabled(w1, ReplyOf(1, "d")) && w == Step(w1, TWO_HOPS, ReplyOf(1, "d"))
    ensures w.s.knownFinal == 1 && 2 in w.s.agg && |w.s.states| == 3 && w.s.states[2].completed == 1
  {
    hide IsAddress, Step, ValidConfig, Enabled;
    ReplyEnabled(w1, 1, "d");
    ReplyStep(w1, 1, "d");
    w := Step(w1, TWO_HOPS, ReplyOf(1, "d"));
  }

  /** After the first reply only the other probe is on its way. */
  lemma FirstStep() returns (w0: World, w1: World)
    requires ValidConfig(TWO_HOPS) && IsAddress("a")
    ensures w0 == Begin(TWO_HOPS, false, 0, []) && Shaped(w0.s, TWO_HOPS) && |w0.s.states| == 3
    ensures w0.s.states[1].completed == w0.s.states[2].completed == 0 && !w0.s.states[1].disabled
    ensures Enabled(w0, ReplyOf(2, "a")) && w1 == Step(w0, TWO_HOPS, ReplyOf(2, "a"))
    ensures Replied(w0.s, w1.s, 2, "a") && !w1.finished && w1.out == multiset{Token(1, 0)} && w1.now == 0
    ensures Shaped(w1.s, TWO_HOPS)
  {
    hide IsAddress, Step, Begin, ValidConfig, Enabled, Replied;
    BothLaunched();
    BeginShaped(TWO_HOPS, false, 0, []);
    w0 := Begin(TWO_HOPS, false, 0, []);
    ReplyEnabled(w0, 2, "a");
    ReplyStep(w0, 2, "a");
    w1 := Step(w0, TWO_HOPS, ReplyOf(2, "a"));
    assert w0.out - multiset{Token(2, 0)} == multiset{Token(1, 0)};
  }

  lemma TwoReplies() returns (w: World)
    ensures Reachable(w, TWO_HOPS) && w.s.knownFinal == 1 && 2 in w.s.agg
    ensures |w.s.states| == 3 && w.s.states[2].completed == 1
  {
    hide *;
    TwoHopsOk();
    var w0, w1 := FirstStep();
    w := SecondReply(w0, w1);
    RunOfTwo(w0, TWO_HOPS, ReplyOf(2, "a"), ReplyOf(1, "d"));
    IsReached(false, 0, [], [ReplyOf(2, "a"), ReplyOf(1, "d")], w);
  }

  lemma IsReached(paused: bool, time: int, at: seq<int>, inputs: seq<Input>, w: World)
    requires ValidConfig(TWO_HOPS) && Shaped(Begin(TWO_HOPS, paused, time, at).s, TWO_HOPS)
    requires ValidRun(Begin(TWO_HOPS, paused, time, at), TWO_HOPS, inputs)
    requires w == Run(Begin(TWO_HOPS, paused, time, at), TWO_HOPS, inputs)
    ensures Reachable(w, TWO_HOPS)
  {
    hide ValidRun, Run, Begin, ValidConfig;
    assert ReachedBy(w, TWO_HOPS, paused, time, at, inputs);
  }

  /** A reply of another address at TTL 2, then one of the destination at TTL 1:
      the row at TTL 2 stays although TTL 1 is final. */
  lemma RowAboveFinalStays() returns (w: World)
    ensures Reachable(w, TWO_HOPS) && w.s.knownFinal == 1 && SentSum(RowsAt(w.s.agg, 2)) == 1
  {
    hide Reachable, SentSum;
    w := TwoReplies();
    SentAccounting(w, TWO_HOPS, 2);
  }

  lemma RunOfTwo(w: World, cfg: Config, i: Input, j: Input)
    requires ValidConfig(cfg) && Shaped(w.s, cfg) && Enabled(w, i) && Enabled(Step(w, cfg, i), j)
    ensures ValidRun(w, cfg, [i, j]) && Run(w, cfg, [i, j]) == Step(Step(w, cfg, i), cfg, j)
  {
    hide Step, Enabled, ValidConfig;
    var none: seq<Input> := [];
    assert [i, j][1..] == [j] && [j][1..] == none;
    var w1 := Step(w, cfg, i);
    assert ValidRun(Step(w1, cfg, j), cfg, none);
    assert ValidRun(w1, cfg, [j]) && Run(w1, cfg, [j]) == Step(w1, cfg, j);
  }
}
