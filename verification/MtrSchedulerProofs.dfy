/** What every step of the scheduler keeps, and what follows for every run:
    accounting, the destination, and bounds on what is on its way. */
module MtrSchedulerProofs {
  import opened Text
  import opened MtrAccum
  import opened MtrRows
  import opened MtrScheduler
  import Meta = MtrMetadata

  /** The onProbe calls for a TTL in a generation. */
  function Probes(events: seq<ProbeEvent>, ttl: int, gen: nat): nat {
    if events == [] then 0
    else
      var e := events[|events| - 1];
      Probes(events[..|events| - 1], ttl, gen) + if e.ttl == ttl && e.gen == gen then 1 else 0
  }

  // ----- The invariant -----

  /** Counters of one TTL against its outstanding probes. */
  ghost predicate CountersOk(h: HopState, cfg: Config, outstanding: nat) {
    && h.inFlightCount == outstanding <= cfg.maxInFlightHop
    && (cfg.maxPerHop > 0 ==> h.completed + h.inFlightCount <= cfg.maxPerHop)
    && h.consecutiveErrs < cfg.maxConsecErrs
    && (cfg.maxPerHop > 0 && h.completed == cfg.maxPerHop ==> h.consecutiveErrs == 0)
  }

  /** The rows of one TTL against its completed count: every completed probe is
      in exactly one row; above the destination the rows may have been cleared. */
  ghost predicate RowsOk(s: Sched, ttl: int, completed: nat, disabled: bool) {
    SentSum(RowsAt(s.agg, ttl)) == completed || (disabled && ttl !in s.agg)
  }

  /** d is the only TTL with a row of the destination. */
  ghost predicate HopOk(s: Sched, cfg: Config, out: multiset<Token>, events: seq<ProbeEvent>, d: int, ttl: int)
    requires 0 <= ttl < |s.states|
  {
    var h := s.states[ttl];
    && CountersOk(h, cfg, out[Token(ttl, s.generation)])
    && (h.disabled <==> s.knownFinal > 0 && ttl > s.knownFinal)
    && Probes(events, ttl, s.generation) == h.completed
    && RowsOk(s, ttl, h.completed, h.disabled)
    && (IpKey(cfg.dst) in RowsAt(s.agg, ttl) <==> ttl == d)
  }

  ghost predicate TokensOk(s: Sched, cfg: Config, out: multiset<Token>) {
    && s.inFlight == |out| <= cfg.parallelism
    && forall t :: t in out ==> cfg.beginHop <= t.ttl <= cfg.maxHops && t.gen <= s.generation
  }

  ghost predicate HopsOk(s: Sched, cfg: Config, out: multiset<Token>, events: seq<ProbeEvent>, d: int)
    requires ValidConfig(cfg) && Shaped(s, cfg)
  {
    forall ttl :: cfg.beginHop <= ttl <= cfg.maxHops ==> HopOk(s, cfg, out, events, d, ttl)
  }

  ghost predicate EventsOk(s: Sched, events: seq<ProbeEvent>) {
    forall i :: 0 <= i < |events| ==> events[i].gen <= s.generation
  }

  ghost predicate InvAt(s: Sched, cfg: Config, out: multiset<Token>, events: seq<ProbeEvent>, d: int) {
    && ValidConfig(cfg) && Shaped(s, cfg)
    && TokensOk(s, cfg, out)
    && HopsOk(s, cfg, out, events, d)
    && EventsOk(s, events)
  }

  ghost predicate Inv(w: World, cfg: Config) {
    InvAt(w.s, cfg, w.out, w.events, w.s.knownFinal)
  }

  // ----- Launching -----

  lemma LaunchKeeps(s: Sched, cfg: Config, out: multiset<Token>, events: seq<ProbeEvent>, d: int, ttl: int, now: int, at: int)
    requires InvAt(s, cfg, out, events, d) && cfg.beginHop <= ttl <= cfg.maxHops
    requires CanLaunch(s, cfg, ttl, now) && s.inFlight < cfg.parallelism
    ensures InvAt(Launch(s, cfg, ttl, at), cfg, out + multiset{Token(ttl, s.generation)}, events, d)
  {
    hide SentSum, Probes, IsAddress;
    var s' := Launch(s, cfg, ttl, at);
    var out' := out + multiset{Token(ttl, s.generation)};
    forall t | cfg.beginHop <= t <= cfg.maxHops ensures HopOk(s', cfg, out', events, d, t) {
      assert HopOk(s, cfg, out, events, d, t);
    }
  }

  lemma {:induction false} ScheduleKeeps(s: Sched, cfg: Config, out: multiset<Token>, events: seq<ProbeEvent>, d: int,
                                         ttl: int, now: int, at: seq<int>)
    requires InvAt(s, cfg, out, events, d) && cfg.beginHop <= ttl
    ensures var sch := ScheduleFrom(s, cfg, ttl, now, at);
      InvAt(sch.s, cfg, out + Tokens(sch.launched, s.generation), events, d) && sch.s.knownFinal == s.knownFinal
    decreases cfg.maxHops - ttl
  {
    hide InvAt, CanLaunch, Launch, IsAddress, ScheduleFrom, Tokens;
    InvShape(s, cfg, out, events, d);
    ScheduleStep(s, cfg, ttl, now, at);
    NoTokens(out, s.generation);
    var eMax := EffectiveMax(s, cfg);
    assert eMax <= cfg.maxHops;
    if ttl > eMax || s.inFlight >= cfg.parallelism {
    } else if CanLaunch(s, cfg, ttl, now) {
      var reading := ReadingFor(at, ttl, now);
      LaunchKeeps(s, cfg, out, events, d, ttl, now, reading);
      LaunchKeepsRest(s, cfg, ttl, reading);
      var s1 := Launch(s, cfg, ttl, reading);
      InvShape(s1, cfg, out + multiset{Token(ttl, s.generation)}, events, d);
      ScheduleKeeps(s1, cfg, out + multiset{Token(ttl, s.generation)}, events, d, ttl + 1, now, at);
      var rest := ScheduleFrom(s1, cfg, ttl + 1, now, at);
      FirstToken(out, ttl, rest.launched, s.generation);
    } else {
      ScheduleKeeps(s, cfg, out, events, d, ttl + 1, now, at);
    }
  }

  lemma InvShape(s: Sched, cfg: Config, out: multiset<Token>, events: seq<ProbeEvent>, d: int)
    requires InvAt(s, cfg, out, events, d)
    ensures ValidConfig(cfg) && Shaped(s, cfg)
  {
  }

  lemma LaunchKeepsRest(s: Sched, cfg: Config, ttl: int, at: int)
    requires 0 <= ttl < |s.states|
    ensures var s' := Launch(s, cfg, ttl, at);
      s'.generation == s.generation && s'.knownFinal == s.knownFinal && |s'.states| == |s.states|
  {
  }

  lemma NoTokens(out: multiset<Token>, gen: nat)
    ensures out + Tokens([], gen) == out
  {
  }

  lemma FirstToken(out: multiset<Token>, ttl: int, rest: seq<int>, gen: nat)
    ensures out + Tokens([ttl] + rest, gen) == (out + multiset{Token(ttl, gen)}) + Tokens(rest, gen)
  {
    assert ([ttl] + rest)[1..] == rest;
  }

  // ----- One more attempt in the rows of a TTL -----

  /** The attempt of a probe: an address, or nothing at all. */
  ghost predicate ProbeAttempt(a: Attempt) {
    (a.ip != "" ==> IsAddress(a.ip)) && (a.ip == "" ==> !a.success)
  }

  lemma OneAttemptKey(a: Attempt, dst: string)
    requires ProbeAttempt(a) && IsAddress(dst)
    ensures AttemptKey(a) == IpKey(dst) <==> a.ip == dst
  {
    hide Trim;
    if a.ip != "" {
      AddressKey(a);
    } else {
      NoAddressKey(a);
    }
  }

  lemma AddressKey(a: Attempt)
    requires IsAddress(a.ip)
    ensures AttemptKey(a) == IpKey(a.ip)
  {
  }

  lemma NoAddressKey(a: Attempt)
    requires a.ip == ""
    ensures !AttemptKey(a).IpKey?
  {
    assert Trim(Trim(a.ip)) == "";
  }

  lemma OneGroup(a: Attempt)
    ensures Groups([a]).Keys == {AttemptKey(a)}
  {
    assert [a][..0] == [];
    assert Groups([a][..0]) == map[];
  }

  lemma MergeUnknownKeepsKnown(rows: Rows, k: Key)
    requires k != UnknownKey
    ensures k in MergeUnknown(rows) <==> k in rows
  {
    if MergesUnknown(rows) {
      assert Known(rows) == {TheKnown(rows)};
      assert k in rows <==> k in Known(rows);
    }
  }

  lemma RowsAfterOne(rows: Rows, ttl: int, a: Attempt, dst: string)
    requires ProbeAttempt(a) && IsAddress(dst)
    ensures SentSum(UpdateRows(rows, ttl, [a])) == SentSum(rows) + 1
    ensures IpKey(dst) in UpdateRows(rows, ttl, [a]) <==> IpKey(dst) in rows || a.ip == dst
  {
    hide SentSum, MergeUnknown, AttemptKey, IsAddress, ProbeAttempt, Groups, MergeGroup;
    UpdateRowsAddsAttempts(rows, ttl, [a]);
    OneGroup(a);
    OneAttemptKey(a, dst);
    MergeUnknownKeepsKnown(MergeGroups(rows, ttl, Groups([a])), IpKey(dst));
  }

  // ----- Processing a result -----

  /** The probe leaves: its counter and its token go. */
  function Popped(s: Sched, ttl: int): Sched
    requires 0 <= ttl < |s.states|
  {
    SetHop(s.(inFlight := s.inFlight - 1), ttl, s.states[ttl].(inFlightCount := s.states[ttl].inFlightCount - 1))
  }

  /** Room in the budget of a TTL for one more completed probe. */
  predicate HasRoom(s: Sched, cfg: Config, ttl: int)
    requires 0 <= ttl < |s.states|
  {
    cfg.maxPerHop > 0 ==> s.states[ttl].completed + s.states[ttl].inFlightCount < cfg.maxPerHop
  }

  lemma PopKeeps(s: Sched, cfg: Config, out: multiset<Token>, events: seq<ProbeEvent>, d: int, ttl: int)
    requires InvAt(s, cfg, out, events, d) && Token(ttl, s.generation) in out
    ensures cfg.beginHop <= ttl <= cfg.maxHops
    ensures InvAt(Popped(s, ttl), cfg, out - multiset{Token(ttl, s.generation)}, events, d)
    ensures HasRoom(Popped(s, ttl), cfg, ttl)
  {
    hide SentSum, Probes, IsAddress;
    var s' := Popped(s, ttl);
    var out' := out - multiset{Token(ttl, s.generation)};
    assert HopOk(s, cfg, out, events, d, ttl);
    forall t | cfg.beginHop <= t <= cfg.maxHops ensures HopOk(s', cfg, out', events, d, t) {
      assert HopOk(s, cfg, out, events, d, t);
    }
  }

  lemma StaleKeeps(s: Sched, cfg: Config, out: multiset<Token>, events: seq<ProbeEvent>, d: int, t: Token)
    requires InvAt(s, cfg, out, events, d) && t in out && t.gen != s.generation
    ensures InvAt(s.(inFlight := s.inFlight - 1), cfg, out - multiset{t}, events, d)
  {
    hide SentSum, Probes, IsAddress;
    var s', out' := s.(inFlight := s.inFlight - 1), out - multiset{t};
    forall ttl | cfg.beginHop <= ttl <= cfg.maxHops ensures HopOk(s', cfg, out', events, d, ttl) {
      assert HopOk(s, cfg, out, events, d, ttl);
    }
  }

  lemma CountErrorKeeps(s: Sched, cfg: Config, out: multiset<Token>, events: seq<ProbeEvent>, d: int, ttl: int)
    requires InvAt(s, cfg, out, events, d) && cfg.beginHop <= ttl <= cfg.maxHops && HasRoom(s, cfg, ttl)
    requires s.states[ttl].consecutiveErrs + 1 < cfg.maxConsecErrs
    ensures InvAt(SetHop(s, ttl, s.states[ttl].(consecutiveErrs := s.states[ttl].consecutiveErrs + 1)), cfg, out, events, d)
  {
    hide SentSum, Probes, IsAddress;
    var s' := SetHop(s, ttl, s.states[ttl].(consecutiveErrs := s.states[ttl].consecutiveErrs + 1));
    forall t | cfg.beginHop <= t <= cfg.maxHops ensures HopOk(s', cfg, out, events, d, t) {
      assert HopOk(s, cfg, out, events, d, t);
    }
  }

  /** A completed probe: counted once in the state, the rows and the events. */
  lemma CompleteKeeps(s: Sched, cfg: Config, out: multiset<Token>, events: seq<ProbeEvent>, d: int, ttl: int, a: Attempt,
                      e: ProbeEvent)
    requires InvAt(s, cfg, out, events, d) && cfg.beginHop <= ttl <= cfg.maxHops && HasRoom(s, cfg, ttl)
    requires !s.states[ttl].disabled && ProbeAttempt(a)
    requires a.ip == cfg.dst ==> d == ttl || d < 0
    requires e.ttl == ttl && e.gen == s.generation
    ensures InvAt(Record(MarkCompleted(s, ttl), ttl, a), cfg, out, events + [e], if a.ip == cfg.dst then ttl else d)
  {
    hide SentSum, Probes, IsAddress, UpdateRows, ProbeAttempt;
    var s' := Record(MarkCompleted(s, ttl), ttl, a);
    var d' := if a.ip == cfg.dst then ttl else d;
    AddressOfConfig(s, cfg, out, events, d);
    RowsAfterOne(RowsAt(s.agg, ttl), ttl, a, cfg.dst);
    forall t | cfg.beginHop <= t <= cfg.maxHops ensures HopOk(s', cfg, out, events + [e], d', t) {
      assert HopOk(s, cfg, out, events, d, t);
      OneMoreEvent(events, e, t, s.generation);
    }
  }

  lemma AddressOfConfig(s: Sched, cfg: Config, out: multiset<Token>, events: seq<ProbeEvent>, d: int)
    requires InvAt(s, cfg, out, events, d)
    ensures IsAddress(cfg.dst)
  {
  }

  lemma OneMoreEvent(events: seq<ProbeEvent>, e: ProbeEvent, ttl: int, gen: nat)
    ensures Probes(events + [e], ttl, gen) == Probes(events, ttl, gen) + if e.ttl == ttl && e.gen == gen then 1 else 0
  {
    assert (events + [e])[..|events|] == events;
  }

  /** The TTL holding the destination row after detection, before the row of
      this probe is written. */
  function DestinationRow(s: Sched, cfg: Config, ttl: int, r: ProbeResult): int {
    if r.success && r.addr == cfg.dst && s.knownFinal != ttl then -1 else s.knownFinal
  }

  lemma DetectKeeps(s: Sched, cfg: Config, out: multiset<Token>, events: seq<ProbeEvent>, ttl: int, r: ProbeResult)
    requires InvAt(s, cfg, out, events, s.knownFinal) && cfg.beginHop <= ttl <= cfg.maxHops
    requires !s.states[ttl].disabled
    ensures var s' := DetectDestination(s, cfg, ttl, r);
      && InvAt(s', cfg, out, events, DestinationRow(s, cfg, ttl, r))
      && s'.states[ttl] == s.states[ttl] && s'.generation == s.generation && s'.meta == s.meta
      && s'.knownFinal == (if r.success && r.addr == cfg.dst then ttl else s.knownFinal)
  {
    hide SentSum, Probes, IsAddress, CountersOk;
    var s' := DetectDestination(s, cfg, ttl, r);
    var d' := DestinationRow(s, cfg, ttl, r);
    assert HopOk(s, cfg, out, events, s.knownFinal, ttl);
    assert cfg.dst != "" by { DestinationNotEmpty(s, cfg, out, events, s.knownFinal); }
    forall t | cfg.beginHop <= t <= cfg.maxHops ensures HopOk(s', cfg, out, events, d', t) {
      assert HopOk(s, cfg, out, events, s.knownFinal, t);
      assert HopOk(s, cfg, out, events, s.knownFinal, ttl);
      CountersIgnoreDisabled(s.states[t], cfg, out[Token(t, s.generation)]);
    }
  }

  lemma DestinationNotEmpty(s: Sched, cfg: Config, out: multiset<Token>, events: seq<ProbeEvent>, d: int)
    requires InvAt(s, cfg, out, events, d)
    ensures cfg.dst != ""
  {
  }

  lemma CountersIgnoreDisabled(h: HopState, cfg: Config, outstanding: nat)
    ensures CountersOk(h.(disabled := true), cfg, outstanding) <==> CountersOk(h, cfg, outstanding)
  {
  }

  lemma ErrorKeeps(s: Sched, cfg: Config, out: multiset<Token>, events: seq<ProbeEvent>, ttl: int, cancelled: bool)
    requires InvAt(s, cfg, out, events, s.knownFinal) && cfg.beginHop <= ttl <= cfg.maxHops && HasRoom(s, cfg, ttl)
    requires !s.states[ttl].disabled
    ensures var p := ProcessError(s, cfg, ttl, cancelled);
      InvAt(p.s, cfg, out, events + p.events, p.s.knownFinal) && p.s.knownFinal == s.knownFinal
  {
    hide InvAt, Record, ComputeIteration;
    InvShape(s, cfg, out, events, s.knownFinal);
    var p := ProcessError(s, cfg, ttl, cancelled);
    assert events + [] == events;
    if !cancelled {
      if s.states[ttl].consecutiveErrs + 1 < cfg.maxConsecErrs {
        CountErrorKeeps(s, cfg, out, events, s.knownFinal, ttl);
      } else {
        DestinationNotEmpty(s, cfg, out, events, s.knownFinal);
        CompleteKeeps(s, cfg, out, events, s.knownFinal, ttl, TIMEOUT, p.events[0]);
      }
    }
  }

  lemma SuccessKeeps(s: Sched, cfg: Config, out: multiset<Token>, events: seq<ProbeEvent>, ttl: int, r: ProbeResult, fill: Fill,
                     clock: Meta.Clock)
    requires InvAt(s, cfg, out, events, s.knownFinal) && cfg.beginHop <= ttl <= cfg.maxHops && HasRoom(s, cfg, ttl)
    requires !s.states[ttl].disabled
    requires (r.success <==> r.addr != "") && (r.addr != "" ==> IsAddress(r.addr))
    ensures var p := ProcessSuccess(s, cfg, ttl, r, fill, clock);
      && InvAt(p.s, cfg, out, events + p.events, p.s.knownFinal)
      && !BudgetReached(DetectDestination(s, cfg, ttl, r), cfg, ttl) && |p.events| == 1
  {
    hide InvAt, Record, ComputeIteration, Meta.LaunchLookups, FetchAsync, IsAddress;
    InvShape(s, cfg, out, events, s.knownFinal);
    DestinationNotEmpty(s, cfg, out, events, s.knownFinal);
    var s1 := DetectDestination(s, cfg, ttl, r);
    var d1 := DestinationRow(s, cfg, ttl, r);
    DetectKeeps(s, cfg, out, events, ttl, r);
    NotNegative(s, cfg, out, events, s.knownFinal, ttl);
    assert !BudgetReached(s1, cfg, ttl);
    var cached := ApplyCache(s1.meta, r);
    assert cached.addr == r.addr && cached.success == r.success;
    var a := AttemptOf(cfg, cached, fill);
    assert a.ip == r.addr && a.success == r.success;
    var p := ProcessSuccess(s, cfg, ttl, r, fill, clock);
    CompleteKeeps(s1, cfg, out, events, d1, ttl, a, p.events[0]);
    MetaIrrelevant(Record(MarkCompleted(s1, ttl), ttl, a), cfg, out, events + p.events, if a.ip == cfg.dst then ttl else d1, p.s.meta);
  }

  lemma NotNegative(s: Sched, cfg: Config, out: multiset<Token>, events: seq<ProbeEvent>, d: int, ttl: int)
    requires InvAt(s, cfg, out, events, d) && cfg.beginHop <= ttl <= cfg.maxHops
    ensures s.states[ttl].inFlightCount >= 0
  {
    assert HopOk(s, cfg, out, events, d, ttl);
  }

  lemma MetaIrrelevant(s: Sched, cfg: Config, out: multiset<Token>, events: seq<ProbeEvent>, d: int, meta: Meta.State)
    requires InvAt(s, cfg, out, events, d)
    ensures InvAt(s.(meta := meta), cfg, out, events, d)
  {
    hide SentSum, Probes, IsAddress, CountersOk;
    var s' := s.(meta := meta);
    forall t | cfg.beginHop <= t <= cfg.maxHops ensures HopOk(s', cfg, out, events, d, t) {
      assert HopOk(s, cfg, out, events, d, t);
    }
  }

  lemma ResultKeeps(s: Sched, cfg: Config, out: multiset<Token>, events: seq<ProbeEvent>, cp: Completed, cancelled: bool,
                    fill: Fill, clock: Meta.Clock)
    requires InvAt(s, cfg, out, events, s.knownFinal) && Token(cp.ttl, cp.gen) in out && Contract(cp)
    ensures var p := ProcessResult(s, cfg, cp, cancelled, fill, clock);
      InvAt(p.s, cfg, out - multiset{Token(cp.ttl, cp.gen)}, events + p.events, p.s.knownFinal)
  {
    hide InvAt, ProcessError, ProcessSuccess;
    var rest := out - multiset{Token(cp.ttl, cp.gen)};
    assert events + [] == events;
    InvShape(s, cfg, out, events, s.knownFinal);
    if cp.gen != s.generation {
      StaleKeeps(s, cfg, out, events, s.knownFinal, Token(cp.ttl, cp.gen));
    } else {
      PopKeeps(s, cfg, out, events, s.knownFinal, cp.ttl);
      var s2 := Popped(s, cp.ttl);
      if !s.states[cp.ttl].disabled {
        if cp.failed {
          ErrorKeeps(s2, cfg, rest, events, cp.ttl, cancelled);
        } else {
          SuccessKeeps(s2, cfg, rest, events, cp.ttl, cp.result, fill, clock);
        }
      }
    }
  }

  // ----- Every step keeps the invariant -----

  lemma {:induction false} NoProbesYet(events: seq<ProbeEvent>, ttl: int, gen: nat)
    requires forall i :: 0 <= i < |events| ==> events[i].gen < gen
    ensures Probes(events, ttl, gen) == 0
  {
    if events != [] {
      NoProbesYet(events[..|events| - 1], ttl, gen);
    }
  }

  lemma ResetKeeps(s: Sched, cfg: Config, out: multiset<Token>, events: seq<ProbeEvent>, d: int)
    requires InvAt(s, cfg, out, events, d)
    ensures InvAt(HandleReset(s), cfg, out, events, -1)
  {
    hide Probes, IsAddress;
    var s' := HandleReset(s);
    forall t | cfg.beginHop <= t <= cfg.maxHops ensures HopOk(s', cfg, out, events, -1, t) {
      NoProbesYet(events, t, s.generation + 1);
      if Token(t, s.generation + 1) in out {
        assert false;
      }
      assert Sents(RowsAt(s'.agg, t)) == map[];
    }
  }

  lemma MetadataKeeps(s: Sched, cfg: Config, out: multiset<Token>, events: seq<ProbeEvent>, d: int, kind: Meta.Kind,
                      patch: Meta.Patch, gen: nat, parses: bool, clock: Meta.Clock)
    requires InvAt(s, cfg, out, events, d)
    ensures InvAt(ProcessMetadata(s, cfg, kind, patch, gen, parses, clock).s, cfg, out, events, d)
  {
    hide SentSum, Probes, IsAddress, CountersOk, PatchMetadata, Meta.ProcessResult;
    var s' := ProcessMetadata(s, cfg, kind, patch, gen, parses, clock).s;
    forall t: int ensures SentSum(RowsAt(s'.agg, t)) == SentSum(RowsAt(s.agg, t)) && RowsAt(s'.agg, t).Keys == RowsAt(s.agg, t).Keys {
      PatchKeepsSums(s.agg, patch.ip, patch.host, patch.geo, t);
    }
    assert s'.agg.Keys == s.agg.Keys by { PatchKeepsSums(s.agg, patch.ip, patch.host, patch.geo, 0); }
    forall t | cfg.beginHop <= t <= cfg.maxHops ensures HopOk(s', cfg, out, events, d, t) {
      assert HopOk(s, cfg, out, events, d, t);
      assert IpKey(cfg.dst) in RowsAt(s'.agg, t) <==> IpKey(cfg.dst) in RowsAt(s.agg, t).Keys;
    }
  }

  lemma ReadyKeeps(w: World, cfg: Config, paused: bool, time: int, at: seq<int>)
    requires Inv(w, cfg)
    ensures Inv(ThenSchedule(w, cfg, paused, time, at), cfg)
  {
    hide InvAt;
    InvShape(w.s, cfg, w.out, w.events, w.s.knownFinal);
    NoTokens(w.out, w.s.generation);
    ScheduleKeeps(w.s, cfg, w.out, w.events, w.s.knownFinal, cfg.beginHop, time, at);
  }

  lemma StepKeeps(w: World, cfg: Config, i: Input)
    requires Inv(w, cfg) && Enabled(w, i)
    ensures Inv(Step(w, cfg, i), cfg)
  {
    hide InvAt, ThenSchedule, ProcessResult, ProcessMetadata, IsDone, HandleReset, Contract;
    InvShape(w.s, cfg, w.out, w.events, w.s.knownFinal);
    match i
    case ProbeDone(cp, cancelled, fill, clock, paused, time, at) =>
      ResultKeeps(w.s, cfg, w.out, w.events, cp, cancelled, fill, clock);
      var w1 := AfterResult(w, cfg, i);
      ReadyKeeps(w1, cfg, paused, time, at);
    case LookupDone(kind, patch, gen, parses, clock) =>
      MetadataKeeps(w.s, cfg, w.out, w.events, w.s.knownFinal, kind, patch, gen, parses, clock);
      MetadataKeepsFinal(w.s, cfg, kind, patch, gen, parses, clock);
    case LookupDropped(l) =>
    case Tick(reset, paused, time, at) =>
      ResetKeeps(w.s, cfg, w.out, w.events, w.s.knownFinal);
      ResetForgetsFinal(w.s);
      ReadyKeeps(if reset then w.(s := HandleReset(w.s), log := w.log + [Meta.WasReset]) else w, cfg, paused, time, at);
  }

  lemma MetadataKeepsFinal(s: Sched, cfg: Config, kind: Meta.Kind, patch: Meta.Patch, gen: nat, parses: bool, clock: Meta.Clock)
    ensures ProcessMetadata(s, cfg, kind, patch, gen, parses, clock).s.knownFinal == s.knownFinal
  {
  }

  lemma ResetForgetsFinal(s: Sched)
    ensures HandleReset(s).knownFinal == -1
  {
  }

  lemma InitialOk(cfg: Config)
    requires ValidConfig(cfg)
    ensures InvAt(Initial(cfg), cfg, multiset{}, [], -1)
  {
    var s := Initial(cfg);
    forall t | cfg.beginHop <= t <= cfg.maxHops ensures HopOk(s, cfg, multiset{}, [], -1, t) {
      assert Sents(RowsAt(s.agg, t)) == map[];
    }
  }

  lemma BeginOk(cfg: Config, paused: bool, time: int, at: seq<int>)
    requires ValidConfig(cfg)
    ensures Inv(Begin(cfg, paused, time, at), cfg)
  {
    hide InvAt, ThenSchedule, IsAddress;
    InitialOk(cfg);
    InvShape(Initial(cfg), cfg, multiset{}, [], -1);
    ReadyKeeps(World(Initial(cfg), multiset{}, [], multiset{}, [], 0, false), cfg, paused, time, at);
  }

  lemma {:induction false} RunKeeps(w: World, cfg: Config, inputs: seq<Input>)
    requires ValidConfig(cfg) && Shaped(w.s, cfg)
    requires Inv(w, cfg) && ValidRun(w, cfg, inputs)
    ensures Inv(Run(w, cfg, inputs), cfg)
    decreases |inputs|
  {
    hide Inv, Step, ValidConfig;
    if inputs != [] {
      StepKeeps(w, cfg, inputs[0]);
      RunKeeps(Step(w, cfg, inputs[0]), cfg, inputs[1..]);
    }
  }

  // ----- What holds in every reachable state -----

  /** The world reached by a run of the event loop. */
  ghost predicate Reachable(w: World, cfg: Config) {
    && ValidConfig(cfg)
    && exists paused, time, at, inputs ::
         ReachedBy(w, cfg, paused, time, at, inputs)
  }

  ghost predicate ReachedBy(w: World, cfg: Config, paused: bool, time: int, at: seq<int>, inputs: seq<Input>)
    requires ValidConfig(cfg)
  {
    BeginShaped(cfg, paused, time, at);
    var w0 := Begin(cfg, paused, time, at);
    ValidRun(w0, cfg, inputs) && w == Run(w0, cfg, inputs)
  }

  lemma BeginShaped(cfg: Config, paused: bool, time: int, at: seq<int>)
    requires ValidConfig(cfg)
    ensures Shaped(Begin(cfg, paused, time, at).s, cfg)
  {
    SchedulingKeepsShape(Initial(cfg), cfg, cfg.beginHop, time, at);
  }

  lemma ReachableOk(w: World, cfg: Config)
    requires Reachable(w, cfg)
    ensures Inv(w, cfg)
  {
    hide Inv;
    var paused, time, at, inputs :| ReachedBy(w, cfg, paused, time, at, inputs);
    BeginShaped(cfg, paused, time, at);
    BeginOk(cfg, paused, time, at);
    RunKeeps(Begin(cfg, paused, time, at), cfg, inputs);
  }

  /** Snt accounting: for every TTL up to the effective maximum, the sent counts
      of its rows, its completed counter and the onProbe calls of this
      generation agree; above it they do unless the rows were cleared. */
  lemma SentAccounting(w: World, cfg: Config, ttl: int)
    requires Reachable(w, cfg) && cfg.beginHop <= ttl <= cfg.maxHops
    ensures ttl < |w.s.states|
    ensures ttl <= EffectiveMax(w.s, cfg) ==> SentSum(RowsAt(w.s.agg, ttl)) == w.s.states[ttl].completed
    ensures ttl > EffectiveMax(w.s, cfg) ==>
      SentSum(RowsAt(w.s.agg, ttl)) == if ttl in w.s.agg then w.s.states[ttl].completed else 0
    ensures Probes(w.events, ttl, w.s.generation) == w.s.states[ttl].completed
  {
    hide SentSum, Probes, IsAddress, CountersOk, Reachable;
    ReachableOk(w, cfg);
    assert HopOk(w.s, cfg, w.out, w.events, w.s.knownFinal, ttl);
    NothingSent();
  }

  lemma NothingSent()
    ensures SentSum(map[]) == 0
  {
    assert Sents(map[]) == map[];
  }

  /** The destination: its TTL is in range, exactly the TTLs above it are
      disabled, and exactly at that TTL there is a row of the destination. */
  lemma DestinationIsFinal(w: World, cfg: Config, ttl: int)
    requires Reachable(w, cfg) && cfg.beginHop <= ttl <= cfg.maxHops
    ensures ttl < |w.s.states|
    ensures w.s.knownFinal == -1 || cfg.beginHop <= w.s.knownFinal <= cfg.maxHops
    ensures w.s.states[ttl].disabled <==> w.s.knownFinal != -1 && ttl > w.s.knownFinal
    ensures IpKey(cfg.dst) in RowsAt(w.s.agg, ttl) <==> ttl == w.s.knownFinal
  {
    hide SentSum, Probes, IsAddress, CountersOk, Reachable;
    ReachableOk(w, cfg);
    assert HopOk(w.s, cfg, w.out, w.events, w.s.knownFinal, ttl);
  }

  /** The counters of what is on its way, and their bounds. */
  lemma FlightsAreBounded(w: World, cfg: Config, ttl: int)
    requires Reachable(w, cfg) && cfg.beginHop <= ttl <= cfg.maxHops
    ensures ttl < |w.s.states|
    ensures w.s.inFlight == |w.out| <= cfg.parallelism
    ensures w.s.states[ttl].inFlightCount == w.out[Token(ttl, w.s.generation)] <= cfg.maxInFlightHop
    ensures cfg.maxPerHop > 0 ==> w.s.states[ttl].completed + w.s.states[ttl].inFlightCount <= cfg.maxPerHop
  {
    hide SentSum, Probes, IsAddress, Reachable;
    ReachableOk(w, cfg);
    assert HopOk(w.s, cfg, w.out, w.events, w.s.knownFinal, ttl);
  }

  /** The branch of a successful probe that finds its budget used up is dead. */
  lemma BudgetBranchIsDead(w: World, cfg: Config, cp: Completed)
    requires Reachable(w, cfg) && Token(cp.ttl, cp.gen) in w.out && Contract(cp) && cp.gen == w.s.generation
    ensures 0 <= cp.ttl < |w.s.states|
    ensures !w.s.states[cp.ttl].disabled ==>
      var s := Popped(w.s, cp.ttl);
      |DetectDestination(s, cfg, cp.ttl, cp.result).states| == |s.states|
      && !BudgetReached(DetectDestination(s, cfg, cp.ttl, cp.result), cfg, cp.ttl)
  {
    hide InvAt;
    ReachableOk(w, cfg);
    InvShape(w.s, cfg, w.out, w.events, w.s.knownFinal);
    PopKeeps(w.s, cfg, w.out, w.events, w.s.knownFinal, cp.ttl);
    if !w.s.states[cp.ttl].disabled {
      var s := Popped(w.s, cp.ttl);
      DetectKeeps(s, cfg, w.out - multiset{Token(cp.ttl, cp.gen)}, w.events, cp.ttl, cp.result);
      InvShape(s, cfg, w.out - multiset{Token(cp.ttl, cp.gen)}, w.events, s.knownFinal);
      NotNegative(s, cfg, w.out - multiset{Token(cp.ttl, cp.gen)}, w.events, s.knownFinal, cp.ttl);
    }
  }

  /** A result of a past generation changes the in-flight count and nothing else. */
  lemma StaleResultIsInert(s: Sched, cfg: Config, cp: Completed, cancelled: bool, fill: Fill, clock: Meta.Clock)
    requires ValidConfig(cfg) && Shaped(s, cfg) && cp.gen != s.generation
    ensures ProcessResult(s, cfg, cp, cancelled, fill, clock) == Processed(s.(inFlight := s.inFlight - 1), [], [])
  {
  }
}
