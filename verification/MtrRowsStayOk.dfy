/** Every row of the aggregate stays statistically possible: through the
    aggregator's operations, and so in every state the scheduler reaches. */
module MtrRowsStayOk {
  import opened Text
  import opened MtrAccum
  import opened MtrRows
  import opened MtrScheduler
  import opened MtrSchedulerProofs

  ghost predicate RowsOk(rows: Rows) {
    forall k :: k in rows ==> AccumOk(rows[k])
  }

  ghost predicate ViewOk(view: View) {
    forall ttl :: ttl in view ==> RowsOk(view[ttl])
  }

  lemma RowForOk(rows: Rows, ttl: int, key: Key)
    requires RowsOk(rows)
    ensures AccumOk(RowFor(rows, ttl, key))
  {
  }

  lemma UpdateRowsKeepOk(rows: Rows, ttl: int, attempts: seq<Attempt>)
    requires RowsOk(rows)
    ensures RowsOk(UpdateRows(rows, ttl, attempts))
  {
    hide AccumOk, GroupOk, MergeGroup, MergeAccum, NewAccum, Groups;
    var groups := Groups(attempts);
    var merged := MergeGroups(rows, ttl, groups);
    GroupsOk(attempts);
    forall k | k in merged ensures AccumOk(merged[k]) {
      if k in groups {
        RowForOk(rows, ttl, k);
        MergesKeepMoments(RowFor(rows, ttl, k), groups[k], RowFor(rows, ttl, k));
      }
    }
    MergeUnknownOk(merged);
  }

  lemma MergeUnknownOk(rows: Rows)
    requires RowsOk(rows)
    ensures RowsOk(MergeUnknown(rows))
  {
    hide AccumOk, MergeAccum;
    if MergesUnknown(rows) {
      var k := TheKnown(rows);
      assert k in Known(rows);
      MergesKeepMoments(rows[k], NewGroup("", ""), rows[UnknownKey]) by {
        EmptyGroupOk();
      }
    }
  }

  lemma EmptyGroupOk()
    ensures GroupOk(NewGroup("", ""))
  {
  }

  lemma RowsAtOk(view: View, ttl: int)
    requires ViewOk(view)
    ensures RowsOk(RowsAt(view, ttl))
  {
  }

  /** Update, ClearHop, MigrateStats and late metadata keep every row possible. */
  lemma OperationsKeepOk(view: View, hops: seq<seq<Attempt>>, ttl: int, toTtl: int, maxPerHop: int,
                         ip: string, host: string, geo: Option<Geo>)
    requires ViewOk(view)
    ensures ViewOk(MtrRows.Update(view, hops))
    ensures ViewOk(MtrRows.ClearHop(view, ttl))
    ensures ViewOk(MigrateStats(view, ttl, toTtl, maxPerHop))
    ensures ViewOk(PatchMetadata(view, ip, host, geo))
  {
    hide RowsOk, UpdateRows;
    forall t | t in MtrRows.Update(view, hops) ensures RowsOk(MtrRows.Update(view, hops)[t]) {
      RowsAtOk(view, t);
      UpdateRowsKeepOk(RowsAt(view, t), t, AttemptsAt(hops, t));
    }
    RowsAtOk(view, ttl);
    RowsAtOk(view, toTtl);
    MigratedOk(RowsAt(view, ttl), RowsAt(view, toTtl), toTtl, maxPerHop);
    PatchKeepsOk(view, ip, host, geo);
  }

  lemma MigratedOk(from: Rows, to: Rows, toTtl: int, maxPerHop: int)
    requires RowsOk(from) && RowsOk(to)
    ensures RowsOk(MigratedRows(from, to, toTtl, maxPerHop))
  {
    hide AccumOk, MergeAccum, Cap;
    var rows := MigratedRows(from, to, toTtl, maxPerHop);
    forall k | k in rows ensures AccumOk(rows[k]) {
      EmptyGroupOk();
      if k in from && k in to {
        MergesKeepMoments(to[k], NewGroup("", ""), from[k]);
      }
      if k in from {
        MovedOk(from[k], toTtl);
      }
      var acc := if k !in from then to[k] else if k in to then MergeAccum(to[k], from[k]) else Moved(from[k], toTtl);
      CapOk(acc, maxPerHop);
    }
  }

  lemma MovedOk(acc: Accum, ttl: int)
    requires AccumOk(acc)
    ensures AccumOk(Moved(acc, ttl))
  {
  }

  lemma CapOk(acc: Accum, maxPerHop: int)
    requires AccumOk(acc)
    ensures AccumOk(Cap(acc, maxPerHop))
  {
    hide AccumOk, CutMoments;
    if maxPerHop > 0 {
      CapKeepsMeanAndVariance(acc, maxPerHop);
    }
  }

  lemma PatchKeepsOk(view: View, ip: string, host: string, geo: Option<Geo>)
    requires ViewOk(view)
    ensures ViewOk(PatchMetadata(view, ip, host, geo))
  {
    var after := PatchMetadata(view, ip, host, geo);
    forall t, k | t in after && k in after[t] ensures AccumOk(after[t][k]) {
      assert RowsOk(view[t]);
      PatchAccumOk(view[t][k], Trim(ip), Trim(host), geo);
    }
  }

  lemma PatchAccumOk(acc: Accum, ip: string, host: string, geo: Option<Geo>)
    requires AccumOk(acc)
    ensures AccumOk(PatchAccum(acc, ip, host, geo))
  {
    hide Trim;
  }

  // ----- In the scheduler -----

  lemma RecordKeepsOk(s: Sched, ttl: int, a: Attempt)
    requires ViewOk(s.agg)
    ensures ViewOk(Record(s, ttl, a).agg)
  {
    hide RowsOk, UpdateRows;
    RowsAtOk(s.agg, ttl);
    UpdateRowsKeepOk(RowsAt(s.agg, ttl), ttl, [a]);
  }

  lemma ResultKeepsOk(s: Sched, cfg: Config, cp: Completed, cancelled: bool, fill: Fill, clock: Meta.Clock)
    requires ValidConfig(cfg) && Shaped(s, cfg) && ViewOk(s.agg)
    ensures ViewOk(ProcessResult(s, cfg, cp, cancelled, fill, clock).s.agg)
  {
    hide RowsOk, Record, ComputeIteration, Meta.LaunchLookups, ApplyCache, FetchAsync, AttemptOf, IsAddress;
    if cp.gen == s.generation && cfg.beginHop <= cp.ttl <= cfg.maxHops && !s.states[cp.ttl].disabled {
      var s2 := Popped(s, cp.ttl);
      if cp.failed {
        RecordKeepsOk(MarkCompleted(s2, cp.ttl), cp.ttl, TIMEOUT);
      } else {
        var s3 := DetectDestination(s2, cfg, cp.ttl, cp.result);
        assert ViewOk(s3.agg);
        var r := ApplyCache(s3.meta, cp.result);
        RecordKeepsOk(MarkCompleted(s3, cp.ttl), cp.ttl, AttemptOf(cfg, r, fill));
      }
    }
  }

  lemma StepKeepsOk(w: World, cfg: Config, i: Input)
    requires ValidConfig(cfg) && Shaped(w.s, cfg) && ViewOk(w.s.agg)
    ensures ViewOk(Step(w, cfg, i).s.agg)
  {
    hide ViewOk, ProcessResult, Meta.ProcessResult, IsDone, IsAddress, PatchMetadata;
    match i
    case ProbeDone(cp, cancelled, fill, clock, paused, time, at) =>
      ResultKeepsOk(w.s, cfg, cp, cancelled, fill, clock);
      ProcessingKeepsShape(w.s, cfg, cp, cancelled, fill, clock);
      SchedulingKeepsShape(AfterResult(w, cfg, i).s, cfg, cfg.beginHop, time, at);
    case LookupDone(_, patch, _, _, _) => PatchKeepsOk(w.s.agg, patch.ip, patch.host, patch.geo);
    case LookupDropped(_) =>
    case Tick(reset, paused, time, at) =>
      NothingIsOk();
      SchedulingKeepsShape(if reset then HandleReset(w.s) else w.s, cfg, cfg.beginHop, time, at);
  }

  lemma NothingIsOk()
    ensures ViewOk(map[])
  {
  }

  lemma {:induction false} RunKeepsOk(w: World, cfg: Config, inputs: seq<Input>)
    requires ValidConfig(cfg) && Shaped(w.s, cfg) && ViewOk(w.s.agg)
    ensures ViewOk(Run(w, cfg, inputs).s.agg)
    decreases |inputs|
  {
    hide ViewOk;
    if inputs != [] {
      StepKeepsOk(w, cfg, inputs[0]);
      RunKeepsOk(Step(w, cfg, inputs[0]), cfg, inputs[1..]);
    }
  }

  lemma ReachableRowsOk(w: World, cfg: Config)
    requires Reachable(w, cfg)
    ensures ViewOk(w.s.agg)
  {
    hide ViewOk, Step, ThenSchedule;
    var paused, time, at, inputs :| ReachedBy(w, cfg, paused, time, at, inputs);
    BeginShaped(cfg, paused, time, at);
    NothingIsOk();
    BeginAggregate(cfg, paused, time, at);
    RunKeepsOk(Begin(cfg, paused, time, at), cfg, inputs);
  }

  /** Whatever the environment did, every row shows a loss between 0 and 100
      and its variance needed no clamping at zero. */
  lemma RowsArePossible(w: World, cfg: Config, ttl: int, key: Key)
    requires Reachable(w, cfg) && ttl in w.s.agg && key in w.s.agg[ttl]
    ensures var row := w.s.agg[ttl][key];
      && AccumOk(row)
      && 0.0 <= BuildStat(row).loss <= 100.0
      && (row.m.received > 0 ==> row.m.sumSq - SquareOver(row.m.sum, row.m.received as real) >= 0.0)
  {
    hide Reachable, MomentsOk, SquareOver, Mean, Variance;
    var row := w.s.agg[ttl][key];
    ReachableRowsOk(w, cfg);
    RowOf(w.s.agg, ttl, key);
    if row.m.received > 0 {
      VarianceNeedsNoClamp(row.m);
    }
    LossInRange(row.sent, row.m.received);
  }

  lemma RowOf(view: View, ttl: int, key: Key)
    requires ViewOk(view) && ttl in view && key in view[ttl]
    ensures AccumOk(view[ttl][key])
  {
  }

  lemma BeginAggregate(cfg: Config, paused: bool, time: int, at: seq<int>)
    requires ValidConfig(cfg)
    ensures Begin(cfg, paused, time, at).s.agg == map[]
  {
    SchedulingKeepsShape(Initial(cfg), cfg, cfg.beginHop, time, at);
  }

  lemma LossInRange(sent: nat, received: nat)
    requires received <= sent
    ensures sent > 0 ==> 0.0 <= (sent - received) as real / sent as real * 100.0 <= 100.0
  {
    if sent > 0 {
      var a, b := (sent - received) as real, sent as real;
      assert 0.0 <= a <= b;
      Fraction(a, b);
    }
  }

  lemma Fraction(a: real, b: real)
    requires 0.0 <= a <= b && b > 0.0
    ensures 0.0 <= a / b <= 1.0
  {
    var q := a / b;
    assert q * b == a;
    assert q < 0.0 ==> q * b < 0.0;
    assert q > 1.0 ==> (q - 1.0) * b > 0.0;
  }
}
