/** The tracer object: the pending marks, the send times, the final TTL behind a
    compare-and-swap, and the result.  A call that is not interrupted does what
    the interleaved steps of TraceProtocol do in one go. */
module TraceTracer {
  import opened Text
  import opened TraceAudit
  import opened TraceProtocol

  class AtomicInt {
    var value: int

    constructor (value: int)
      ensures this.value == value
    {
      this.value := value;
    }

    method CompareAndSwap(expected: int, next: int) returns (swapped: bool)
      modifies this
      ensures swapped <==> old(value) == expected
      ensures value == if swapped then next else old(value)
    {
      swapped := value == expected;
      if swapped { value := next; }
    }
  }

  function Lowered(final: int, ttl: int): int {
    if final == -1 || ttl < final then ttl else final
  }

  /** A reply for an attempt: the final TTL and the result after it. */
  function Receive(final: int, res: Result, cfg: Config, key: Key, addr: string, rtt: int, mpls: seq<string>): (int, Added)
    requires Holds(res, key.ttl)
  {
    if Beyond(final, key.ttl) then (final, Added(res, false, -1))
    else (if addr == cfg.dst then Lowered(final, key.ttl) else final,
          Add(res, ReplyHop(key, addr, rtt, mpls), key.i, cfg.n, cfg.m))
  }

  class IcmpTracer {
    const cfg: Config
    var pending: set<int>
    var sentAt: map<int, int>
    const final: AtomicInt
    const res: TraceResult

    constructor (cfg: Config)
      requires ValidConfig(cfg)
      ensures this.cfg == cfg && pending == {} && sentAt == map[] && final.value == -1 && res.Val() == Empty(cfg.maxHops)
      ensures fresh(final) && fresh(res)
    {
      this.cfg := cfg;
      pending, sentAt := {}, map[];
      final := new AtomicInt(-1);
      res := new TraceResult(cfg.maxHops);
    }

    /** The object holds the shared part of a state of the protocol. */
    ghost predicate Shares(w: World)
      reads this, final, res
    {
      pending == w.pending && sentAt == w.sentAt && final.value == w.final && res.Val() == w.res
    }

    /** Marking is what a launch does to the shared state. */
    method MarkPending(num: int, ghost w: World, ghost key: Key)
      requires Shares(w) && Shaped(w, cfg) && Enabled(w, cfg, Launch(key)) && num == NumOf(key.ttl, key.i)
      modifies this`pending
      ensures Shares(Step(w, cfg, Launch(key)))
    {
      pending := pending + {num};
    }

    /** Clearing is what a failed send, a guard or a match worker does to the
        shared state; the caller is told whether it now holds the attempt. */
    method ClearPending(num: int, ghost w: World, ghost i: Input) returns (won: bool)
      requires Shares(w) && Shaped(w, cfg) && Enabled(w, cfg, i) && Clears(w, cfg, i, num)
      modifies this`pending
      ensures Shares(Step(w, cfg, i)) && (won <==> num in w.pending)
      ensures i.Expire? || i.Claim? ==> (won <==> Holding(Step(w, cfg, i).threads[ActorOf(i)]))
    {
      won := num in pending;
      pending := pending - {num};
    }

    /** Storing the send time is what the end of a send does to the shared state. */
    method StoreSent(num: int, start: int, ghost w: World, ghost key: Key)
      requires Shares(w) && Shaped(w, cfg) && Enabled(w, cfg, SendDone(key, start)) && num == NumOf(key.ttl, key.i)
      modifies this`sentAt
      ensures Shares(Step(w, cfg, SendDone(key, start)))
    {
      sentAt := sentAt[num := start];
    }

    /** Looking up decides whether a worker goes on with a reply, and with which RTT. */
    method LookupSent(num: int, ghost w: World, ghost n: nat, ghost addr: string, ghost finish: int,
                      ghost mpls: seq<string>)
      returns (start: Option<int>)
      requires Shares(w) && Shaped(w, cfg) && Enabled(w, cfg, Match(n, num, addr, finish, mpls))
      ensures Shares(Step(w, cfg, Match(n, num, addr, finish, mpls)))
      ensures At(Step(w, cfg, Match(n, num, addr, finish, mpls)), Worker(n),
                 if start.Some? then Looked(num, addr, finish - start.value, mpls) else Idle)
    {
      start := if num in sentAt then Some(sentAt[num]) else None;
    }

    /** Dropping the send time is the last step of an attempt. */
    method DropSent(num: int, ghost w: World, ghost t: Thread)
      requires Shares(w) && Shaped(w, cfg) && Enabled(w, cfg, Drop(t)) && w.threads[t].num == num
      modifies this`sentAt
      ensures Shares(Step(w, cfg, Drop(t)))
    {
      sentAt := sentAt - {num};
    }

    method LowerFinal(ttl: int)
      modifies final
      ensures final.value == Lowered(old(final.value), ttl)
    {
      var done := false;
      while !done
        invariant done ==> final.value == Lowered(old(final.value), ttl)
        invariant !done ==> final.value == old(final.value)
        decreases !done
      {
        var seen := final.value;
        if seen != -1 && ttl >= seen {
          done := true;
        } else {
          done := final.CompareAndSwap(seen, ttl);
        }
      }
    }

    method AddHopWithIndex(key: Key, addr: string, rtt: int, mpls: seq<string>) returns (added: bool, idx: int)
      requires Holds(res.Val(), key.ttl)
      modifies final, res
      ensures (final.value, Added(res.Val(), added, idx)) ==
                Receive(old(final.value), old(res.Val()), cfg, key, addr, rtt, mpls)
    {
      if Beyond(final.value, key.ttl) { return false, -1; }
      if addr == cfg.dst {
        LowerFinal(key.ttl);
      }
      added, idx := res.AddHop(ReplyHop(key, addr, rtt, mpls), key.i, cfg.n, cfg.m);
    }

    /** A send, not interrupted, from marking the attempt to storing its send
        time; without one it failed, and the mark is cleared again.  It is a run
        of the sender's steps, and leaves the timeout guard behind. */
    method Send(key: Key, start: Option<int>, ghost w: World) returns (ghost inputs: seq<Input>, ghost w': World)
      requires Shares(w) && Inv(w, cfg) && Enabled(w, cfg, Launch(key))
      modifies this`pending, this`sentAt
      ensures Runs(w, cfg, inputs, w') && Inv(w', cfg) && Shares(w')
      ensures At(w', Guard(key), Timing) && At(w', Sender(key), Over)
      ensures start.Some? ==> NumOf(key.ttl, key.i) in w'.pending && NumOf(key.ttl, key.i) in w'.sentAt
      ensures start.None? ==> NumOf(key.ttl, key.i) !in w'.pending
    {
      hide Inv, Runs, Shaped;
      var num := NumOf(key.ttl, key.i);
      ghost var launch := Launch(key);
      ghost var end := if start.Some? then SendDone(key, start.value) else SendFails(key);
      InvShaped(w, cfg);
      MarkPending(num, w, key);
      ghost var w1 := Step(w, cfg, launch);
      Finish(w, cfg, launch);
      StepKeeps(w, cfg, launch);
      InvShaped(w1, cfg);
      if start.Some? {
        StoreSent(num, start.value, w1, key);
      } else {
        var _ := ClearPending(num, w1, end);
      }
      w' := Step(w1, cfg, end);
      Finish(w1, cfg, end);
      StepKeeps(w1, cfg, end);
      JoinRuns(w, cfg, [launch], w1, [end], w');
      inputs := [launch] + [end];
    }

    /** The body of a match worker's loop, not interrupted, is a run of the
        protocol's steps for that worker, which is idle again afterwards. */
    method MatchReply(num: int, addr: string, finish: int, mpls: seq<string>, ghost w: World, ghost n: nat)
      returns (ghost inputs: seq<Input>, ghost w': World)
      requires Shares(w) && Inv(w, cfg) && Enabled(w, cfg, Match(n, num, addr, finish, mpls))
      modifies this`pending, this`sentAt, final, res
      ensures Runs(w, cfg, inputs, w') && Inv(w', cfg) && Shares(w') && At(w', Worker(n), Idle)
    {
      hide Inv, Step, Runs, Receive, Enabled, Shaped;
      ghost var t, lookup, claim := Worker(n), Match(n, num, addr, finish, mpls), Claim(n);
      InvShaped(w, cfg);
      var start := LookupSent(num, w, n, addr, finish, mpls);
      ghost var w1 := Step(w, cfg, lookup);
      Finish(w, cfg, lookup);
      StepKeeps(w, cfg, lookup);
      if start.None? {
        return [lookup], w1;
      }
      var rtt := finish - start.value;
      ClaimFollows(w1, cfg, n, num, addr, rtt, mpls);
      InvShaped(w1, cfg);
      var won := ClearPending(num, w1, claim);
      ghost var w2 := Step(w1, cfg, claim);
      StepKeeps(w1, cfg, claim);
      Finish(w1, cfg, claim);
      JoinRuns(w, cfg, [lookup], w1, [claim], w2);
      ghost var w3, soFar := w2, [lookup] + [claim];
      if won {
        var key := Decode(num);
        w3 := AloneIsAtomic(w2, cfg, n, key, addr, rtt, mpls);
        var _, _ := AddHopWithIndex(key, addr, rtt, mpls);
        JoinRuns(w, cfg, soFar, w2, Uninterrupted(w2, cfg, n, key, addr), w3);
        soFar := soFar + Uninterrupted(w2, cfg, n, key, addr);
      }
      RunKeeps(w, cfg, soFar, w3);
      InvShaped(w3, cfg);
      DropFollows(w3, cfg, n, num);
      DropSent(num, w3, t);
      w' := Step(w3, cfg, Drop(t));
      StepKeeps(w3, cfg, Drop(t));
      Finish(w3, cfg, Drop(t));
      JoinRuns(w, cfg, soFar, w3, [Drop(t)], w');
      inputs := soFar + [Drop(t)];
    }
  }

  /** The steps that clear a mark, with the number they clear. */
  ghost predicate Clears(w: World, cfg: Config, i: Input, num: int)
    requires Enabled(w, cfg, i)
  {
    match i
    case SendFails(key) => num == NumOf(key.ttl, key.i)
    case Expire(key) => num == NumOf(key.ttl, key.i)
    case Cancel(key) => num == NumOf(key.ttl, key.i)
    case Claim(n) => num == w.threads[Worker(n)].num
    case _ => false
  }

  lemma InvShaped(w: World, cfg: Config)
    requires Inv(w, cfg)
    ensures Shaped(w, cfg)
  {
  }

  /** A worker with a reply claims the attempt, or is left with the send time. */
  lemma ClaimFollows(w: World, cfg: Config, n: nat, num: int, addr: string, rtt: int, mpls: seq<string>)
    requires Inv(w, cfg) && At(w, Worker(n), Looked(num, addr, rtt, mpls))
    ensures Shaped(w, cfg) && Enabled(w, cfg, Claim(n)) && Clears(w, cfg, Claim(n), num)
    ensures At(Step(w, cfg, Claim(n)), Worker(n),
               if num in w.pending then Claimed(Decode(num), ReplyHop(Decode(num), addr, rtt, mpls)) else Dropping(num))
    ensures num in w.pending ==> NumOf(Decode(num).ttl, Decode(num).i) == num
  {
    assert PendingOk(w, num);
  }

  lemma DropFollows(w: World, cfg: Config, n: nat, num: int)
    requires Shaped(w, cfg) && At(w, Worker(n), Dropping(num))
    ensures Enabled(w, cfg, Drop(Worker(n))) && At(Step(w, cfg, Drop(Worker(n))), Worker(n), Idle)
  {
  }

  lemma {:induction false} JoinRuns(w: World, cfg: Config, a: seq<Input>, mid: World, b: seq<Input>, w': World)
    requires Runs(w, cfg, a, mid) && Runs(mid, cfg, b, w')
    ensures Runs(w, cfg, a + b, w')
    decreases |a|
  {
    hide Step, Enabled, Shaped;
    if a == [] {
      assert a + b == b;
    } else {
      JoinRuns(Step(w, cfg, a[0]), cfg, a[1..], mid, b, w');
      assert (a + b)[1..] == a[1..] + b;
    }
  }

  /** Steps of the worker that has just won the mark, taken without a break. */
  function Uninterrupted(w: World, cfg: Config, n: nat, key: Key, addr: string): seq<Input> {
    var t := Worker(n);
    if Beyond(w.final, key.ttl) then [CheckFinal(t)]
    else if addr != cfg.dst then [CheckFinal(t), AddHop(t)]
    else if w.final != -1 && key.ttl >= w.final then [CheckFinal(t), LoadFinal(n), AddHop(t)]
    else [CheckFinal(t), LoadFinal(n), Swap(n), AddHop(t)]
  }

  /** Lowering the final TTL for a reply of the destination, without a break. */
  lemma DestinationSteps(w: World, cfg: Config, n: nat, key: Key, hop: Hop) returns (mid: seq<Input>, w': World)
    requires Inv(w, cfg) && At(w, Worker(n), Comparing(key, hop))
    ensures Runs(w, cfg, mid, w') && Inv(w', cfg) && At(w', Worker(n), Adding(key, hop))
    ensures w'.final == Lowered(w.final, key.ttl)
    ensures w'.res == w.res && w'.pending == w.pending && w'.sentAt == w.sentAt && w'.updates == w.updates
    ensures mid == if w.final != -1 && key.ttl >= w.final then [LoadFinal(n)] else [LoadFinal(n)] + [Swap(n)]
  {
    hide Inv, Runs;
    var t := Worker(n);
    Shapes(w, cfg, t);
    var w1 := Step(w, cfg, LoadFinal(n));
    StepKeeps(w, cfg, LoadFinal(n));
    Finish(w, cfg, LoadFinal(n));
    if w.final != -1 && key.ttl >= w.final {
      return [LoadFinal(n)], w1;
    }
    Shapes(w1, cfg, t);
    w' := Step(w1, cfg, Swap(n));
    StepKeeps(w1, cfg, Swap(n));
    Finish(w1, cfg, Swap(n));
    JoinRuns(w, cfg, [LoadFinal(n)], w1, [Swap(n)], w');
    mid := [LoadFinal(n)] + [Swap(n)];
  }

  /** Checking the final TTL comes first; beyond it nothing is added. */
  lemma CheckStep(w: World, cfg: Config, n: nat, key: Key, hop: Hop, w1: World)
    requires Inv(w, cfg) && At(w, Worker(n), Claimed(key, hop))
    requires Shaped(w, cfg) && w1 == Step(w, cfg, CheckFinal(Worker(n)))
    ensures Inv(w1, cfg) && Runs(w, cfg, [CheckFinal(Worker(n))], w1)
    ensures w1.final == w.final && w1.res == w.res && w1.pending == w.pending && w1.sentAt == w.sentAt && w1.updates == w.updates
    ensures At(w1, Worker(n), if Beyond(w.final, key.ttl) then Dropping(NumOf(key.ttl, key.i))
                              else if hop.addr == cfg.dst then Comparing(key, hop) else Adding(key, hop))
  {
    hide Inv, Runs;
    StepKeeps(w, cfg, CheckFinal(Worker(n)));
    Finish(w, cfg, CheckFinal(Worker(n)));
  }

  lemma AddStep(w: World, cfg: Config, n: nat, key: Key, hop: Hop) returns (w': World)
    requires Inv(w, cfg) && At(w, Worker(n), Adding(key, hop))
    ensures Runs(w, cfg, [AddHop(Worker(n))], w') && Holds(w.res, key.ttl) && hop.ttl == key.ttl
    ensures w'.final == w.final && w'.pending == w.pending && w'.sentAt == w.sentAt
    ensures var a := Add(w.res, hop, key.i, cfg.n, cfg.m);
      w'.res == a.r && w'.updates == if a.ok then w.updates + {Update(hop.ttl, a.idx, key.i)} else w.updates
    ensures At(w', Worker(n), Dropping(NumOf(key.ttl, key.i)))
  {
    Shapes(w, cfg, Worker(n));
    hide Inv, Runs, Add;
    w' := Step(w, cfg, AddHop(Worker(n)));
    Finish(w, cfg, AddHop(Worker(n)));
  }

  /** Run without a break, the steps amount to AddHopWithIndex. */
  lemma AloneIsAtomic(w: World, cfg: Config, n: nat, key: Key, addr: string, rtt: int, mpls: seq<string>) returns (w': World)
    requires Inv(w, cfg) && At(w, Worker(n), Claimed(key, ReplyHop(key, addr, rtt, mpls)))
    ensures Runs(w, cfg, Uninterrupted(w, cfg, n, key, addr), w')
    ensures Holds(w.res, key.ttl)
    ensures var (final, a) := Receive(w.final, w.res, cfg, key, addr, rtt, mpls);
      && w'.final == final && w'.res == a.r
      && w'.updates == if a.ok then w.updates + {Update(key.ttl, a.idx, key.i)} else w.updates
    ensures w'.pending == w.pending && w'.sentAt == w.sentAt && At(w', Worker(n), Dropping(NumOf(key.ttl, key.i)))
  {
    Shapes(w, cfg, Worker(n));
    hide Inv, Runs, Step, Enabled, Add, Shaped;
    var t, hop := Worker(n), ReplyHop(key, addr, rtt, mpls);
    var check, add := [CheckFinal(t)], [AddHop(t)];
    var w1 := Step(w, cfg, CheckFinal(t));
    CheckStep(w, cfg, n, key, hop, w1);
    if Beyond(w.final, key.ttl) { return w1; }
    var mid: seq<Input>, w2 := [], w1;
    if addr == cfg.dst {
      mid, w2 := DestinationSteps(w1, cfg, n, key, hop);
      JoinRuns(w, cfg, check, w1, mid, w2);
    } else {
      assert check + mid == check;
    }
    w' := AddStep(w2, cfg, n, key, hop);
    JoinRuns(w, cfg, check + mid, w2, add, w');
    assert check + mid + add == Uninterrupted(w, cfg, n, key, addr);
  }

  lemma Shapes(w: World, cfg: Config, t: Thread)
    requires Inv(w, cfg) && t in w.threads && Holding(w.threads[t])
    ensures Shaped(w, cfg) && Holds(w.res, w.threads[t].key.ttl) && w.threads[t].hop.ttl == w.threads[t].key.ttl
  {
    assert ThreadOk(w, t) && LaunchedOk(w, cfg, w.threads[t].key);
  }

  lemma Finish(w: World, cfg: Config, i: Input)
    requires Shaped(w, cfg) && Enabled(w, cfg, i)
    ensures Runs(w, cfg, [i], Step(w, cfg, i))
  {
    var none: seq<Input> := [];
    assert [i][1..] == none;
    assert Runs(Step(w, cfg, i), cfg, none, Step(w, cfg, i));
  }
}
