/** The persistent ICMP engine: concurrent ProbeTTL calls, the listener, Reset
    and the rotation of the echo identifier, as interleaved critical sections. */
module IcmpEngine {
  import opened Text
  import opened Words

  const MAX_SEQ := 0xFFFF
  const DEFAULT_TIMEOUT := 2_000_000_000

  /** Whether the 16-bit wire number wraps within the next probeCount probes. */
  predicate SeqWillWrap(counter: nat, probeCount: int) {
    probeCount > 0 && (counter % 0x10000 + probeCount % WORD) % WORD > MAX_SEQ
  }

  /** A registered probe; owner and timedBy name the calls that registered it and
      that set its start time last. */
  datatype ProbeMeta = ProbeMeta(ttl: int, start: int, round: nat, owner: nat, timedBy: nat)

  datatype Reply = Reply(peer: string, rtt: int, mpls: seq<string>, meta: ProbeMeta)

  /** The fields shared by all calls.  Channels are named by the call that made
      them; closed holds those that have been closed. */
  datatype Engine = Engine(seqCounter: nat, roundID: nat, knownFinal: int, sentAt: map<nat, ProbeMeta>,
                           replied: map<nat, Reply>, notify: map<nat, nat>, closed: set<nat>)

  const FRESH := Engine(0, 0, -1, map[], map[], map[], {})

  function MaxRtt(timeout: int): int {
    if timeout <= 0 then DEFAULT_TIMEOUT else timeout
  }

  predicate ValidProbeRtt(rtt: int, timeout: int) {
    0 < rtt <= MaxRtt(timeout)
  }

  // ----- The critical sections -----

  function NextCounter(counter: nat): nat {
    (counter + 1) % WORD
  }

  function CloseNotify(e: Engine, num: nat): Engine {
    if num in e.notify then e.(closed := e.closed + {e.notify[num]}, notify := e.notify - {num}) else e
  }

  function Discard(e: Engine, num: nat): Engine {
    CloseNotify(e.(sentAt := e.sentAt - {num}), num)
  }

  function StoreReply(e: Engine, num: nat, reply: Reply): Engine {
    CloseNotify(e.(replied := e.replied[num := reply], sentAt := e.sentAt - {num}), num)
  }

  function OnIcmp(e: Engine, num: nat, peer: string, finish: int, mpls: seq<string>, timeout: int): Engine {
    if num !in e.sentAt then e
    else
      var meta := e.sentAt[num];
      if meta.round != e.roundID || !ValidProbeRtt(finish - meta.start, timeout) then Discard(e, num)
      else StoreReply(e, num, Reply(peer, finish - meta.start, mpls, meta))
  }

  function Register(e: Engine, num: nat, meta: ProbeMeta): Engine {
    e.(sentAt := e.sentAt[num := meta], notify := e.notify[num := meta.owner])
  }

  function SetStart(e: Engine, num: nat, start: int, owner: nat): Engine {
    if num in e.sentAt then e.(sentAt := e.sentAt[num := e.sentAt[num].(start := start, timedBy := owner)]) else e
  }

  function TakeReply(e: Engine, num: nat): Engine {
    e.(replied := e.replied - {num})
  }

  function Forget(e: Engine, num: nat): Engine {
    e.(sentAt := e.sentAt - {num}, notify := e.notify - {num})
  }

  /** Every waiting call is woken up and all maps are emptied. */
  function ClearAll(e: Engine): Engine {
    e.(closed := e.closed + e.notify.Values, notify := map[], sentAt := map[], replied := map[])
  }

  // ----- Interleavings -----

  datatype Pc = Started | Rotating | Cleared | Allocated | Loaded | Registered | Waiting | Finished

  /** number counts the allocations, num is the sequence number on the wire;
      era and ended are the clearings seen when registering and when ending. */
  datatype Call = Call(ttl: int, pc: Pc, number: nat, num: nat, round: nat, era: nat, ended: nat, got: Option<Reply>)

  /** holder has sendMu; rotations and clearings count the emptied maps;
      resetting counts the resets that have not emptied them yet. */
  datatype World = World(e: Engine, calls: map<nat, Call>, holder: Option<nat>, allocs: nat, rotations: nat, era: nat,
                         resetting: nat)

  const START := World(FRESH, map[], None, 0, 0, 0, 0)

  datatype Input =
    | Begin(c: nat, ttl: int)
    | Lock(c: nat)
    | RotateClear(c: nat)
    | RotateEnd(c: nat, ok: bool)
    | LoadRound(c: nat)
    | DoRegister(c: nat, now: int)
    | SendFailed(c: nat)
    | Sent(c: nat, start: int)
    | Woken(c: nat)
    | TimedOut(c: nat)
    | Icmp(num: nat, peer: string, finish: int, mpls: seq<string>)
    | ResetBump
    | ResetClear

  ghost predicate At(w: World, c: nat, pc: Pc) {
    c in w.calls && w.calls[c].pc == pc
  }

  /** What may happen next.  Timers and the network are unconstrained. */
  ghost predicate Enabled(w: World, i: Input) {
    match i
    case Begin(c, _) => c !in w.calls
    case Lock(c) => At(w, c, Started) && w.holder.None?
    case RotateClear(c) => At(w, c, Rotating)
    case RotateEnd(c, _) => At(w, c, Cleared)
    case LoadRound(c) => At(w, c, Allocated)
    case DoRegister(c, _) => At(w, c, Loaded)
    case SendFailed(c) => At(w, c, Registered)
    case Sent(c, _) => At(w, c, Registered)
    case Woken(c) => At(w, c, Waiting) && c in w.e.closed
    case TimedOut(c) => At(w, c, Waiting)
    case Icmp(_, _, _, _) => true
    case ResetBump => true
    case ResetClear => w.resetting > 0
  }

  function SetCall(w: World, c: nat, call: Call): World {
    w.(calls := w.calls[c := call])
  }

  function Allocate(w: World, c: nat): World
    requires c in w.calls
  {
    var e := w.e.(seqCounter := NextCounter(w.e.seqCounter));
    SetCall(w.(e := e, holder := None, allocs := w.allocs + 1), c,
            w.calls[c].(pc := Allocated, number := w.allocs, num := e.seqCounter % 0x10000))
  }

  function Finish(w: World, c: nat, e: Engine, got: Option<Reply>): World
    requires c in w.calls
  {
    SetCall(w.(e := e), c, w.calls[c].(pc := Finished, ended := w.era, got := got))
  }

  ghost function Step(w: World, timeout: int, i: Input): World
    requires Enabled(w, i)
  {
    match i
    case Begin(c, ttl) => SetCall(w, c, Call(ttl, Started, 0, 0, 0, 0, 0, None))
    case Lock(c) =>
      if SeqWillWrap(w.e.seqCounter, 1)
      then SetCall(w.(e := w.e.(seqCounter := 0), holder := Some(c)), c, w.calls[c].(pc := Rotating))
      else Allocate(w, c)
    case RotateClear(c) =>
      SetCall(w.(e := ClearAll(w.e), rotations := w.rotations + 1, era := w.era + 1), c, w.calls[c].(pc := Cleared))
    case RotateEnd(c, ok) => if ok then Allocate(w, c) else Finish(w.(holder := None), c, w.e, None)
    case LoadRound(c) => SetCall(w, c, w.calls[c].(pc := Loaded, round := w.e.roundID))
    case DoRegister(c, now) =>
      var call := w.calls[c];
      SetCall(w.(e := Register(w.e, call.num, ProbeMeta(call.ttl, now, call.round, c, c))), c,
              call.(pc := Registered, era := w.era))
    case SendFailed(c) => Finish(w, c, Discard(w.e, w.calls[c].num), None)
    case Sent(c, start) =>
      SetCall(w.(e := SetStart(w.e, w.calls[c].num, start, c)), c, w.calls[c].(pc := Waiting))
    case Woken(c) =>
      var num := w.calls[c].num;
      Finish(w, c, TakeReply(w.e, num), if num in w.e.replied then Some(w.e.replied[num]) else None)
    case TimedOut(c) => Finish(w, c, Forget(w.e, w.calls[c].num), None)
    case Icmp(num, peer, finish, mpls) => w.(e := OnIcmp(w.e, num, peer, finish, mpls, timeout))
    case ResetBump =>
      w.(e := w.e.(knownFinal := -1, roundID := (w.e.roundID + 1) % WORD), resetting := w.resetting + 1)
    case ResetClear => w.(e := ClearAll(w.e), era := w.era + 1, resetting := w.resetting - 1)
  }

  ghost predicate ValidRun(w: World, timeout: int, inputs: seq<Input>)
    decreases |inputs|
  {
    inputs == [] || (Enabled(w, inputs[0]) && ValidRun(Step(w, timeout, inputs[0]), timeout, inputs[1..]))
  }

  ghost function Run(w: World, timeout: int, inputs: seq<Input>): World
    requires ValidRun(w, timeout, inputs)
    decreases |inputs|
  {
    if inputs == [] then w else Run(Step(w, timeout, inputs[0]), timeout, inputs[1..])
  }

  // ----- Wrapping -----

  /** The wire number is zero for one of the next probes. */
  ghost predicate Wraps(counter: nat, probeCount: int) {
    exists k :: 1 <= k <= probeCount && WireSeq(counter, k) == 0
  }

  lemma WrapsFrom(counter: nat, probeCount: int)
    ensures Wraps(counter, probeCount) <==> counter % 0x10000 + probeCount > MAX_SEQ
  {
    if counter % 0x10000 + probeCount > MAX_SEQ {
      NextMultiple(counter);
      assert WireSeq(counter, 0x10000 - counter % 0x10000) == 0;
    } else {
      forall k | 1 <= k <= probeCount ensures WireSeq(counter, k) != 0 {
        NoMultiple(counter, k);
      }
    }
  }

  /** The test tells exactly whether the wire number wraps to zero within the
      next probes, unless adding their number to the low half of the counter
      overflows 32 bits and comes back below 0x10000. */
  lemma WrapIsExact(counter: nat, probeCount: int)
    ensures probeCount <= WORD - 0x10000 ==> (SeqWillWrap(counter, probeCount) <==> Wraps(counter, probeCount))
    ensures (SeqWillWrap(counter, probeCount) <==> Wraps(counter, probeCount)) <==>
      counter % 0x10000 + probeCount <= MAX_SEQ || (counter % 0x10000 + probeCount) % WORD > MAX_SEQ
  {
    var low := counter % 0x10000;
    WrapsFrom(counter, probeCount);
    if probeCount > 0 {
      assert (low + probeCount % WORD) % WORD == (low + probeCount) % WORD;
    }
  }

  function WireSeq(counter: nat, k: nat): nat {
    (counter + k) % 0x10000
  }

  lemma NextMultiple(counter: nat)
    ensures (counter + (0x10000 - counter % 0x10000)) % 0x10000 == 0
  {
    assert counter + (0x10000 - counter % 0x10000) == (counter / 0x10000 + 1) * 0x10000;
  }

  lemma NoMultiple(counter: nat, k: nat)
    requires 1 <= k && counter % 0x10000 + k < 0x10000
    ensures (counter + k) % 0x10000 == counter % 0x10000 + k
  {
  }

  // ----- What holds in every interleaving -----

  ghost predicate Live(call: Call) {
    call.pc in {Allocated, Loaded, Registered, Waiting}
  }

  ghost predicate HasNumber(call: Call) {
    Live(call) || (call.pc == Finished && call.num != 0)
  }

  ghost predicate HasRegistered(call: Call) {
    call.pc in {Registered, Waiting} || (call.pc == Finished && call.num != 0)
  }

  /** The n-th allocation ever. */
  function SeqOf(number: nat): nat {
    number % MAX_SEQ + 1
  }

  function RotationOf(number: nat): nat {
    number / MAX_SEQ
  }

  /** Allocation: the counter says how many numbers the epoch has given out. */
  ghost predicate CounterOk(w: World) {
    && w.e.seqCounter <= MAX_SEQ
    && w.allocs == (w.rotations + if Rotates(w) then 1 else 0) * MAX_SEQ + w.e.seqCounter
    && (w.holder.Some? ==> w.e.seqCounter == 0 && (At(w, w.holder.value, Rotating) || At(w, w.holder.value, Cleared)))
  }

  /** A rotation has reset the counter but not emptied the maps yet. */
  ghost predicate Rotates(w: World) {
    w.holder.Some? && At(w, w.holder.value, Rotating)
  }

  ghost predicate CallOk(w: World, c: nat) {
    c in w.calls ==>
      var call := w.calls[c];
      && (call.pc in {Rotating, Cleared} <==> w.holder == Some(c))
      && (HasNumber(call) ==> call.number < w.allocs && call.num == SeqOf(call.number))
      && (call.pc in {Started, Rotating, Cleared} ==> call.num == 0)
      && call.era <= w.era
  }

  ghost predicate NumbersDiffer(w: World, c: nat, d: nat) {
    (c in w.calls && d in w.calls && c != d && HasNumber(w.calls[c]) && HasNumber(w.calls[d])) ==>
      w.calls[c].number != w.calls[d].number
  }

  /** The channel registered for num is open and belongs to a call of that num. */
  ghost predicate ChannelOk(w: World, num: nat) {
    num in w.e.notify ==>
      var c := w.e.notify[num];
      c in w.calls && HasRegistered(w.calls[c]) && w.calls[c].num == num && c !in w.e.closed
  }

  ghost predicate ReplyOk(w: World, timeout: int, num: nat) {
    num in w.e.replied ==> ValidProbeRtt(w.e.replied[num].rtt, timeout)
  }

  ghost predicate GotOk(w: World, timeout: int, c: nat) {
    c in w.calls && w.calls[c].got.Some? ==> w.calls[c].pc == Finished && ValidProbeRtt(w.calls[c].got.value.rtt, timeout)
  }

  ghost predicate ClosedOk(w: World) {
    forall c :: c in w.e.closed ==> c in w.calls && HasRegistered(w.calls[c])
  }

  ghost predicate Inv(w: World, timeout: int) {
    && CounterOk(w) && ClosedOk(w)
    && (forall c :: CallOk(w, c))
    && (forall c, d :: NumbersDiffer(w, c, d))
    && (forall num :: ChannelOk(w, num))
    && (forall num :: ReplyOk(w, timeout, num))
    && (forall c :: GotOk(w, timeout, c))
  }

  lemma StartOk(timeout: int)
    ensures Inv(START, timeout)
  {
  }

  lemma AllocationKeeps(w: World, timeout: int, c: nat)
    requires Inv(w, timeout) && c in w.calls
    requires (At(w, c, Started) && w.holder.None? && !SeqWillWrap(w.e.seqCounter, 1)) || At(w, c, Cleared)
    ensures Inv(Allocate(w, c), timeout)
  {
    var w' := Allocate(w, c);
    assert CallOk(w, c);
    assert w.e.seqCounter < MAX_SEQ;
    SeqFromCounter(w.rotations, w.e.seqCounter);
    assert w.allocs == w.rotations * MAX_SEQ + w.e.seqCounter;
    forall d ensures CallOk(w', d) {
      assert CallOk(w, d);
    }
    forall a, b ensures NumbersDiffer(w', a, b) {
      assert NumbersDiffer(w, a, b) && CallOk(w, a) && CallOk(w, b);
    }
    forall num ensures ChannelOk(w', num) {
      assert ChannelOk(w, num);
    }
    forall d ensures GotOk(w', timeout, d) {
      assert GotOk(w, timeout, d);
    }
    forall s ensures ReplyOk(w', timeout, s) {
      assert ReplyOk(w, timeout, s);
    }
  }

  lemma SeqFromCounter(rotations: nat, counter: nat)
    requires counter < MAX_SEQ
    ensures SeqOf(rotations * MAX_SEQ + counter) == counter + 1
    ensures RotationOf(rotations * MAX_SEQ + counter) == rotations
  {
    assert (rotations * MAX_SEQ + counter) / MAX_SEQ == rotations;
  }

  /** Calls and numbers after a step that gives out none. */
  lemma CallsStayOk(w: World, timeout: int, i: Input)
    requires Inv(w, timeout) && Enabled(w, i) && !i.Lock? && !i.RotateEnd?
    ensures var w' := Step(w, timeout, i);
      && CounterOk(w') && (forall c :: CallOk(w', c)) && (forall a, b :: NumbersDiffer(w', a, b))
  {
    var w' := Step(w, timeout, i);
    if i.RotateClear? {
      assert CallOk(w, i.c);
    }
    forall c ensures CallOk(w', c) {
      assert CallOk(w, c);
    }
    forall a, b ensures NumbersDiffer(w', a, b) {
      assert NumbersDiffer(w, a, b);
    }
  }

  lemma RepliesStayOk(w: World, timeout: int, i: Input)
    requires Inv(w, timeout) && Enabled(w, i) && !i.Lock? && !i.RotateEnd?
    ensures var w' := Step(w, timeout, i);
      && (forall s :: ReplyOk(w', timeout, s)) && (forall c :: GotOk(w', timeout, c))
  {
    var w' := Step(w, timeout, i);
    forall s ensures ReplyOk(w', timeout, s) {
      assert ReplyOk(w, timeout, s);
    }
    forall c ensures GotOk(w', timeout, c) {
      assert GotOk(w, timeout, c);
      if i.Woken? { assert ReplyOk(w, timeout, w.calls[i.c].num); }
    }
  }

  /** Steps that change maps and calls but neither counters nor numbers. */
  lemma MapStepKeeps(w: World, timeout: int, i: Input)
    requires Inv(w, timeout) && Enabled(w, i) && !i.Lock? && !i.RotateEnd?
    ensures Inv(Step(w, timeout, i), timeout)
  {
    hide Step, Enabled, CounterOk, ClosedOk, CallOk, NumbersDiffer, ChannelOk, ReplyOk, GotOk;
    CallsStayOk(w, timeout, i);
    RepliesStayOk(w, timeout, i);
    forall num ensures ChannelOk(Step(w, timeout, i), num) {
      ChannelsStayOk(w, timeout, i, num);
    }
    ClosedStaysOk(w, timeout, i);
  }

  lemma ChannelsStayOk(w: World, timeout: int, i: Input, num: nat)
    requires Inv(w, timeout) && Enabled(w, i) && !i.Lock? && !i.RotateEnd?
    ensures ChannelOk(Step(w, timeout, i), num)
  {
    assert ChannelOk(w, num);
    if i.DoRegister? {
      assert CallOk(w, i.c);
      assert i.c !in w.e.closed;
    } else if i.Icmp? {
      assert ChannelOk(w, i.num);
    } else if i.SendFailed? {
      assert ChannelOk(w, w.calls[i.c].num);
    }
  }

  lemma ClosedStaysOk(w: World, timeout: int, i: Input)
    requires Inv(w, timeout) && Enabled(w, i) && !i.Lock? && !i.RotateEnd?
    ensures ClosedOk(Step(w, timeout, i))
  {
    var w' := Step(w, timeout, i);
    forall c | c in w'.e.closed ensures c in w'.calls && HasRegistered(w'.calls[c]) {
      if c !in w.e.closed {
        var num :| num in w.e.notify && w.e.notify[num] == c;
        assert ChannelOk(w, num);
      }
      assert CallOk(w, c);
    }
  }

  lemma StepKeeps(w: World, timeout: int, i: Input)
    requires Inv(w, timeout) && Enabled(w, i)
    ensures Inv(Step(w, timeout, i), timeout)
  {
    if i.Lock? && !SeqWillWrap(w.e.seqCounter, 1) {
      AllocationKeeps(w, timeout, i.c);
    } else if i.RotateEnd? && i.ok {
      AllocationKeeps(w, timeout, i.c);
    } else if i.Lock? || i.RotateEnd? {
      LockKeeps(w, timeout, i);
    } else {
      MapStepKeeps(w, timeout, i);
    }
  }

  lemma LockKeeps(w: World, timeout: int, i: Input)
    requires Inv(w, timeout) && Enabled(w, i)
    requires (i.Lock? && SeqWillWrap(w.e.seqCounter, 1)) || (i.RotateEnd? && !i.ok)
    ensures Inv(Step(w, timeout, i), timeout)
  {
    var w' := Step(w, timeout, i);
    assert CallOk(w, i.c);
    forall c ensures CallOk(w', c) {
      assert CallOk(w, c);
    }
    forall a, b ensures NumbersDiffer(w', a, b) {
      assert NumbersDiffer(w, a, b);
    }
    forall num ensures ChannelOk(w', num) {
      assert ChannelOk(w, num);
    }
    forall s ensures ReplyOk(w', timeout, s) {
      assert ReplyOk(w, timeout, s);
    }
    forall c ensures GotOk(w', timeout, c) {
      assert GotOk(w, timeout, c);
    }
  }

  lemma {:induction false} RunKeeps(w: World, timeout: int, inputs: seq<Input>)
    requires Inv(w, timeout) && ValidRun(w, timeout, inputs)
    ensures Inv(Run(w, timeout, inputs), timeout)
    decreases |inputs|
  {
    hide Inv, Step, Enabled;
    if inputs != [] {
      StepKeeps(w, timeout, inputs[0]);
      RunKeeps(Step(w, timeout, inputs[0]), timeout, inputs[1..]);
    }
  }

  ghost predicate Reachable(w: World, timeout: int) {
    exists inputs :: ReachedBy(w, timeout, inputs)
  }

  ghost predicate ReachedBy(w: World, timeout: int, inputs: seq<Input>) {
    ValidRun(START, timeout, inputs) && w == Run(START, timeout, inputs)
  }

  lemma ReachableOk(w: World, timeout: int)
    requires Reachable(w, timeout)
    ensures Inv(w, timeout)
  {
    hide Inv;
    var inputs :| ReachedBy(w, timeout, inputs);
    StartOk(timeout);
    RunKeeps(START, timeout, inputs);
  }

  /** Within one epoch the numbers on the wire increase from 1 and never wrap. */
  lemma EpochNumbersIncrease(w: World, timeout: int, c: nat, d: nat)
    requires Reachable(w, timeout) && c in w.calls && d in w.calls
    requires HasNumber(w.calls[c]) && HasNumber(w.calls[d])
    requires RotationOf(w.calls[c].number) == RotationOf(w.calls[d].number) && w.calls[c].number < w.calls[d].number
    ensures 1 <= w.calls[c].num < w.calls[d].num <= MAX_SEQ
  {
    ReachableOk(w, timeout);
    assert CallOk(w, c) && CallOk(w, d);
  }

  /** An allocation takes the next number of the epoch that is current: the
      rotation seen in the number is the count of rotations so far. */
  lemma AllocationIsInEpoch(w: World, timeout: int, i: Input)
    requires Reachable(w, timeout) && Enabled(w, i) && (i.Lock? || i.RotateEnd?)
    ensures var w' := Step(w, timeout, i);
      var call := w'.calls[i.c];
      call.pc == Allocated ==>
        && call.number == w.allocs && RotationOf(call.number) == w'.rotations
        && call.num == w'.e.seqCounter <= MAX_SEQ
  {
    ReachableOk(w, timeout);
    assert CallOk(w, i.c);
    if w.e.seqCounter < MAX_SEQ {
      SeqFromCounter(w.rotations, w.e.seqCounter);
    }
  }

  /** No channel is closed twice: those that can still be closed are open, and
      each is kept under one number only. */
  lemma ChannelsAreOpen(w: World, timeout: int, a: nat, b: nat)
    requires Reachable(w, timeout) && a in w.e.notify && b in w.e.notify
    ensures w.e.notify[a] !in w.e.closed
    ensures w.e.notify[a] == w.e.notify[b] <==> a == b
  {
    ReachableOk(w, timeout);
    assert ChannelOk(w, a) && ChannelOk(w, b);
  }

  /** Every success carries a positive RTT within the timeout. */
  lemma SuccessHasValidRtt(w: World, timeout: int, c: nat)
    requires Reachable(w, timeout) && c in w.calls && w.calls[c].got.Some?
    ensures 0 < w.calls[c].got.value.rtt <= MaxRtt(timeout)
  {
    ReachableOk(w, timeout);
    assert GotOk(w, timeout, c);
  }
}
