/** Runs that show both halves of the condition of IcmpAttribution to be
    needed: in each, one half holds throughout and a call takes the reply to
    the probe of another call, in one of them across a reset. */
module IcmpCollisions {
  import opened Text
  import opened Words
  import opened IcmpEngine
  import opened IcmpAttribution

  /** A run with what is known about it. */
  ghost predicate Leads(w0: World, timeout: int, inputs: seq<Input>, w: World, lives: bool, registers: bool) {
    ValidRun(w0, timeout, inputs) && Run(w0, timeout, inputs) == w && Keeps(w0, timeout, inputs, lives, registers)
  }

  lemma {:induction false} Append(w0: World, timeout: int, inputs: seq<Input>, w: World, lives: bool, registers: bool, i: Input)
    requires Leads(w0, timeout, inputs, w, lives, registers) && Enabled(w, i)
    requires (lives ==> LivesShort(w, i)) && (registers ==> RegistersInTime(w, i))
    ensures Leads(w0, timeout, inputs + [i], Step(w, timeout, i), lives, registers)
    decreases |inputs|
  {
    hide Enabled, Step, LivesShort, RegistersInTime;
    if inputs == [] {
      assert inputs + [i] == [i];
      var none: seq<Input> := [];
      assert [i][1..] == none;
      assert ValidRun(Step(w, timeout, i), timeout, none);
      assert ValidRun(w, timeout, [i]);
      assert Run(w, timeout, [i]) == Step(w, timeout, i);
      assert Keeps(w, timeout, [i], lives, registers);
    } else {
      Append(Step(w0, timeout, inputs[0]), timeout, inputs[1..], w, lives, registers, i);
      assert (inputs + [i])[1..] == inputs[1..] + [i];
    }
  }

  /** A call that fails to send leaves nothing behind but a used number. */
  ghost predicate Fails(w: World, w': World, c: nat) {
    && w'.e == w.e.(seqCounter := w.e.seqCounter + 1, closed := w.e.closed + {c})
    && c in w'.calls && w'.calls[c].pc == Finished && w'.calls == w.calls[c := w'.calls[c]]
    && w' == w.(e := w'.e, calls := w'.calls, allocs := w.allocs + 1)
  }

  ghost predicate RoomFor(w: World, n: nat) {
    && w.holder.None? && w.e.seqCounter + n <= MAX_SEQ
    && (forall k :: w.e.seqCounter < k <= w.e.seqCounter + n ==> k !in w.e.sentAt && k !in w.e.notify)
    && (forall d :: d in w.calls && Live(w.calls[d]) ==> w.allocs + n - w.calls[d].number <= MAX_SEQ)
    && w.allocs == w.rotations * MAX_SEQ + w.e.seqCounter
  }

  /** A new call takes the next number. */
  function Numbered(w: World, c: nat, ttl: int): World {
    w.(e := w.e.(seqCounter := w.e.seqCounter + 1), allocs := w.allocs + 1,
       calls := w.calls[c := Call(ttl, Allocated, w.allocs, w.e.seqCounter + 1, 0, 0, 0, None)])
  }

  lemma TakesNumber(w0: World, timeout: int, inputs: seq<Input>, w: World, lives: bool, registers: bool, c: nat, ttl: int)
    requires Leads(w0, timeout, inputs, w, lives, registers) && RoomFor(w, 1) && c !in w.calls
    ensures Leads(w0, timeout, inputs + [Begin(c, ttl)] + [Lock(c)], Numbered(w, c, ttl), lives, registers)
  {
    hide Leads;
    SeqFromCounter(w.rotations, w.e.seqCounter);
    Append(w0, timeout, inputs, w, lives, registers, Begin(c, ttl));
    var w1 := Step(w, timeout, Begin(c, ttl));
    Append(w0, timeout, inputs + [Begin(c, ttl)], w1, lives, registers, Lock(c));
    assert Step(w1, timeout, Lock(c)) == Numbered(w, c, ttl);
  }

  /** The call registers its probe in the current round. */
  function Probing(w: World, c: nat, now: int): World
    requires c in w.calls
  {
    var call := w.calls[c].(pc := Registered, round := w.e.roundID, era := w.era);
    w.(e := Register(w.e, call.num, ProbeMeta(call.ttl, now, call.round, c, c)), calls := w.calls[c := call])
  }

  lemma Registers(w0: World, timeout: int, inputs: seq<Input>, w: World, lives: bool, registers: bool, c: nat, now: int)
    requires Leads(w0, timeout, inputs, w, lives, registers) && At(w, c, Allocated)
    requires registers ==> RotationOf(w.calls[c].number) == w.rotations
    ensures Leads(w0, timeout, inputs + [LoadRound(c)] + [DoRegister(c, now)], Probing(w, c, now), lives, registers)
  {
    hide Leads;
    Append(w0, timeout, inputs, w, lives, registers, LoadRound(c));
    var w1 := Step(w, timeout, LoadRound(c));
    Append(w0, timeout, inputs + [LoadRound(c)], w1, lives, registers, DoRegister(c, now));
    assert Step(w1, timeout, DoRegister(c, now)) == Probing(w, c, now);
  }

  lemma FailingCall(w0: World, timeout: int, inputs: seq<Input>, w: World, lives: bool, registers: bool, c: nat)
    returns (more: seq<Input>, w': World)
    requires Leads(w0, timeout, inputs, w, lives, registers) && RoomFor(w, 1) && c !in w.calls
    ensures Leads(w0, timeout, more, w', lives, registers) && Fails(w, w', c)
  {
    hide Leads;
    SeqFromCounter(w.rotations, w.e.seqCounter);
    TakesNumber(w0, timeout, inputs, w, lives, registers, c, 1);
    var w2, inputs2 := Numbered(w, c, 1), inputs + [Begin(c, 1)] + [Lock(c)];
    Registers(w0, timeout, inputs2, w2, lives, registers, c, 0);
    var w4, inputs4 := Probing(w2, c, 0), inputs2 + [LoadRound(c)] + [DoRegister(c, 0)];
    Append(w0, timeout, inputs4, w4, lives, registers, SendFailed(c));
    w', more := Step(w4, timeout, SendFailed(c)), inputs4 + [SendFailed(c)];
    var num := w.e.seqCounter + 1;
    assert w4.e.sentAt - {num} == w.e.sentAt;
    assert w4.e.notify - {num} == w.e.notify;
    assert w'.calls == w.calls[c := w'.calls[c]];
  }

  /** n such calls, named c, c + 1, ... */
  ghost predicate Burned(w: World, w': World, c: nat, n: nat) {
    && w'.e == w.e.(seqCounter := w.e.seqCounter + n, closed := w'.e.closed)
    && w.e.closed <= w'.e.closed && (forall d :: d in w'.e.closed ==> d in w.e.closed || c <= d < c + n)
    && (forall d :: d < c || d >= c + n ==> (d in w'.calls <==> d in w.calls))
    && (forall d :: d in w.calls && d < c ==> w'.calls[d] == w.calls[d])
    && (forall d :: c <= d < c + n ==> d in w'.calls && w'.calls[d].pc == Finished)
    && w' == w.(e := w'.e, calls := w'.calls, allocs := w.allocs + n)
  }

  lemma {:induction false} Burn(w0: World, timeout: int, inputs: seq<Input>, w: World, lives: bool, registers: bool, c: nat, n: nat)
    returns (more: seq<Input>, w': World)
    requires Leads(w0, timeout, inputs, w, lives, registers) && RoomFor(w, n) && forall d :: d >= c ==> d !in w.calls
    ensures Leads(w0, timeout, more, w', lives, registers) && Burned(w, w', c, n)
    decreases n
  {
    hide Leads;
    if n == 0 {
      more, w' := inputs, w;
    } else {
      var most, w1 := Burn(w0, timeout, inputs, w, lives, registers, c, n - 1);
      more, w' := FailingCall(w0, timeout, most, w1, lives, registers, c + n - 1);
    }
  }

  /** What a rotation started by a new call comes to: empty maps, every waiting
      call woken up, and the first number of the new epoch. */
  function Rotated(w: World, c: nat, ttl: int): World {
    w.(e := ClearAll(w.e).(seqCounter := 1), rotations := w.rotations + 1, era := w.era + 1, allocs := w.allocs + 1,
       calls := w.calls[c := Call(ttl, Allocated, w.allocs, 1, 0, 0, 0, None)])
  }

  lemma Rotates(w0: World, timeout: int, inputs: seq<Input>, w: World, lives: bool, registers: bool, c: nat, ttl: int)
    requires Leads(w0, timeout, inputs, w, lives, registers) && w.holder.None? && w.e.seqCounter == MAX_SEQ && c !in w.calls
    requires lives ==> forall d :: d in w.calls && Live(w.calls[d]) ==> w.allocs - w.calls[d].number < MAX_SEQ
    ensures Leads(w0, timeout, inputs + [Begin(c, ttl)] + [Lock(c)] + [RotateClear(c)] + [RotateEnd(c, true)],
                  Rotated(w, c, ttl), lives, registers)
  {
    hide Leads;
    Append(w0, timeout, inputs, w, lives, registers, Begin(c, ttl));
    var w1 := Step(w, timeout, Begin(c, ttl));
    Append(w0, timeout, inputs + [Begin(c, ttl)], w1, lives, registers, Lock(c));
    var w2 := Step(w1, timeout, Lock(c));
    var inputs2 := inputs + [Begin(c, ttl)] + [Lock(c)];
    Append(w0, timeout, inputs2, w2, lives, registers, RotateClear(c));
    var w3 := Step(w2, timeout, RotateClear(c));
    Append(w0, timeout, inputs2 + [RotateClear(c)], w3, lives, registers, RotateEnd(c, true));
    assert Step(w3, timeout, RotateEnd(c, true)) == Rotated(w, c, ttl);
  }

  /** The probe is on its way: registered at now, sent at now. */
  function OnItsWay(w: World, c: nat, now: int): World
    requires c in w.calls
  {
    var w1 := Probing(w, c, now);
    w1.(calls := w1.calls[c := w1.calls[c].(pc := Waiting)])
  }

  lemma SendsAt(w0: World, timeout: int, inputs: seq<Input>, w: World, lives: bool, registers: bool, c: nat, now: int)
    requires Leads(w0, timeout, inputs, w, lives, registers) && At(w, c, Allocated)
    requires registers ==> RotationOf(w.calls[c].number) == w.rotations
    ensures Leads(w0, timeout, inputs + [LoadRound(c)] + [DoRegister(c, now)] + [Sent(c, now)], OnItsWay(w, c, now), lives, registers)
  {
    hide Leads;
    Registers(w0, timeout, inputs, w, lives, registers, c, now);
    var w1 := Probing(w, c, now);
    Append(w0, timeout, inputs + [LoadRound(c)] + [DoRegister(c, now)], w1, lives, registers, Sent(c, now));
    var m := w1.e.sentAt[w1.calls[c].num];
    assert m.(start := now, timedBy := c) == m;
    assert Step(w1, timeout, Sent(c, now)) == OnItsWay(w, c, now);
  }

  lemma LeadsUnfold(w0: World, timeout: int, inputs: seq<Input>, w: World, lives: bool, registers: bool)
    requires Leads(w0, timeout, inputs, w, lives, registers)
    ensures ValidRun(w0, timeout, inputs) && Run(w0, timeout, inputs) == w && Keeps(w0, timeout, inputs, lives, registers)
  {
  }

  /** A probe of number num, sent by call c at now in round 0, is answered one
      nanosecond later. */
  lemma Answered(w0: World, timeout: int, inputs: seq<Input>, w: World, lives: bool, registers: bool, num: nat, m: ProbeMeta)
    returns (more: seq<Input>, w': World)
    requires Leads(w0, timeout, inputs, w, lives, registers)
    requires num in w.e.sentAt && w.e.sentAt[num] == m && m.round == w.e.roundID
    ensures Leads(w0, timeout, more, w', lives, registers)
    ensures w' == w.(e := StoreReply(w.e, num, Reply("peer", 1, [], m)))
  {
    hide Leads;
    Append(w0, timeout, inputs, w, lives, registers, Icmp(num, "peer", m.start + 1, []));
    more := inputs + [Icmp(num, "peer", m.start + 1, [])];
    w' := Step(w, timeout, Icmp(num, "peer", m.start + 1, []));
  }

  // ----- A call that lives too long -----

  const OLD := Call(1, Waiting, 0, 1, 0, 0, 0, None)

  /** A reset runs between two sends. */
  function AfterReset(w: World): World {
    w.(e := ClearAll(w.e.(knownFinal := -1, roundID := (w.e.roundID + 1) % WORD)), era := w.era + 1)
  }

  lemma Resets(w0: World, timeout: int, inputs: seq<Input>, w: World, lives: bool, registers: bool)
    requires Leads(w0, timeout, inputs, w, lives, registers)
    ensures Leads(w0, timeout, inputs + [ResetBump] + [ResetClear], AfterReset(w), lives, registers)
  {
    hide Leads;
    Append(w0, timeout, inputs, w, lives, registers, ResetBump);
    var w1 := Step(w, timeout, ResetBump);
    Append(w0, timeout, inputs + [ResetBump], w1, lives, registers, ResetClear);
    assert Step(w1, timeout, ResetClear) == AfterReset(w);
  }

  /** The first call waits while the other numbers of the epoch are used up; if
      asked for, a reset comes first. */
  lemma OldCallWaits(timeout: int, reset: bool) returns (inputs: seq<Input>, w: World)
    ensures Leads(START, timeout, inputs, w, false, true)
    ensures 0 in w.calls && w.calls[0] == OLD && MAX_SEQ !in w.calls && w.holder.None?
    ensures 0 in w.e.closed || (1 in w.e.notify && w.e.notify[1] == 0)
    ensures w.e.seqCounter == MAX_SEQ && w.rotations == 0 && w.allocs == MAX_SEQ && w.era == if reset then 1 else 0
  {
    assert Leads(START, timeout, [], START, false, true);
    hide Leads;
    TakesNumber(START, timeout, [], START, false, true, 0, 1);
    inputs := [] + [Begin(0, 1)] + [Lock(0)];
    var w1 := Numbered(START, 0, 1);
    SendsAt(START, timeout, inputs, w1, false, true, 0, 0);
    inputs := inputs + [LoadRound(0)] + [DoRegister(0, 0)] + [Sent(0, 0)];
    var w2 := OnItsWay(w1, 0, 0);
    assert w2.e.notify == map[1 := 0];
    if reset {
      assert 0 in w2.e.notify.Values by { assert w2.e.notify[1] == 0; }
      Resets(START, timeout, inputs, w2, false, true);
      inputs, w2 := inputs + [ResetBump] + [ResetClear], AfterReset(w2);
    }
    inputs, w := Burn(START, timeout, inputs, w2, false, true, 1, MAX_SEQ - 1);
  }

  lemma YoungCallSends(timeout: int, reset: bool) returns (inputs: seq<Input>, w: World)
    ensures Leads(START, timeout, inputs, w, false, true)
    ensures 0 in w.calls && w.calls[0] == OLD && 0 in w.e.closed
    ensures 1 in w.e.sentAt && w.e.sentAt[1].owner == MAX_SEQ && w.e.sentAt[1].round == w.e.roundID
    ensures w.rotations == 1 && w.era == if reset then 2 else 1
  {
    hide Leads;
    var w1;
    inputs, w1 := OldCallWaits(timeout, reset);
    var x := MAX_SEQ;
    Rotates(START, timeout, inputs, w1, false, true, x, 1);
    inputs := inputs + [Begin(x, 1)] + [Lock(x)] + [RotateClear(x)] + [RotateEnd(x, true)];
    var w2 := Rotated(w1, x, 1);
    SendsAt(START, timeout, inputs, w2, false, true, x, 0);
    inputs := inputs + [LoadRound(x)] + [DoRegister(x, 0)] + [Sent(x, 0)];
    w := OnItsWay(w2, x, 0);
  }

  /** The call registered, then the maps were emptied more often than there were
      rotations, so a reset emptied them, and then it took a reply stored since. */
  ghost predicate ReplyAcrossReset(c: nat, w: World)
    requires c in w.calls
  {
    w.calls[c].got.Some? && w.calls[c].ended - w.calls[c].era > w.rotations
  }

  /** The reply is not the call's own, and the maps were emptied in between. */
  ghost predicate TakesYoungReply(c: nat, w: World, reset: bool) {
    && c in w.calls && !OwnReply(c, w.calls[c]) && w.calls[c].era != w.calls[c].ended
    && (reset ==> ReplyAcrossReset(c, w))
  }

  /** A call that outlives a full turn of numbers takes the reply of the call
      that was given its number again, although all register in time; and it
      does so across a reset, if there was one. */
  lemma OldCallTakesYoungReply(timeout: int, reset: bool) returns (inputs: seq<Input>)
    ensures ValidRun(START, timeout, inputs) && Keeps(START, timeout, inputs, false, true)
    ensures exists c :: TakesYoungReply(c, Run(START, timeout, inputs), reset)
  {
    hide Leads, ValidRun, Run, Keeps;
    var w1, w2;
    inputs, w1 := YoungCallSends(timeout, reset);
    inputs, w2 := Answered(START, timeout, inputs, w1, false, true, 1, w1.e.sentAt[1]);
    Append(START, timeout, inputs, w2, false, true, Woken(0));
    inputs := inputs + [Woken(0)];
    var w3 := Step(w2, timeout, Woken(0));
    assert TakesYoungReply(0, w3, reset);
    LeadsUnfold(START, timeout, inputs, w3, false, true);
  }

  // ----- A call that registers too late -----

  /** All numbers of the first epoch are used, the last one by a call that has
      not registered; then the epoch ends. */
  lemma EpochEnds(timeout: int) returns (inputs: seq<Input>, w: World)
    ensures Leads(START, timeout, inputs, w, true, false)
    ensures w.e == FRESH.(seqCounter := 1, closed := w.e.closed) && w.holder.None?
    ensures w.allocs == MAX_SEQ + 1 && w.rotations == 1
    ensures forall d :: d in w.calls ==> d <= MAX_SEQ && (d < MAX_SEQ - 1 ==> w.calls[d].pc == Finished)
    ensures forall d :: d in w.e.closed ==> d < MAX_SEQ - 1
    ensures MAX_SEQ in w.calls && w.calls[MAX_SEQ] == Call(1, Allocated, MAX_SEQ, 1, 0, 0, 0, None)
    ensures MAX_SEQ - 1 in w.calls && w.calls[MAX_SEQ - 1] == Call(1, Allocated, MAX_SEQ - 1, MAX_SEQ, 0, 0, 0, None)
  {
    assert Leads(START, timeout, [], START, true, false);
    hide Leads;
    var w1;
    inputs, w1 := Burn(START, timeout, [], START, true, false, 0, MAX_SEQ - 1);
    var c, r := MAX_SEQ - 1, MAX_SEQ;
    TakesNumber(START, timeout, inputs, w1, true, false, c, 1);
    inputs := inputs + [Begin(c, 1)] + [Lock(c)];
    var w2 := Numbered(w1, c, 1);
    Rotates(START, timeout, inputs, w2, true, false, r, 1);
    inputs := inputs + [Begin(r, 1)] + [Lock(r)] + [RotateClear(r)] + [RotateEnd(r, true)];
    w := Rotated(w2, r, 1);
    assert w2.e.notify.Values == {};
  }

  /** The first call of the new epoch fails; the late one registers and sends. */
  lemma LateCallSends(timeout: int) returns (inputs: seq<Input>, w: World)
    ensures Leads(START, timeout, inputs, w, true, false)
    ensures w.e.seqCounter == 1 && w.e.replied == map[] && w.e.roundID == 0 && w.holder.None?
    ensures w.e.sentAt == map[MAX_SEQ := ProbeMeta(1, 0, 0, MAX_SEQ - 1, MAX_SEQ - 1)] && w.e.notify == map[MAX_SEQ := MAX_SEQ - 1]
    ensures w.allocs == MAX_SEQ + 1 && w.rotations == 1
    ensures forall d :: d in w.calls ==> d <= MAX_SEQ && (d != MAX_SEQ - 1 ==> w.calls[d].pc == Finished)
    ensures At(w, MAX_SEQ - 1, Waiting) && w.calls[MAX_SEQ - 1].num == MAX_SEQ
  {
    hide Leads;
    var c, r := MAX_SEQ - 1, MAX_SEQ;
    var w1;
    inputs, w1 := EpochEnds(timeout);
    Registers(START, timeout, inputs, w1, true, false, r, 0);
    inputs := inputs + [LoadRound(r)] + [DoRegister(r, 0)];
    var w2 := Probing(w1, r, 0);
    Append(START, timeout, inputs, w2, true, false, SendFailed(r));
    inputs := inputs + [SendFailed(r)];
    var w3 := Step(w2, timeout, SendFailed(r));
    assert w3.e.sentAt == map[] && w3.e.notify == map[] && w3.calls[c] == w1.calls[c];
    SendsAt(START, timeout, inputs, w3, true, false, c, 0);
    inputs := inputs + [LoadRound(c)] + [DoRegister(c, 0)] + [Sent(c, 0)];
    w := OnItsWay(w3, c, 0);
  }

  lemma LateCallGivesUp(timeout: int) returns (inputs: seq<Input>, w: World)
    ensures Leads(START, timeout, inputs, w, true, false)
    ensures MAX_SEQ in w.e.replied && w.e.replied[MAX_SEQ].meta.owner == MAX_SEQ - 1
    ensures w.e.seqCounter == 1 && w.e.sentAt == map[] && w.e.notify == map[] && w.holder.None? && w.e.roundID == 0
    ensures w.allocs == MAX_SEQ + 1 && w.rotations == 1
    ensures forall d :: d in w.calls ==> d <= MAX_SEQ && w.calls[d].pc == Finished
  {
    hide Leads;
    var c := MAX_SEQ - 1;
    var w1, w2;
    inputs, w1 := LateCallSends(timeout);
    inputs, w2 := Answered(START, timeout, inputs, w1, true, false, MAX_SEQ, w1.e.sentAt[MAX_SEQ]);
    Append(START, timeout, inputs, w2, true, false, TimedOut(c));
    inputs := inputs + [TimedOut(c)];
    w := Step(w2, timeout, TimedOut(c));
    assert w2.e.sentAt == map[] && w2.e.notify == map[];
  }

  /** One full turn later the number is in use again. */
  lemma NumberIsUsedAgain(timeout: int, d: nat) returns (inputs: seq<Input>, w: World)
    requires d == 2 * MAX_SEQ - 1
    ensures Leads(START, timeout, inputs, w, true, false)
    ensures MAX_SEQ in w.e.replied && w.e.replied[MAX_SEQ].meta.owner == MAX_SEQ - 1
    ensures MAX_SEQ in w.e.sentAt && w.e.sentAt[MAX_SEQ] == ProbeMeta(1, 5, 0, d, d) && w.e.roundID == 0
    ensures MAX_SEQ in w.e.notify && w.e.notify[MAX_SEQ] == d && At(w, d, Waiting) && w.calls[d].num == MAX_SEQ
  {
    hide Leads;
    var w1, w2;
    inputs, w1 := LateCallGivesUp(timeout);
    inputs, w2 := Burn(START, timeout, inputs, w1, true, false, MAX_SEQ + 1, MAX_SEQ - 2);
    TakesNumber(START, timeout, inputs, w2, true, false, d, 1);
    inputs := inputs + [Begin(d, 1)] + [Lock(d)];
    var w3 := Numbered(w2, d, 1);
    SendsAt(START, timeout, inputs, w3, true, false, d, 5);
    inputs := inputs + [LoadRound(d)] + [DoRegister(d, 5)] + [Sent(d, 5)];
    w := OnItsWay(w3, d, 5);
  }

  /** A call that registers after its epoch and gives up just after its reply
      came leaves that reply behind; one full turn later a call with the same
      number, whose own reply is dropped, takes it, although all live shortly. */
  lemma LateRegistrationLeavesReply(timeout: int) returns (inputs: seq<Input>)
    ensures ValidRun(START, timeout, inputs) && Keeps(START, timeout, inputs, true, false)
    ensures exists c :: c in Run(START, timeout, inputs).calls && !OwnReply(c, Run(START, timeout, inputs).calls[c])
  {
    hide Leads, ValidRun, Run, Keeps;
    var d := 2 * MAX_SEQ - 1;
    var w1;
    inputs, w1 := NumberIsUsedAgain(timeout, d);
    Append(START, timeout, inputs, w1, true, false, Icmp(MAX_SEQ, "peer", 5, []));
    inputs := inputs + [Icmp(MAX_SEQ, "peer", 5, [])];
    var w2 := Step(w1, timeout, Icmp(MAX_SEQ, "peer", 5, []));
    assert d in w2.e.closed && w2.e.replied == w1.e.replied;
    Append(START, timeout, inputs, w2, true, false, Woken(d));
    inputs := inputs + [Woken(d)];
    var w3 := Step(w2, timeout, Woken(d));
    assert d in w3.calls && !OwnReply(d, w3.calls[d]);
    LeadsUnfold(START, timeout, inputs, w3, true, false);
  }
}
