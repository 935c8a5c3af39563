/** Whose reply a ProbeTTL call takes.  A number is used again after a full
    turn of the 16-bit counter, so the answer depends on how long calls live;
    a condition under which every success is the call's own is proved here. */
module IcmpAttribution {
  import opened IcmpEngine

  /** Fewer than a full turn of numbers are given out while a call is live. */
  ghost predicate LivesShort(w: World, i: Input)
    requires Enabled(w, i)
  {
    Allocates(w, i) ==> forall d :: d in w.calls && Live(w.calls[d]) ==> w.allocs - w.calls[d].number < MAX_SEQ
  }

  /** A call registers before its epoch is over. */
  ghost predicate RegistersInTime(w: World, i: Input)
    requires Enabled(w, i)
  {
    i.DoRegister? ==> RotationOf(w.calls[i.c].number) == w.rotations
  }

  ghost predicate Timely(w: World, i: Input)
    requires Enabled(w, i)
  {
    LivesShort(w, i) && RegistersInTime(w, i)
  }

  ghost predicate Allocates(w: World, i: Input)
    requires Enabled(w, i)
  {
    (i.Lock? && !SeqWillWrap(w.e.seqCounter, 1)) || (i.RotateEnd? && i.ok)
  }

  /** The probe was registered by a call of this number, in the current epoch,
      since the maps were last emptied; only that call has set its start. */
  ghost predicate OwnProbe(w: World, num: nat, m: ProbeMeta) {
    && m.owner in w.calls && m.timedBy == m.owner
    && var call := w.calls[m.owner];
    && HasRegistered(call) && call.num == num && call.era == w.era && RotationOf(call.number) == w.rotations
    && m.ttl == call.ttl && m.round == call.round
  }

  ghost predicate SentOk(w: World, num: nat) {
    num in w.e.sentAt ==> OwnProbe(w, num, w.e.sentAt[num])
  }

  ghost predicate RepliedOk(w: World, num: nat) {
    num in w.e.replied ==> OwnProbe(w, num, w.e.replied[num].meta)
  }

  /** A call is live for less than a full turn. */
  ghost predicate Young(w: World, c: nat) {
    c in w.calls && Live(w.calls[c]) ==> w.allocs - w.calls[c].number <= MAX_SEQ
  }

  /** The reply taken answers the probe of this very call, timed by itself, and
      nothing was emptied between registering and taking. */
  ghost predicate OwnReply(c: nat, call: Call) {
    call.got.Some? ==>
      var m := call.got.value.meta;
      m.owner == c && m.timedBy == c && m.ttl == call.ttl && m.round == call.round && call.era == call.ended
  }

  ghost predicate TakenOk(w: World, c: nat) {
    c in w.calls ==> OwnReply(c, w.calls[c])
  }

  ghost predicate Attributed(w: World) {
    && (forall num :: SentOk(w, num))
    && (forall num :: RepliedOk(w, num))
    && (forall c :: Young(w, c))
    && (forall c :: TakenOk(w, c))
  }

  /** A live call and the owner of a current probe of the same number are one. */
  lemma SameNumberSameCall(w: World, timeout: int, c: nat, m: ProbeMeta)
    requires Inv(w, timeout) && Young(w, c) && c in w.calls && Live(w.calls[c])
    requires OwnProbe(w, w.calls[c].num, m)
    ensures m.owner == c
  {
    var a, b := w.calls[c].number, w.calls[m.owner].number;
    assert CallOk(w, c) && CallOk(w, m.owner) && NumbersDiffer(w, c, m.owner);
    if a > b {
      SameRotation(w, timeout, a, b);
    }
    SameResidue(a, b);
  }

  lemma SameRotation(w: World, timeout: int, a: nat, b: nat)
    requires Inv(w, timeout) && b < a < w.allocs && RotationOf(b) == w.rotations
    ensures a - b < MAX_SEQ
  {
  }

  lemma SameResidue(a: nat, b: nat)
    requires SeqOf(a) == SeqOf(b) && -MAX_SEQ < a - b < MAX_SEQ
    ensures a == b
  {
  }

  lemma StepKeepsAttributed(w: World, timeout: int, i: Input)
    requires Inv(w, timeout) && Attributed(w) && Enabled(w, i) && Timely(w, i)
    ensures Attributed(Step(w, timeout, i))
  {
    var w' := Step(w, timeout, i);
    forall num ensures SentOk(w', num) {
      SentStaysOk(w, timeout, i, num);
    }
    forall num ensures RepliedOk(w', num) {
      RepliedStaysOk(w, timeout, i, num);
    }
    forall c ensures Young(w', c) {
      assert Young(w, c) && CallOk(w, c);
    }
    forall c ensures TakenOk(w', c) {
      TakenStaysOk(w, timeout, i, c);
    }
  }

  lemma SentStaysOk(w: World, timeout: int, i: Input, num: nat)
    requires Inv(w, timeout) && Attributed(w) && Enabled(w, i) && Timely(w, i)
    ensures SentOk(Step(w, timeout, i), num)
  {
    assert SentOk(w, num);
    if num in w.e.sentAt {
      assert CallOk(w, w.e.sentAt[num].owner);
      if i.Sent? && w.calls[i.c].num == num {
        assert Young(w, i.c);
        SameNumberSameCall(w, timeout, i.c, w.e.sentAt[num]);
      }
    }
    if i.DoRegister? {
      assert CallOk(w, i.c);
    }
  }

  /** A current probe stays one until the maps are emptied. */
  lemma OwnProbeStays(w: World, timeout: int, i: Input, num: nat, m: ProbeMeta)
    requires Inv(w, timeout) && Enabled(w, i) && OwnProbe(w, num, m) && !i.RotateClear? && !i.ResetClear?
    ensures OwnProbe(Step(w, timeout, i), num, m)
  {
    assert CallOk(w, m.owner);
    hide Inv;
  }

  /** Where a stored reply comes from. */
  lemma RepliedFrom(w: World, timeout: int, i: Input, num: nat)
    requires Enabled(w, i) && num in Step(w, timeout, i).e.replied
    ensures !i.RotateClear? && !i.ResetClear?
    ensures var m := Step(w, timeout, i).e.replied[num].meta;
      || (num in w.e.replied && w.e.replied[num].meta == m)
      || (num in w.e.sentAt && w.e.sentAt[num] == m)
  {
  }

  lemma RepliedStaysOk(w: World, timeout: int, i: Input, num: nat)
    requires Inv(w, timeout) && Attributed(w) && Enabled(w, i) && Timely(w, i)
    ensures RepliedOk(Step(w, timeout, i), num)
  {
    assert RepliedOk(w, num) && SentOk(w, num);
    hide Inv, Attributed, Step, Enabled, OwnProbe;
    if num in Step(w, timeout, i).e.replied {
      RepliedFrom(w, timeout, i, num);
      OwnProbeStays(w, timeout, i, num, Step(w, timeout, i).e.replied[num].meta);
    }
  }

  lemma TakenStaysOk(w: World, timeout: int, i: Input, c: nat)
    requires Inv(w, timeout) && Attributed(w) && Enabled(w, i) && Timely(w, i)
    ensures TakenOk(Step(w, timeout, i), c)
  {
    assert TakenOk(w, c) && GotOk(w, timeout, c);
    if i.Woken? && i.c == c && w.calls[c].num in w.e.replied {
      assert Young(w, c) && RepliedOk(w, w.calls[c].num);
      SameNumberSameCall(w, timeout, c, w.e.replied[w.calls[c].num].meta);
    }
  }

  /** Every step keeps the chosen halves of the condition. */
  ghost predicate Keeps(w: World, timeout: int, inputs: seq<Input>, lives: bool, registers: bool)
    requires ValidRun(w, timeout, inputs)
    decreases |inputs|
  {
    inputs == [] ||
    (&& (lives ==> LivesShort(w, inputs[0])) && (registers ==> RegistersInTime(w, inputs[0]))
     && Keeps(Step(w, timeout, inputs[0]), timeout, inputs[1..], lives, registers))
  }

  ghost predicate TimelyRun(w: World, timeout: int, inputs: seq<Input>)
    requires ValidRun(w, timeout, inputs)
  {
    Keeps(w, timeout, inputs, true, true)
  }

  lemma {:induction false} RunKeepsAttributed(w: World, timeout: int, inputs: seq<Input>)
    requires Inv(w, timeout) && Attributed(w) && ValidRun(w, timeout, inputs) && TimelyRun(w, timeout, inputs)
    ensures Attributed(Run(w, timeout, inputs))
    decreases |inputs|
  {
    hide Inv, Attributed, Step, Enabled, LivesShort, RegistersInTime;
    if inputs != [] {
      StepKeeps(w, timeout, inputs[0]);
      StepKeepsAttributed(w, timeout, inputs[0]);
      RunKeepsAttributed(Step(w, timeout, inputs[0]), timeout, inputs[1..]);
    }
  }

  /** In every timely interleaving a success answers the call's own probe, and
      no reset or rotation emptied the maps between its registration and its
      end: no call registered before a reset takes a reply stored after it. */
  lemma SuccessIsOwn(timeout: int, inputs: seq<Input>, c: nat)
    requires ValidRun(START, timeout, inputs) && TimelyRun(START, timeout, inputs)
    requires c in Run(START, timeout, inputs).calls
    ensures OwnReply(c, Run(START, timeout, inputs).calls[c])
  {
    hide Inv;
    StartOk(timeout);
    RunKeepsAttributed(START, timeout, inputs);
    assert TakenOk(Run(START, timeout, inputs), c);
  }

  /** The round a probe was registered under is the one in force when its reply
      is accepted: a reset in between makes the reply be dropped. */
  lemma AcceptedRepliesAreOfThisRound(e: Engine, num: nat, peer: string, finish: int, mpls: seq<string>, timeout: int)
    ensures var e' := OnIcmp(e, num, peer, finish, mpls, timeout);
      && (e'.replied != e.replied ==> num in e.sentAt && e.sentAt[num].round == e.roundID)
      && num !in e'.sentAt
      && (forall k :: k != num ==> (k in e'.sentAt <==> k in e.sentAt) && (k in e'.notify <==> k in e.notify))
      && (num in e.sentAt && num in e.notify ==> e.notify[num] in e'.closed)
  {
  }
}
