/** Replies across a reset, and exactly when the claims about replies hold: the
    two conditions of IcmpAttribution against the two claims. */
module IcmpResets {
  import opened IcmpEngine
  import opened IcmpAttribution
  import opened IcmpCollisions

  /** The maps were not emptied between registering and taking a reply: a call
      registered before a reset takes no reply stored after it. */
  ghost predicate TakenInEra(call: Call) {
    call.got.Some? ==> call.era == call.ended
  }

  /** A registered call whose number is known has registered since the maps were
      last emptied. */
  ghost predicate InEra(w: World, c: nat) {
    c in w.calls && w.calls[c].pc in {Registered, Waiting}
      && (w.calls[c].num in w.e.sentAt || w.calls[c].num in w.e.replied) ==>
      w.calls[c].era == w.era
  }

  ghost predicate CallInEra(w: World, c: nat) {
    c in w.calls ==> TakenInEra(w.calls[c])
  }

  ghost predicate Separated(w: World) {
    && (forall c :: Young(w, c))
    && (forall c :: InEra(w, c))
    && (forall c :: CallInEra(w, c))
  }

  /** Two calls that are live at the same time have different numbers. */
  lemma LiveNumbersDiffer(w: World, timeout: int, c: nat, d: nat)
    requires Inv(w, timeout) && Young(w, c) && Young(w, d)
    requires c in w.calls && d in w.calls && c != d && Live(w.calls[c]) && Live(w.calls[d])
    ensures w.calls[c].num != w.calls[d].num
  {
    assert CallOk(w, c) && CallOk(w, d) && NumbersDiffer(w, c, d);
    if w.calls[c].num == w.calls[d].num {
      SameResidue(w.calls[c].number, w.calls[d].number);
    }
  }

  lemma StaysInEra(w: World, timeout: int, i: Input, c: nat)
    requires Inv(w, timeout) && Separated(w) && Enabled(w, i)
    ensures InEra(Step(w, timeout, i), c)
  {
    assert InEra(w, c) && Young(w, c);
    if i.DoRegister? && c in w.calls && i.c != c && w.calls[c].pc in {Registered, Waiting} {
      assert Young(w, i.c);
      LiveNumbersDiffer(w, timeout, c, i.c);
    }
  }

  lemma StaysTakenInEra(w: World, timeout: int, i: Input, c: nat)
    requires Inv(w, timeout) && Separated(w) && Enabled(w, i)
    ensures CallInEra(Step(w, timeout, i), c)
  {
    assert CallInEra(w, c) && InEra(w, c) && GotOk(w, timeout, c);
  }

  lemma StepKeepsSeparated(w: World, timeout: int, i: Input)
    requires Inv(w, timeout) && Separated(w) && Enabled(w, i) && LivesShort(w, i)
    ensures Separated(Step(w, timeout, i))
  {
    var w' := Step(w, timeout, i);
    forall c ensures Young(w', c) {
      assert Young(w, c) && CallOk(w, c);
    }
    forall c ensures InEra(w', c) {
      StaysInEra(w, timeout, i, c);
    }
    forall c ensures CallInEra(w', c) {
      StaysTakenInEra(w, timeout, i, c);
    }
  }

  lemma {:induction false} RunKeepsSeparated(w: World, timeout: int, inputs: seq<Input>)
    requires Inv(w, timeout) && Separated(w) && ValidRun(w, timeout, inputs) && Keeps(w, timeout, inputs, true, false)
    ensures Separated(Run(w, timeout, inputs))
    decreases |inputs|
  {
    hide Inv, Separated, Step, Enabled, LivesShort, RegistersInTime;
    if inputs != [] {
      StepKeeps(w, timeout, inputs[0]);
      StepKeepsSeparated(w, timeout, inputs[0]);
      RunKeepsSeparated(Step(w, timeout, inputs[0]), timeout, inputs[1..]);
    }
  }

  /** Whenever calls register: as long as fewer than a full turn of numbers is
      given out during a call, no call registered before a reset or a rotation
      takes a reply stored after it. */
  lemma NoReplyAcrossReset(timeout: int, inputs: seq<Input>, c: nat)
    requires ValidRun(START, timeout, inputs) && Keeps(START, timeout, inputs, true, false)
    requires c in Run(START, timeout, inputs).calls
    ensures TakenInEra(Run(START, timeout, inputs).calls[c])
  {
    hide Inv;
    StartOk(timeout);
    RunKeepsSeparated(START, timeout, inputs);
    assert CallInEra(Run(START, timeout, inputs), c);
  }

  // ----- Rounds -----

  /** Once every reset has emptied the maps, the stored replies are of the round
      in force: those of earlier rounds were dropped or emptied out. */
  ghost predicate OfThisRound(w: World, num: nat) {
    w.resetting == 0 && num in w.e.replied ==> w.e.replied[num].meta.round == w.e.roundID
  }

  lemma {:induction false} RunKeepsRounds(w: World, timeout: int, inputs: seq<Input>)
    requires ValidRun(w, timeout, inputs) && forall num :: OfThisRound(w, num)
    ensures forall num :: OfThisRound(Run(w, timeout, inputs), num)
    decreases |inputs|
  {
    if inputs != [] {
      var w' := Step(w, timeout, inputs[0]);
      forall num ensures OfThisRound(w', num) {
        assert OfThisRound(w, num);
      }
      RunKeepsRounds(w', timeout, inputs[1..]);
    }
  }

  /** In every reachable state with no reset under way, whoever takes a reply
      takes one to a probe of the current round. */
  lemma RepliesAreOfThisRound(w: World, timeout: int, num: nat)
    requires Reachable(w, timeout) && w.resetting == 0 && num in w.e.replied
    ensures w.e.replied[num].meta.round == w.e.roundID
  {
    var inputs :| ReachedBy(w, timeout, inputs);
    RunKeepsRounds(START, timeout, inputs);
    assert OfThisRound(w, num);
  }

  // ----- Exactly when -----

  /** Asking for less is easier to keep. */
  lemma {:induction false} KeepsLess(w: World, timeout: int, inputs: seq<Input>, lives: bool, registers: bool,
                                     less: bool, fewer: bool)
    requires ValidRun(w, timeout, inputs) && Keeps(w, timeout, inputs, lives, registers)
    requires (less ==> lives) && (fewer ==> registers)
    ensures Keeps(w, timeout, inputs, less, fewer)
    decreases |inputs|
  {
    hide Enabled, Step, LivesShort, RegistersInTime;
    if inputs != [] {
      KeepsLess(Step(w, timeout, inputs[0]), timeout, inputs[1..], lives, registers, less, fewer);
    }
  }

  /** After a run under the chosen conditions the call has only its own reply. */
  ghost predicate OwnAfter(timeout: int, inputs: seq<Input>, lives: bool, registers: bool, c: nat) {
    ValidRun(START, timeout, inputs) && Keeps(START, timeout, inputs, lives, registers) ==>
      c in Run(START, timeout, inputs).calls ==> OwnReply(c, Run(START, timeout, inputs).calls[c])
  }

  ghost predicate InEraAfter(timeout: int, inputs: seq<Input>, lives: bool, registers: bool, c: nat) {
    ValidRun(START, timeout, inputs) && Keeps(START, timeout, inputs, lives, registers) ==>
      c in Run(START, timeout, inputs).calls ==> TakenInEra(Run(START, timeout, inputs).calls[c])
  }

  /** Every success is the call's own if and only if both conditions are asked for. */
  lemma OwnExactly(timeout: int, lives: bool, registers: bool)
    ensures (forall inputs, c :: OwnAfter(timeout, inputs, lives, registers, c)) <==> lives && registers
  {
    hide ValidRun, Keeps, Run, OwnReply;
    if lives && registers {
      forall inputs, c ensures OwnAfter(timeout, inputs, lives, registers, c) {
        if ValidRun(START, timeout, inputs) && Keeps(START, timeout, inputs, true, true)
          && c in Run(START, timeout, inputs).calls {
          SuccessIsOwn(timeout, inputs, c);
        }
      }
    } else {
      var inputs;
      if lives {
        inputs := LateRegistrationLeavesReply(timeout);
        KeepsLess(START, timeout, inputs, true, false, lives, registers);
      } else {
        inputs := OldCallTakesYoungReply(timeout, false);
        KeepsLess(START, timeout, inputs, false, true, lives, registers);
      }
      var c :| c in Run(START, timeout, inputs).calls && !OwnReply(c, Run(START, timeout, inputs).calls[c]);
      assert !OwnAfter(timeout, inputs, lives, registers, c);
    }
  }

  /** No reply is taken across a reset if and only if calls are asked to live
      shortly; when they register does not matter. */
  lemma ResetExactly(timeout: int, lives: bool, registers: bool)
    ensures (forall inputs, c :: InEraAfter(timeout, inputs, lives, registers, c)) <==> lives
  {
    hide ValidRun, Keeps, Run, TakenInEra;
    if lives {
      forall inputs, c ensures InEraAfter(timeout, inputs, lives, registers, c) {
        if ValidRun(START, timeout, inputs) && Keeps(START, timeout, inputs, true, registers)
          && c in Run(START, timeout, inputs).calls {
          KeepsLess(START, timeout, inputs, true, registers, true, false);
          NoReplyAcrossReset(timeout, inputs, c);
        }
      }
    } else {
      var inputs := OldCallTakesYoungReply(timeout, true);
      KeepsLess(START, timeout, inputs, false, true, lives, registers);
      var c :| TakesYoungReply(c, Run(START, timeout, inputs), true);
      AcrossIsNotInEra(c, Run(START, timeout, inputs));
      assert !InEraAfter(timeout, inputs, lives, registers, c);
    }
  }

  lemma AcrossIsNotInEra(c: nat, w: World)
    requires c in w.calls && ReplyAcrossReset(c, w)
    ensures !TakenInEra(w.calls[c])
  {
  }
}
