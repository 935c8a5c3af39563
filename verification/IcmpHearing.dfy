/** What a ProbeTTL call gets, told from the messages of a run alone: when it
    registered, when its probe was sent, which reply came first, and what
    emptied the maps in between. */
module IcmpHearing {
  import opened Text
  import opened Words
  import opened IcmpEngine
  import opened IcmpAttribution
  import opened IcmpResets

  datatype Answer = Answer(peer: string, rtt: int, mpls: seq<string>)

  /** A call has not registered, waits for the reply to a probe timed by start,
      was answered, will get no answer, or has ended with a result. */
  datatype View = Unseen | Open(start: int) | Heard(answer: Answer) | Lost | Ended(result: Option<Answer>)

  /** For one call: its TTL, the resets requested so far, those before it read
      the round, and what it can expect. */
  datatype Told = Told(ttl: int, bumps: nat, loaded: nat, view: View)

  const NOTHING_TOLD := Told(0, 0, 0, Unseen)

  predicate InTime(rtt: int, timeout: int) {
    0 < rtt && if timeout > 0 then rtt <= timeout else rtt <= 2_000_000_000
  }

  /** What one message means to call c, whose number is num. */
  function Hear(c: nat, num: nat, timeout: int, told: Told, i: Input): Told {
    match i
    case ResetBump => told.(bumps := told.bumps + 1)
    case LoadRound(d) => if d == c then told.(loaded := told.bumps) else told
    case DoRegister(d, now) => if d == c then told.(view := Open(now)) else told
    case Sent(d, start) => if d == c && told.view.Open? then told.(view := Open(start)) else told
    case Icmp(n, peer, finish, mpls) =>
      if n != num || !told.view.Open? then told
      else if told.loaded % WORD != told.bumps % WORD || !InTime(finish - told.view.start, timeout) then told.(view := Lost)
      else told.(view := Heard(Answer(peer, finish - told.view.start, mpls)))
    case RotateClear(_) => if told.view.Open? || told.view.Heard? then told.(view := Lost) else told
    case ResetClear => if told.view.Open? || told.view.Heard? then told.(view := Lost) else told
    case SendFailed(d) => if d == c then told.(view := Ended(None)) else told
    case TimedOut(d) => if d == c then told.(view := Ended(None)) else told
    case Woken(d) =>
      if d != c then told
      else told.(view := Ended(if told.view.Heard? then Some(told.view.answer) else None))
    case Begin(d, ttl) => if d == c then told.(ttl := ttl) else told
    case Lock(_) => told
    case RotateEnd(_, _) => told
  }

  function HearAll(c: nat, num: nat, timeout: int, told: Told, inputs: seq<Input>): Told
    decreases |inputs|
  {
    if inputs == [] then told else HearAll(c, num, timeout, Hear(c, num, timeout, told, inputs[0]), inputs[1..])
  }

  // ----- State and replay -----

  ghost predicate WaitsOpen(w: World, c: nat, call: Call, start: int) {
    && call.num in w.e.sentAt && call.num !in w.e.replied
    && var m := w.e.sentAt[call.num];
    && m.owner == c && m.start == start && m.round == call.round
    && call.num in w.e.notify && w.e.notify[call.num] == c && c !in w.e.closed
  }

  ghost predicate WaitsHeard(w: World, c: nat, call: Call, a: Answer) {
    && call.num !in w.e.sentAt && call.num in w.e.replied && c in w.e.closed
    && var r := w.e.replied[call.num];
    r.meta.owner == c && a == Answer(r.peer, r.rtt, r.mpls)
  }

  ghost predicate WaitsLost(w: World, c: nat, call: Call) {
    call.num !in w.e.sentAt && call.num !in w.e.replied && c in w.e.closed
  }

  function Got(call: Call): Option<Answer> {
    if call.got.Some? then Some(Answer(call.got.value.peer, call.got.value.rtt, call.got.value.mpls)) else None
  }

  ghost predicate ViewOk(w: World, c: nat, call: Call, view: View) {
    match call.pc
    case Registered => !view.Unseen? && !view.Ended? && Expects(w, c, call, view)
    case Waiting => !view.Unseen? && !view.Ended? && Expects(w, c, call, view)
    case Finished => if call.num != 0 then view == Ended(Got(call)) else view.Unseen?
    case _ => view.Unseen?
  }

  ghost predicate Expects(w: World, c: nat, call: Call, view: View) {
    match view
    case Open(start) => WaitsOpen(w, c, call, start)
    case Heard(a) => WaitsHeard(w, c, call, a)
    case Lost => WaitsLost(w, c, call)
    case _ => false
  }

  ghost predicate RoundOk(w: World, call: Call, told: Told) {
    && told.bumps % WORD == w.e.roundID && call.ttl == told.ttl
    && (call.pc in {Loaded, Registered, Waiting} ==> call.round == told.loaded % WORD)
  }

  ghost predicate Agrees(w: World, c: nat, told: Told) {
    && told.bumps % WORD == w.e.roundID
    && (c in w.calls ==> RoundOk(w, w.calls[c], told) && ViewOk(w, c, w.calls[c], told.view))
    && (c !in w.calls ==> told.view.Unseen?)
  }

  /** Steps of one call leave the numbers of another one alone. */
  lemma OtherNumber(w: World, timeout: int, c: nat, d: nat)
    requires Inv(w, timeout) && Attributed(w) && c != d
    requires c in w.calls && d in w.calls && Live(w.calls[c]) && Live(w.calls[d])
    ensures w.calls[c].num != w.calls[d].num
  {
    assert Young(w, c) && Young(w, d);
    LiveNumbersDiffer(w, timeout, c, d);
  }

  lemma NextRound(bumps: nat)
    ensures (bumps + 1) % WORD == (bumps % WORD + 1) % WORD
  {
  }

  /** A number about to be registered has no reply yet. */
  lemma NoReplyYet(w: World, timeout: int, i: Input)
    requires Inv(w, timeout) && Attributed(w) && Enabled(w, i) && Timely(w, i) && i.DoRegister?
    ensures w.calls[i.c].num !in w.e.replied && i.c !in w.e.closed
  {
    var call := w.calls[i.c];
    assert CallOk(w, i.c) && RepliedOk(w, call.num);
    if call.num in w.e.replied {
      var d := w.e.replied[call.num].meta.owner;
      assert CallOk(w, d) && NumbersDiffer(w, i.c, d);
      SameTurn(call.number, w.calls[d].number);
      assert false;
    }
  }

  lemma SameTurn(a: nat, b: nat)
    requires SeqOf(a) == SeqOf(b) && RotationOf(a) == RotationOf(b)
    ensures a == b
  {
  }

  /** The own steps of the call. */
  lemma OwnStepHeard(w: World, timeout: int, i: Input, c: nat, told: Told)
    requires Inv(w, timeout) && Attributed(w) && Enabled(w, i) && Timely(w, i) && Agrees(w, c, told)
    requires (i.Begin? || i.Lock? || i.RotateEnd? || i.LoadRound? || i.DoRegister? || i.SendFailed? || i.Sent? ||
              i.Woken? || i.TimedOut?) && i.c == c
    ensures var w' := Step(w, timeout, i);
      c in w'.calls && Agrees(w', c, Hear(c, w'.calls[c].num, timeout, told, i))
  {
    if !i.Begin? {
      assert CallOk(w, c);
    }
    if i.DoRegister? {
      NoReplyYet(w, timeout, i);
    }
    hide Inv, Attributed, Timely, CallOk;
  }

  function At<T>(m: map<nat, T>, num: nat): Option<T> {
    if num in m then Some(m[num]) else None
  }

  /** What call c sees of the shared maps has not changed. */
  ghost predicate SameFor(e: Engine, e': Engine, c: nat, num: nat) {
    && At(e'.sentAt, num) == At(e.sentAt, num) && At(e'.replied, num) == At(e.replied, num)
    && At(e'.notify, num) == At(e.notify, num) && (c in e'.closed <==> c in e.closed)
  }

  lemma SameForExpects(w: World, w': World, c: nat, call: Call, view: View)
    requires SameFor(w.e, w'.e, c, call.num) && Expects(w, c, call, view)
    ensures Expects(w', c, call, view)
  {
  }

  /** Who registers, gives up, takes a reply or sets a start touches its own
      number only. */
  lemma OtherStepSame(w: World, timeout: int, i: Input, c: nat, num: nat)
    requires Enabled(w, i)
    requires i.DoRegister? || i.SendFailed? || i.Sent? || i.Woken? || i.TimedOut?
    requires w.calls[i.c].num != num && (w.calls[i.c].num in w.e.notify ==> w.e.notify[w.calls[i.c].num] != c)
    ensures SameFor(w.e, Step(w, timeout, i).e, c, num)
  {
  }

  lemma OtherCallSame(w: World, timeout: int, i: Input, c: nat)
    requires Enabled(w, i) && c in w.calls
    requires (i.Begin? || i.Lock? || i.RotateEnd? || i.LoadRound? || i.DoRegister? || i.SendFailed? || i.Sent? ||
              i.Woken? || i.TimedOut?) && i.c != c
    ensures var w' := Step(w, timeout, i);
      && c in w'.calls && w'.calls[c] == w.calls[c] && w'.e.roundID == w.e.roundID
      && (i.Begin? || i.Lock? || i.RotateEnd? || i.LoadRound? ==> SameFor(w.e, w'.e, c, w.calls[c].num))
  {
  }

  /** Steps of another call. */
  lemma OtherStepHeard(w: World, timeout: int, i: Input, c: nat, told: Told)
    requires Inv(w, timeout) && Attributed(w) && Enabled(w, i) && Agrees(w, c, told) && c in w.calls
    requires (i.Begin? || i.Lock? || i.RotateEnd? || i.LoadRound? || i.DoRegister? || i.SendFailed? || i.Sent? ||
              i.Woken? || i.TimedOut?) && i.c != c
    ensures Agrees(Step(w, timeout, i), c, told)
  {
    hide Inv, Attributed, Step, SameFor, Expects;
    var w', call := Step(w, timeout, i), w.calls[c];
    OtherCallSame(w, timeout, i, c);
    if call.pc in {Registered, Waiting} {
      if i.DoRegister? || i.SendFailed? || i.Sent? || i.Woken? || i.TimedOut? {
        OtherNumber(w, timeout, c, i.c);
        ChannelOfItsNumber(w, timeout, w.calls[i.c].num, c);
        OtherStepSame(w, timeout, i, c, call.num);
      }
      SameForExpects(w, w', c, call, told.view);
    }
  }

  lemma ChannelOfItsNumber(w: World, timeout: int, num: nat, c: nat)
    requires Inv(w, timeout) && c in w.calls && w.calls[c].num != num
    ensures num in w.e.notify ==> w.e.notify[num] != c
  {
    assert ChannelOk(w, num);
  }

  lemma ReplyHeard(w: World, timeout: int, i: Input, c: nat, told: Told)
    requires Inv(w, timeout) && Agrees(w, c, told) && c in w.calls && i.Icmp?
    ensures var w' := Step(w, timeout, i);
      c in w'.calls && Agrees(w', c, Hear(c, w'.calls[c].num, timeout, told, i))
  {
    assert ChannelOk(w, i.num);
    hide Inv;
  }

  lemma SharedStepHeard(w: World, timeout: int, i: Input, c: nat, told: Told)
    requires Inv(w, timeout) && Enabled(w, i) && Agrees(w, c, told) && c in w.calls
    requires i.RotateClear? || i.ResetBump? || i.ResetClear?
    ensures var w' := Step(w, timeout, i);
      c in w'.calls && Agrees(w', c, Hear(c, w'.calls[c].num, timeout, told, i))
  {
    if i.RotateClear? {
      assert CallOk(w, i.c) && CallOk(w, c);
    }
    NextRound(told.bumps);
    hide Inv;
  }

  lemma StepHeard(w: World, timeout: int, i: Input, c: nat, told: Told)
    requires Inv(w, timeout) && Attributed(w) && Enabled(w, i) && Timely(w, i) && Agrees(w, c, told)
    ensures var w' := Step(w, timeout, i);
      Agrees(w', c, if c in w'.calls then Hear(c, w'.calls[c].num, timeout, told, i) else Hear(c, 0, timeout, told, i))
  {
    hide Inv, Attributed, Timely;
    if i.RotateClear? || i.Icmp? || i.ResetBump? || i.ResetClear? {
      if c in w.calls && i.Icmp? {
        ReplyHeard(w, timeout, i, c, told);
      } else if c in w.calls {
        SharedStepHeard(w, timeout, i, c, told);
      } else {
        NextRound(told.bumps);
      }
    } else if i.c == c {
      OwnStepHeard(w, timeout, i, c, told);
    } else if c in w.calls {
      OtherStepHeard(w, timeout, i, c, told);
    }
  }

  /** A number once given out stays. */
  lemma {:induction false} NumberStays(w: World, timeout: int, inputs: seq<Input>, c: nat)
    requires ValidRun(w, timeout, inputs) && c in w.calls
    ensures c in Run(w, timeout, inputs).calls
    ensures w.calls[c].num != 0 && HasRegistered(w.calls[c]) ==>
      HasRegistered(Run(w, timeout, inputs).calls[c]) && Run(w, timeout, inputs).calls[c].num == w.calls[c].num
    decreases |inputs|
  {
    if inputs != [] {
      NumberStaysOnce(w, timeout, inputs[0], c);
      NumberStays(Step(w, timeout, inputs[0]), timeout, inputs[1..], c);
    }
  }

  lemma NumberStaysOnce(w: World, timeout: int, i: Input, c: nat)
    requires Enabled(w, i) && c in w.calls
    ensures c in Step(w, timeout, i).calls
    ensures HasRegistered(w.calls[c]) ==>
      var call := Step(w, timeout, i).calls[c];
      call.num == w.calls[c].num && (call.pc in {Registered, Waiting} || call.pc == Finished)
  {
  }

  /** The number matters only while a reply is expected. */
  lemma NumberMatters(c: nat, num: nat, other: nat, timeout: int, told: Told, i: Input)
    requires told.view.Open? ==> num == other
    ensures Hear(c, num, timeout, told, i) == Hear(c, other, timeout, told, i)
  {
  }

  lemma OpenHasNumber(w: World, c: nat, told: Told)
    requires Agrees(w, c, told) && told.view.Open? && forall d :: CallOk(w, d)
    ensures c in w.calls && HasRegistered(w.calls[c]) && w.calls[c].num != 0
  {
    assert CallOk(w, c);
  }

  lemma {:induction false} RunHeard(w: World, timeout: int, inputs: seq<Input>, c: nat, told: Told, num: nat)
    requires Inv(w, timeout) && Attributed(w) && ValidRun(w, timeout, inputs) && TimelyRun(w, timeout, inputs)
    requires Agrees(w, c, told)
    requires c in Run(w, timeout, inputs).calls ==> num == Run(w, timeout, inputs).calls[c].num
    ensures Agrees(Run(w, timeout, inputs), c, HearAll(c, num, timeout, told, inputs))
    decreases |inputs|
  {
    hide Attributed, Step, Enabled, LivesShort, RegistersInTime, Agrees, Hear, CallOk, CounterOk, ClosedOk, NumbersDiffer,
      ChannelOk, ReplyOk, GotOk;
    if inputs != [] {
      var i := inputs[0];
      var w' := Step(w, timeout, i);
      var other := if c in w'.calls then w'.calls[c].num else 0;
      if told.view.Open? {
        OpenHasNumber(w, c, told);
        NumberStays(w, timeout, inputs, c);
        NumberStaysOnce(w, timeout, i, c);
      }
      StepKeeps(w, timeout, i);
      StepKeepsAttributed(w, timeout, i);
      StepHeard(w, timeout, i, c, told);
      NumberMatters(c, num, other, timeout, told, i);
      RunHeard(w', timeout, inputs[1..], c, Hear(c, num, timeout, told, i), num);
    }
  }

  /** In every timely run the result of a call is told by the messages alone:
      the first reply for its number after it registered, with the address that
      sent it and its labels, timed from its own send if that came before the reply and from
      its registration otherwise; nothing if that reply came too late, after a
      reset, or was emptied out with the maps.  A waiting call is woken up
      exactly when its answer is there or can no longer come. */
  lemma CallsGetWhatTheyHear(timeout: int, inputs: seq<Input>, c: nat)
    requires ValidRun(START, timeout, inputs) && TimelyRun(START, timeout, inputs)
    requires c in Run(START, timeout, inputs).calls
    ensures var w := Run(START, timeout, inputs);
      var call := w.calls[c];
      var told := HearAll(c, call.num, timeout, NOTHING_TOLD, inputs);
      && call.ttl == told.ttl
      && (told.view.Ended? <==> call.pc == Finished && call.num != 0)
      && (told.view.Ended? ==> Got(call) == told.view.result)
      && (call.pc in {Registered, Waiting} ==> (c in w.e.closed <==> !told.view.Open?))
  {
    hide Inv;
    StartOk(timeout);
    var w := Run(START, timeout, inputs);
    RunHeard(START, timeout, inputs, c, NOTHING_TOLD, w.calls[c].num);
  }

  // ----- The messages behind an answer -----

  /** The clock reading from which the probe of c is timed. */
  function StartOf(inputs: seq<Input>, c: nat): Option<int> {
    if inputs == [] then None
    else
      var i := inputs[|inputs| - 1];
      if i.DoRegister? && i.c == c then Some(i.now)
      else if i.Sent? && i.c == c then Some(i.start)
      else StartOf(inputs[..|inputs| - 1], c)
  }

  /** Some reply for the number gave this answer, timed by the latest of the
      messages by which c registered and sent. */
  ghost predicate Gave(inputs: seq<Input>, c: nat, num: nat, a: Answer, k: nat) {
    && k < |inputs| && inputs[k].Icmp? && inputs[k].num == num && inputs[k].peer == a.peer && inputs[k].mpls == a.mpls
    && StartOf(inputs[..k], c).Some? && a.rtt == inputs[k].finish - StartOf(inputs[..k], c).value
  }

  ghost predicate Explained(inputs: seq<Input>, c: nat, num: nat, view: View) {
    match view
    case Open(start) => StartOf(inputs, c) == Some(start)
    case Heard(a) => exists k: nat :: Gave(inputs, c, num, a, k)
    case Ended(result) => result.Some? ==> exists k: nat :: Gave(inputs, c, num, result.value, k)
    case _ => true
  }

  lemma GaveStill(inputs: seq<Input>, i: Input, c: nat, num: nat, a: Answer, k: nat)
    requires Gave(inputs, c, num, a, k)
    ensures Gave(inputs + [i], c, num, a, k)
  {
    assert (inputs + [i])[..k] == inputs[..k];
  }

  lemma OneMoreExplained(before: seq<Input>, i: Input, c: nat, num: nat, timeout: int, told: Told)
    requires Explained(before, c, num, told.view)
    ensures Explained(before + [i], c, num, Hear(c, num, timeout, told, i).view)
  {
    var more := before + [i];
    assert more[..|before|] == before;
    var view := Hear(c, num, timeout, told, i).view;
    match told.view {
      case Open(start) =>
        if view.Heard? {
          assert Gave(more, c, num, view.answer, |before|);
        }
      case Heard(a) =>
        var k: nat :| Gave(before, c, num, a, k);
        GaveStill(before, i, c, num, a, k);
      case Ended(result) =>
        if result.Some? {
          var k: nat :| Gave(before, c, num, result.value, k);
          GaveStill(before, i, c, num, result.value, k);
        }
      case _ =>
    }
  }

  lemma {:induction false} AllExplained(before: seq<Input>, inputs: seq<Input>, c: nat, num: nat, timeout: int, told: Told)
    requires Explained(before, c, num, told.view)
    ensures Explained(before + inputs, c, num, HearAll(c, num, timeout, told, inputs).view)
    decreases |inputs|
  {
    hide Explained, Hear;
    if inputs == [] {
      assert before + inputs == before;
    } else {
      OneMoreExplained(before, inputs[0], c, num, timeout, told);
      AllExplained(before + [inputs[0]], inputs[1..], c, num, timeout, Hear(c, num, timeout, told, inputs[0]));
      assert before + [inputs[0]] + inputs[1..] == before + inputs;
    }
  }

  /** Behind every success of a timely run lies a reply for the number of the
      call from the address it names, with its labels, and its RTT is the time from the call's
      own latest timing to that reply. */
  lemma SuccessIsExplained(timeout: int, inputs: seq<Input>, c: nat)
    requires ValidRun(START, timeout, inputs) && TimelyRun(START, timeout, inputs)
    requires c in Run(START, timeout, inputs).calls && Run(START, timeout, inputs).calls[c].got.Some?
    ensures var call := Run(START, timeout, inputs).calls[c];
      exists k: nat :: Gave(inputs, c, call.num, Answer(call.got.value.peer, call.got.value.rtt, call.got.value.mpls), k)
  {
    hide Inv, ValidRun, TimelyRun, Run, Gave;
    GotMeansFinished(timeout, inputs, c);
    CallsGetWhatTheyHear(timeout, inputs, c);
    var call := Run(START, timeout, inputs).calls[c];
    AllExplained([], inputs, c, call.num, timeout, NOTHING_TOLD);
    assert [] + inputs == inputs;
  }

  lemma GotMeansFinished(timeout: int, inputs: seq<Input>, c: nat)
    requires ValidRun(START, timeout, inputs) && TimelyRun(START, timeout, inputs)
    requires c in Run(START, timeout, inputs).calls && Run(START, timeout, inputs).calls[c].got.Some?
    ensures Run(START, timeout, inputs).calls[c].pc == Finished && Run(START, timeout, inputs).calls[c].num != 0
  {
    StartOk(timeout);
    RunKeepsAttributed(START, timeout, inputs);
    RunKeeps(START, timeout, inputs);
    var w := Run(START, timeout, inputs);
    assert GotOk(w, timeout, c) && TakenOk(w, c);
    RunNumbered(START, timeout, inputs, c);
  }

  /** Only a call with a number gets a reply. */
  lemma {:induction false} RunNumbered(w: World, timeout: int, inputs: seq<Input>, c: nat)
    requires ValidRun(w, timeout, inputs) && Inv(w, timeout)
    requires c in w.calls && w.calls[c].got.Some? ==> w.calls[c].num != 0
    ensures var w' := Run(w, timeout, inputs); c in w'.calls && w'.calls[c].got.Some? ==> w'.calls[c].num != 0
    decreases |inputs|
  {
    if inputs != [] {
      var w' := Step(w, timeout, inputs[0]);
      StepKeeps(w, timeout, inputs[0]);
      assert c in w'.calls && w'.calls[c].got.Some? ==> w'.calls[c].num != 0 by {
        assert CallOk(w, c) && GotOk(w, timeout, c);
      }
      RunNumbered(w', timeout, inputs[1..], c);
    }
  }
}
