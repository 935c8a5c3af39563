/** The engine's calls and counters told from the messages of a run alone, and
    what the shared maps hold: nothing is left behind by a call that has ended,
    but a reply that came when it had just given up. */
module IcmpBooks {
  import opened IcmpEngine

  /** Where each call is, its number on the wire, and how often the maps had been
      emptied when it registered and when it ended; the numbers given out since
      the last rotation and in all; and the resets that have yet to empty the maps. */
  datatype Book = Book(at: map<nat, Pc>, nums: map<nat, nat>, since: map<nat, nat>, until: map<nat, nat>,
                       given: nat, total: nat, rotations: nat, emptied: nat, resets: nat)

  const EMPTY := Book(map[], map[], map[], map[], 0, 0, 0, 0, 0)

  function Moves(b: Book, c: nat, pc: Pc): Book {
    b.(at := b.at[c := pc])
  }

  function Ends(b: Book, c: nat): Book {
    Moves(b, c, Finished).(until := b.until[c := b.emptied])
  }

  function GiveNumber(b: Book, c: nat): Book {
    Moves(b, c, Allocated).(nums := b.nums[c := b.given + 1], given := b.given + 1, total := b.total + 1)
  }

  function Note(b: Book, i: Input): Book {
    match i
    case Begin(c, _) => Moves(b, c, Started)
    case Lock(c) => if b.given == 0xFFFF then Moves(b, c, Rotating).(given := 0) else GiveNumber(b, c)
    case RotateClear(c) => Moves(b, c, Cleared).(rotations := b.rotations + 1, emptied := b.emptied + 1)
    case RotateEnd(c, ok) => if ok then GiveNumber(b, c) else Ends(b, c)
    case LoadRound(c) => Moves(b, c, Loaded)
    case DoRegister(c, _) => Moves(b, c, Registered).(since := b.since[c := b.emptied])
    case SendFailed(c) => Ends(b, c)
    case Sent(c, _) => Moves(b, c, Waiting)
    case Woken(c) => Ends(b, c)
    case TimedOut(c) => Ends(b, c)
    case Icmp(_, _, _, _) => b
    case ResetBump => b.(resets := b.resets + 1)
    case ResetClear => b.(resets := if b.resets > 0 then b.resets - 1 else 0, emptied := b.emptied + 1)
  }

  function NoteAll(b: Book, inputs: seq<Input>): Book
    decreases |inputs|
  {
    if inputs == [] then b else NoteAll(Note(b, inputs[0]), inputs[1..])
  }

  ghost predicate CallInBook(w: World, b: Book, c: nat) {
    && (c in w.calls <==> c in b.at) && (c in b.since ==> c in w.calls)
    && (c in w.calls ==>
          var call := w.calls[c];
          && call.pc == b.at[c]
          && (HasNumber(call) ==> c in b.nums && call.num == b.nums[c])
          && (HasRegistered(call) && call.pc != Finished ==> c in b.since)
          && (c in b.since ==> call.era == b.since[c])
          && (call.pc == Finished ==> c in b.until && call.ended == b.until[c]))
  }

  ghost predicate InBook(w: World, b: Book) {
    && w.e.seqCounter == b.given && w.allocs == b.total && w.rotations == b.rotations
    && w.era == b.emptied && w.resetting == b.resets
    && forall c :: CallInBook(w, b, c)
  }

  /** The message names this call. */
  predicate Names(i: Input, c: nat) {
    !i.Icmp? && !i.ResetBump? && !i.ResetClear? && i.c == c
  }

  lemma OtherCallIsLeftAlone(w: World, timeout: int, i: Input, c: nat)
    requires Enabled(w, i) && !Names(i, c)
    ensures var calls := Step(w, timeout, i).calls; (c in calls <==> c in w.calls) && (c in calls ==> calls[c] == w.calls[c])
  {
    hide ClearAll, OnIcmp, Discard, Forget, Register, SetStart, TakeReply, SeqWillWrap, NextCounter;
  }

  lemma OtherCallStays(w: World, timeout: int, b: Book, i: Input, c: nat)
    requires Enabled(w, i) && !Names(i, c) && CallInBook(w, b, c)
    ensures CallInBook(Step(w, timeout, i), Note(b, i), c)
  {
    hide Step, Enabled, HasNumber, HasRegistered;
    OtherCallIsLeftAlone(w, timeout, i, c);
  }

  lemma NamedCallStays(w: World, timeout: int, b: Book, i: Input, c: nat)
    requires CounterOk(w) && CallOk(w, c) && Enabled(w, i) && Names(i, c) && CallInBook(w, b, c)
    requires w.e.seqCounter == b.given && w.era == b.emptied
    ensures CallInBook(Step(w, timeout, i), Note(b, i), c)
  {
    hide ClearAll, OnIcmp, Discard, Forget, Register, SetStart, TakeReply, SeqOf;
    if i.Lock? || i.RotateEnd? {
      NumberedCallStays(w, timeout, b, i, c);
    }
  }

  lemma NextNumber(counter: nat)
    requires counter <= 0xFFFF
    ensures SeqWillWrap(counter, 1) <==> counter == 0xFFFF
    ensures counter < 0xFFFF ==> NextCounter(counter) == counter + 1 && (counter + 1) % 0x10000 == counter + 1
  {
  }

  lemma NumberedCallStays(w: World, timeout: int, b: Book, i: Input, c: nat)
    requires Enabled(w, i) && CallInBook(w, b, c)
    requires w.e.seqCounter <= 0xFFFF && (i.RotateEnd? ==> w.e.seqCounter == 0 && w.calls[i.c].num == 0)
    requires (i.Lock? || i.RotateEnd?) && i.c == c && w.e.seqCounter == b.given && w.era == b.emptied
    ensures CallInBook(Step(w, timeout, i), Note(b, i), c)
  {
    NextNumber(w.e.seqCounter);
  }

  lemma CountsStayInBook(w: World, timeout: int, b: Book, i: Input)
    requires CounterOk(w) && Enabled(w, i) && InBook(w, b)
    requires i.RotateEnd? ==> CallOk(w, i.c)
    ensures var w', b' := Step(w, timeout, i), Note(b, i);
      && w'.e.seqCounter == b'.given && w'.allocs == b'.total && w'.rotations == b'.rotations
      && w'.era == b'.emptied && w'.resetting == b'.resets
  {
    hide CallInBook, HasNumber, SeqOf;
    NextNumber(w.e.seqCounter);
  }

  lemma StepInBook(w: World, timeout: int, b: Book, i: Input)
    requires Inv(w, timeout) && Enabled(w, i) && InBook(w, b)
    ensures InBook(Step(w, timeout, i), Note(b, i))
  {
    hide Step, Note, Names, CallInBook, CallOk, CounterOk, ChannelOk, GotOk, ReplyOk;
    if i.RotateEnd? {
      assert CallOk(w, i.c);
    }
    CountsStayInBook(w, timeout, b, i);
    forall c ensures CallInBook(Step(w, timeout, i), Note(b, i), c) {
      assert CallOk(w, c);
      if Names(i, c) {
        NamedCallStays(w, timeout, b, i, c);
      } else {
        OtherCallStays(w, timeout, b, i, c);
      }
    }
  }

  lemma {:induction false} RunInBook(w: World, timeout: int, b: Book, inputs: seq<Input>)
    requires Inv(w, timeout) && InBook(w, b) && ValidRun(w, timeout, inputs)
    ensures InBook(Run(w, timeout, inputs), NoteAll(b, inputs))
    decreases |inputs|
  {
    hide Inv, InBook, Step, Enabled, Note;
    if inputs != [] {
      StepKeeps(w, timeout, inputs[0]);
      StepInBook(w, timeout, b, inputs[0]);
      RunInBook(Step(w, timeout, inputs[0]), timeout, Note(b, inputs[0]), inputs[1..]);
    }
  }

  /** In every run the messages tell where each call is, its number on the wire,
      and what the labels of the other theorems stand for: the rotations, how
      often the maps were emptied, and how often when a call registered and ended. */
  lemma RunIsBooked(timeout: int, inputs: seq<Input>)
    requires ValidRun(START, timeout, inputs)
    ensures InBook(Run(START, timeout, inputs), NoteAll(EMPTY, inputs))
  {
    hide Inv;
    StartOk(timeout);
    RunInBook(START, timeout, EMPTY, inputs);
  }

  /** A reset forgets the final TTL and begins another round, and the probes under
      way stay registered until the maps are emptied. */
  lemma ResetBegins(w: World, timeout: int)
    ensures var e' := Step(w, timeout, ResetBump).e;
      && e'.knownFinal == -1 && e'.roundID != w.e.roundID && e'.roundID < 0x1_0000_0000
      && (w.e.roundID < 0xFFFF_FFFF ==> e'.roundID == w.e.roundID + 1)
      && e'.sentAt == w.e.sentAt && e'.replied == w.e.replied && e'.notify == w.e.notify && e'.closed == w.e.closed
  {
  }

  // ----- What the maps hold -----

  /** A probe waits under its number together with the channel of its call, which
      has registered and not ended. */
  ghost predicate Paired(w: World, num: nat) {
    && (num in w.e.sentAt <==> num in w.e.notify)
    && (num in w.e.sentAt ==>
          var c := w.e.sentAt[num].owner;
          w.e.notify[num] == c && c in w.calls && w.calls[c].num == num && w.calls[c].pc in {Registered, Waiting})
  }

  /** A stored reply is for a call that has not ended, or has ended without one. */
  ghost predicate Expected(w: World, num: nat) {
    num in w.e.replied ==>
      var c := w.e.replied[num].meta.owner;
      && c in w.calls && w.calls[c].num == num
      && (w.calls[c].pc in {Registered, Waiting} || (w.calls[c].pc == Finished && w.calls[c].got.None?))
  }

  ghost predicate Tidy(w: World) {
    (forall num :: Paired(w, num)) && (forall num :: Expected(w, num))
  }

  lemma StepTidy(w: World, timeout: int, i: Input)
    requires Inv(w, timeout) && Enabled(w, i) && Tidy(w)
    ensures Tidy(Step(w, timeout, i))
  {
    var w' := Step(w, timeout, i);
    forall num ensures Paired(w', num) {
      StaysPaired(w, timeout, i, num);
    }
    forall num ensures Expected(w', num) {
      StaysExpected(w, timeout, i, num);
    }
  }

  lemma StaysPaired(w: World, timeout: int, i: Input, num: nat)
    requires Inv(w, timeout) && Enabled(w, i) && Tidy(w)
    ensures Paired(Step(w, timeout, i), num)
  {
    hide CounterOk, ClosedOk, ReplyOk, GotOk, NumbersDiffer, Expected;
    assert Paired(w, num) && ChannelOk(w, num);
    if i.Woken? || i.TimedOut? || i.SendFailed? {
      assert CallOk(w, i.c);
    }
  }

  lemma StaysExpected(w: World, timeout: int, i: Input, num: nat)
    requires Inv(w, timeout) && Enabled(w, i) && Tidy(w)
    ensures Expected(Step(w, timeout, i), num)
  {
    hide CounterOk, ClosedOk, ReplyOk, ChannelOk, NumbersDiffer;
    assert Expected(w, num) && Paired(w, num);
  }

  lemma {:induction false} RunTidy(w: World, timeout: int, inputs: seq<Input>)
    requires Inv(w, timeout) && Tidy(w) && ValidRun(w, timeout, inputs)
    ensures Tidy(Run(w, timeout, inputs))
    decreases |inputs|
  {
    hide Inv, Tidy, Step, Enabled;
    if inputs != [] {
      StepKeeps(w, timeout, inputs[0]);
      StepTidy(w, timeout, inputs[0]);
      RunTidy(Step(w, timeout, inputs[0]), timeout, inputs[1..]);
    }
  }

  /** In every reachable state the probes and channels are those of calls that
      have registered and not ended, so that none are left once all calls have
      ended; and a reply is left only by a call that gave up. */
  lemma NothingIsLeft(w: World, timeout: int, num: nat)
    requires Reachable(w, timeout)
    ensures Paired(w, num) && Expected(w, num)
    ensures (forall c :: c in w.calls ==> w.calls[c].pc == Finished) ==> num !in w.e.sentAt && num !in w.e.notify
    ensures (forall c :: c in w.calls ==> w.calls[c].pc == Finished && w.calls[c].got.Some?) ==> num !in w.e.replied
  {
    var inputs :| ReachedBy(w, timeout, inputs);
    StartOk(timeout);
    RunTidy(START, timeout, inputs);
  }
}
