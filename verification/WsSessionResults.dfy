/** What the calls of a session are told, against what happens to their messages:
    the messages of exactly those sends that were accepted are written, as long
    as nobody closes the session with a code and no write fails. */
module WsSessionResults {
  import opened WsSession

  /** The move that starts a call: the first that names it. */
  predicate Starts(m: Move, id: nat) {
    (m.Send? || m.Close? || m.Finish?) && m.id == id
  }

  function StartOf(moves: seq<Move>, id: nat): seq<Move> {
    if moves == [] then []
    else
      var before := StartOf(moves[..|moves| - 1], id);
      if before == [] && Starts(moves[|moves| - 1], id) then [moves[|moves| - 1]] else before
  }

  /** The message a call was started to send. */
  function MessageOf(moves: seq<Move>, id: nat): Envelope {
    var start := StartOf(moves, id);
    if start != [] && start[0].Send? then start[0].msg else ""
  }

  predicate WasAccepted(p: Phase) {
    p == SendUnlocks(Accepted) || p == Returned(Accepted)
  }

  /** The step tells its call that the message was accepted. */
  predicate Accepts(w: World, m: Move) {
    && m.Go? && m.id in w.calls && !WasAccepted(w.calls[m.id])
    && var w' := Step(w, m);
    m.id in w'.calls && WasAccepted(w'.calls[m.id])
  }

  function Newly(w: World, m: Move): seq<nat> {
    if Accepts(w, m) then [m.id] else []
  }

  /** The calls that a run tells "accepted", in the order in which they are told. */
  function Accepters(w: World, moves: seq<Move>): seq<nat>
    decreases |moves|
  {
    if moves == [] then []
    else Newly(w, moves[0]) + Accepters(Step(w, moves[0]), moves[1..])
  }

  predicate NoneTwice(ids: seq<nat>) {
    forall j, k :: 0 <= j < k < |ids| ==> ids[j] != ids[k]
  }

  /** A call is where its starting move put it, and goes on to send that message. */
  ghost predicate CallTold(w: World, moves: seq<Move>, id: nat) {
    && (id in w.calls <==> StartOf(moves, id) != [])
    && (id in w.calls ==>
          match w.calls[id]
          case WantsToSend(m) => StartOf(moves, id) == [Send(id, m)]
          case Checking(m) => StartOf(moves, id) == [Send(id, m)]
          case Sending(m) => StartOf(moves, id) == [Send(id, m)]
          case _ => true)
  }

  ghost predicate Books(w: World, moves: seq<Move>, ids: seq<nat>) {
    && (forall id :: CallTold(w, moves, id))
    && NoneTwice(ids) && |w.log.accepted| == |ids|
    && (forall id :: id in w.calls && WasAccepted(w.calls[id]) <==> id in ids)
    && (forall k :: 0 <= k < |ids| ==> w.log.accepted[k] == MessageOf(moves, ids[k]))
  }

  lemma OneMoreMove(moves: seq<Move>, m: Move, id: nat)
    ensures StartOf(moves + [m], id) == if StartOf(moves, id) == [] && Starts(m, id) then [m] else StartOf(moves, id)
    ensures StartOf(moves, id) != [] ==> MessageOf(moves + [m], id) == MessageOf(moves, id)
  {
    assert (moves + [m])[..|moves|] == moves;
  }

  /** What one step does to a call and to the accepted messages. */
  lemma StepOfCall(w: World, m: Move, id: nat)
    requires !w.log.fault && !Step(w, m).log.fault
    ensures var w' := Step(w, m);
      && (id in w'.calls <==> id in w.calls || Starts(m, id))
      && (id in w.calls && !(m.Go? && m.id == id) ==> w'.calls[id] == w.calls[id])
      && (id !in w.calls && Starts(m, id) ==>
            w'.calls[id] == if m.Send? then WantsToSend(m.msg) else if m.Close? then Closing(Storing, false) else WantsToFinish)
      && (id in w.calls && m.Go? && m.id == id ==>
            var p, p' := w.calls[id], w'.calls[id];
            && (p'.WantsToSend? || p'.Checking? || p'.Sending? ==>
                  (p.WantsToSend? || p.Checking? || p.Sending?) && p.msg == p'.msg)
            && (WasAccepted(p) ==> WasAccepted(p')))
  {
    hide GoCaller, GoWriter, WasAccepted;
    if m.Go? && m.id in w.calls {
      CallerMovesAlone(w, m.id);
      CallerAddsNoCall(w, m.id);
      OwnStep(w, m.id);
    } else if m.WriterGo? {
      WriterKeepsCalls(w, m.event);
    }
  }

  lemma CallerAddsNoCall(w: World, id: nat)
    requires id in w.calls
    ensures GoCaller(w, id).calls.Keys == w.calls.Keys
  {
    hide CloseNext, CloseEffect;
    if w.calls[id].Closing? {
      CloseKeepsCallsAndLog(w, Caller(id), w.calls[id].at);
    }
  }

  lemma WriterKeepsCalls(w: World, e: Event)
    ensures GoWriter(w, e).calls == w.calls
  {
    hide CloseNext, CloseEffect;
    if w.writer.WriterCloses? {
      CloseKeepsCallsAndLog(w, Writer, w.writer.at);
    }
  }

  lemma OwnStep(w: World, id: nat)
    requires id in w.calls && !w.log.fault
    ensures var w' := GoCaller(w, id);
      id in w'.calls &&
      var p, p' := w.calls[id], w'.calls[id];
      && (p'.WantsToSend? || p'.Checking? || p'.Sending? ==> (p.WantsToSend? || p.Checking? || p.Sending?) && p.msg == p'.msg)
      && (WasAccepted(p) ==> WasAccepted(p'))
  {
    hide CloseNext, CloseEffect;
  }

  lemma CloseKeepsCallsAndLog(w: World, h: Holder, at: ClosePoint)
    ensures CloseEffect(w, h, at).calls == w.calls && CloseEffect(w, h, at).log.accepted == w.log.accepted
  {
  }

  lemma StepOfLog(w: World, m: Move)
    requires !w.log.fault && !Step(w, m).log.fault
    ensures Accepts(w, m) ==> w.calls[m.id].Sending?
    ensures Step(w, m).log.accepted == w.log.accepted + if Accepts(w, m) then [w.calls[m.id].msg] else []
  {
    hide CloseNext, CloseEffect;
    assert w.log.accepted + [] == w.log.accepted;
    if m.Go? && m.id in w.calls && w.calls[m.id].Closing? {
      CloseKeepsCallsAndLog(w, Caller(m.id), w.calls[m.id].at);
    } else if m.WriterGo? && w.writer.WriterCloses? {
      CloseKeepsCallsAndLog(w, Writer, w.writer.at);
    }
  }

  lemma CallStaysTold(w: World, moves: seq<Move>, m: Move, id: nat)
    requires !w.log.fault && !Step(w, m).log.fault && CallTold(w, moves, id)
    ensures CallTold(Step(w, m), moves + [m], id)
  {
    hide Step, StartOf;
    OneMoreMove(moves, m, id);
    StepOfCall(w, m, id);
  }

  lemma StepBooks(w: World, moves: seq<Move>, m: Move, ids: seq<nat>)
    requires !w.log.fault && !Step(w, m).log.fault && Books(w, moves, ids)
    ensures Books(Step(w, m), moves + [m], ids + Newly(w, m))
  {
    hide Step, StartOf, MessageOf, CallTold;
    var w', more := Step(w, m), ids + Newly(w, m);
    StepOfLog(w, m);
    forall id ensures CallTold(w', moves + [m], id) {
      assert CallTold(w, moves, id);
      CallStaysTold(w, moves, m, id);
    }
    forall id ensures id in w'.calls && WasAccepted(w'.calls[id]) <==> id in more {
      StepOfCall(w, m, id);
      assert id in w.calls && WasAccepted(w.calls[id]) <==> id in ids;
    }
    forall k | 0 <= k < |more| ensures w'.log.accepted[k] == MessageOf(moves + [m], more[k]) {
      assert CallTold(w, moves, more[k]);
      TellsMessage(w, moves, more[k]);
      OneMoreMove(moves, m, more[k]);
    }
    if Accepts(w, m) {
      assert m.id !in ids;
    }
  }

  lemma TellsMessage(w: World, moves: seq<Move>, id: nat)
    requires CallTold(w, moves, id) && id in w.calls
    ensures StartOf(moves, id) != []
    ensures w.calls[id].Sending? ==> MessageOf(moves, id) == w.calls[id].msg
  {
  }

  lemma {:induction false} RunBooks(w: World, before: seq<Move>, moves: seq<Move>, ids: seq<nat>)
    requires Inv(w) && Books(w, before, ids)
    ensures Books(Run(w, moves), before + moves, ids + Accepters(w, moves))
    decreases |moves|
  {
    hide Inv, Books, Step, Newly;
    if moves == [] {
      assert before + moves == before && ids + [] == ids;
    } else {
      var m := moves[0];
      var now := ids + Newly(w, m);
      StepKeeps(w, m);
      NoFault(w);
      NoFault(Step(w, m));
      StepBooks(w, before, m, ids);
      RunBooks(Step(w, m), before + [m], moves[1..], now);
      assert before + [m] + moves[1..] == before + moves;
      assert now + Accepters(Step(w, m), moves[1..]) == ids + Accepters(w, moves);
    }
  }

  lemma NoFault(w: World)
    requires Inv(w)
    ensures !w.log.fault
  {
  }

  /** In every run the accepted messages are those of the calls that were told so,
      one for each, in that order; and once the writer has ended without anybody
      having closed with a code, exactly these were written. */
  lemma AcceptedAreWritten(capacity: nat, moves: seq<Move>)
    ensures var w, ids := Run(Opened(capacity), moves), Accepters(Opened(capacity), moves);
      && NoneTwice(ids)
      && (forall id :: id in ids <==> id in w.calls && WasAccepted(w.calls[id]))
      && |w.log.accepted| == |ids|
      && (forall k :: 0 <= k < |ids| ==> w.log.accepted[k] == MessageOf(moves, ids[k]))
      && w.log.written <= w.log.accepted
      && (w.ch.writerDone && !w.log.closeRan ==> w.log.written == w.log.accepted)
  {
    hide Inv, MessageOf, Run, Accepters;
    var w0 := Opened(capacity);
    RunBooksFromStart(capacity, moves);
    WrittenInOrder(capacity, moves);
  }

  lemma RunBooksFromStart(capacity: nat, moves: seq<Move>)
    ensures Books(Run(Opened(capacity), moves), moves, Accepters(Opened(capacity), moves))
  {
    hide Inv, Accepters;
    var w0 := Opened(capacity);
    FreshKeeps(capacity, []);
    assert Run(w0, []) == w0;
    RunBooks(w0, [], moves, []);
    assert [] + moves == moves && [] + Accepters(w0, moves) == Accepters(w0, moves);
  }

  /** A send that holds the mutex is accepted if and only if fewer messages than the
      queue takes are accepted and not yet taken out; otherwise the session is
      closed as too slow. */
  lemma SendIsAcceptedExactly(capacity: nat, moves: seq<Move>, id: nat)
    requires var w := Run(Opened(capacity), moves); id in w.calls && w.calls[id].Sending?
    ensures var w := Run(Opened(capacity), moves);
      var waiting := |w.log.accepted| - |w.log.written| - |w.log.dropped| - (if w.writer.Writing? then 1 else 0);
      && Accepts(w, Go(id)) == (waiting < capacity)
      && (waiting >= capacity ==> Step(w, Go(id)).calls[id] == Closing(Storing, true))
  {
    hide Run;
    FreshKeeps(capacity, moves);
    CapacityStays(Opened(capacity), moves);
    var w := Run(Opened(capacity), moves);
    assert CallQueues(w.calls[id], w.ch.sendClosed, w.closed, w.ch.writerDone, w.lk.closeOnce);
    assert |w.log.accepted| == |w.log.written| + |w.log.dropped| + |InHand(w.writer)| + |w.ch.queue|;
  }

  lemma {:induction false} CapacityStays(w: World, moves: seq<Move>)
    ensures Run(w, moves).capacity == w.capacity
    decreases |moves|
  {
    if moves != [] {
      CapacityOfStep(w, moves[0]);
      CapacityStays(Step(w, moves[0]), moves[1..]);
    }
  }

  lemma CapacityOfStep(w: World, m: Move)
    ensures Step(w, m).capacity == w.capacity
  {
  }

  /** In every run: a call about to send finds the send channel open, and whoever is
      about to close a channel finds that one open. */
  lemma ChannelsAreOpen(capacity: nat, moves: seq<Move>, id: nat)
    ensures var w := Run(Opened(capacity), moves);
      && (id in w.calls && (w.calls[id].Sending? || w.calls[id].ClosingQueue?) ==> !w.ch.sendClosed)
      && (id in w.calls && w.calls[id].Closing? && w.calls[id].at.Stopping? ==> !w.ch.stopClosed)
      && (w.writer.WriterCloses? && w.writer.at.Stopping? ==> !w.ch.stopClosed)
      && (w.writer.Deferred? ==> !w.ch.writerDone)
  {
    hide Run;
    FreshKeeps(capacity, moves);
    var w := Run(Opened(capacity), moves);
    if id in w.calls {
      assert CallQueues(w.calls[id], w.ch.sendClosed, w.closed, w.ch.writerDone, w.lk.closeOnce);
      assert CallStops(w.calls[id], w.ch.stopClosed);
    }
  }
}
