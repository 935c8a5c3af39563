/** A session as an object whose methods run to completion one at a time, and
    the proof that each of them is a run of the protocol's single steps. */
module WsSessionObject {
  import opened WsSession

  // ------------------------------------------------------- calls without interruption

  /** closeWithCode as one piece; only the first one has an effect on the channels. */
  function ClosedAlone(w: World): World {
    var marked := w.(closed := true, log := w.log.(closeRan := true));
    if !w.lk.closeOnce.Fresh? then marked
    else marked.(
      ch := w.ch.(stopClosed := true),
      log := marked.log.(hangUps := w.log.hangUps + 1, fault := w.log.fault || w.ch.stopClosed),
      lk := w.lk.(closeOnce := Spent))
  }

  function SentAlone(w: World, id: nat, msg: Envelope): World {
    if w.closed then At(w, id, Returned(SessionClosed))
    else if w.ch.sendClosed then At(w.(log := w.log.(fault := true)), id, Returned(Accepted))
    else if |w.ch.queue| < w.capacity then
      At(w.(ch := w.ch.(queue := w.ch.queue + [msg]), log := w.log.(accepted := w.log.accepted + [msg])),
         id, Returned(Accepted))
    else At(ClosedAlone(w), id, Returned(SlowConsumer))
  }

  /** A finish up to its wait for the writer. */
  function FinishBegun(w: World, id: nat): World {
    if w.lk.finishOnce.Spent? then At(w, id, Returned(NoError))
    else At(w.(closed := true, lk := w.lk.(finishOnce := Busy(Caller(id))),
               ch := w.ch.(sendClosed := w.ch.sendClosed || !w.closed),
               log := w.log.(fault := w.log.fault || (!w.closed && w.ch.sendClosed))), id, AwaitsWriter)
  }

  /** A finish from its wait on; while the writer works it stays there. */
  function FinishEnded(w: World, id: nat): World {
    if !w.ch.writerDone then w
    else At(w.(log := w.log.(hangUps := w.log.hangUps + (if w.lk.closeOnce.Fresh? then 1 else 0)),
               lk := w.lk.(closeOnce := Spent, finishOnce := Spent)), id, Returned(NoError))
  }

  function Alone(w: World, id: nat, count: nat): World
    decreases count
  {
    if count == 0 then w else Alone(Step(w, Go(id)), id, count - 1)
  }

  /** A world that one call reaches by itself. */
  ghost predicate Reaches(w: World, id: nat, goal: World) {
    exists count: nat :: Alone(w, id, count) == goal
  }

  lemma ReachesByOne(w: World, id: nat, goal: World)
    requires Reaches(Step(w, Go(id)), id, goal)
    ensures Reaches(w, id, goal)
  {
    var count: nat :| Alone(Step(w, Go(id)), id, count) == goal;
    assert Alone(w, id, count + 1) == goal;
  }

  lemma ReachesItself(w: World, id: nat)
    ensures Reaches(w, id, w)
  {
    assert Alone(w, id, 0) == w;
  }

  lemma AtTwice(w: World, id: nat, p: Phase, q: Phase)
    ensures At(At(w, id, p), id, q) == At(w, id, q)
  {
    assert w.calls[id := p][id := q] == w.calls[id := q];
  }

  /** One step of a call that is at phase p and goes on to phase q. */
  lemma Hop(w: World, next: World, id: nat, p: Phase, q: Phase, goal: World)
    requires Step(At(w, id, p), Go(id)) == At(next.(calls := At(w, id, p).calls), id, q)
    requires next.calls == w.calls
    requires Reaches(At(next, id, q), id, goal)
    ensures Reaches(At(w, id, p), id, goal)
  {
    hide Step, Reaches;
    AtTwice(w, id, p, q);
    ReachesByOne(At(w, id, p), id, goal);
  }

  /** The body of the once, for the call that is let in. */
  lemma BodyIsARun(w1: World, id: nat, sending: bool, goal: World)
    requires w1.lk.closeOnce.Fresh? && w1.closed && w1.log.closeRan
    requires goal == At(ClosedAlone(w1), id, AfterClose(Back, sending))
    ensures Reaches(At(w1, id, Closing(AtOnce, sending)), id, goal)
  {
    hide Reaches;
    ReachesItself(goal, id);
    var w2 := w1.(lk := w1.lk.(closeOnce := Busy(Caller(id))));
    var w3 := w2.(ch := w1.ch.(stopClosed := true), log := w1.log.(fault := w1.log.fault || w1.ch.stopClosed));
    Hop(w3, ClosedAlone(w1), id, Closing(HangingUp, sending), AfterClose(Back, sending), goal);
    Hop(w2, w3, id, Closing(Stopping, sending), Closing(HangingUp, sending), goal);
    Hop(w1, w2, id, Closing(AtOnce, sending), Closing(Stopping, sending), goal);
  }

  lemma CloseIsARun(w: World, id: nat, sending: bool)
    requires !w.lk.closeOnce.Busy?
    ensures Reaches(At(w, id, Closing(Storing, sending)), id, At(ClosedAlone(w), id, AfterClose(Back, sending)))
  {
    hide Reaches;
    var goal := At(ClosedAlone(w), id, AfterClose(Back, sending));
    var w1 := w.(closed := true, log := w.log.(closeRan := true));
    if w.lk.closeOnce.Fresh? {
      BodyIsARun(w1, id, sending, goal);
    } else {
      ReachesItself(goal, id);
      Hop(w1, w1, id, Closing(AtOnce, sending), AfterClose(Back, sending), goal);
    }
    Hop(w, w1, id, Closing(Storing, sending), Closing(AtOnce, sending), goal);
  }

  lemma ReachesThen(w: World, id: nat, mid: World, goal: World)
    requires Reaches(w, id, mid) && Reaches(mid, id, goal)
    ensures Reaches(w, id, goal)
  {
    var count: nat :| Alone(w, id, count) == mid;
    AloneThen(w, id, count, mid, goal);
  }

  lemma {:induction false} AloneThen(w: World, id: nat, count: nat, mid: World, goal: World)
    requires Alone(w, id, count) == mid && Reaches(mid, id, goal)
    ensures Reaches(w, id, goal)
    decreases count
  {
    if count > 0 {
      AloneThen(Step(w, Go(id)), id, count - 1, mid, goal);
      ReachesByOne(w, id, goal);
    }
  }

  /** A send that nobody interrupts. */
  lemma SendIsARun(w: World, id: nat, msg: Envelope)
    requires w.lk.sendMu.Fresh? && !w.lk.closeOnce.Busy?
    ensures Reaches(At(w, id, WantsToSend(msg)), id, SentAlone(w, id, msg))
  {
    hide Reaches, ClosedAlone;
    var goal := SentAlone(w, id, msg);
    var held := w.(lk := w.lk.(sendMu := Busy(Caller(id))));
    ReachesItself(goal, id);
    if w.closed {
      Hop(held, w, id, SendUnlocks(SessionClosed), Returned(SessionClosed), goal);
      Hop(held, held, id, Checking(msg), SendUnlocks(SessionClosed), goal);
    } else {
      if w.ch.sendClosed {
        var bad := held.(log := w.log.(fault := true));
        Hop(bad, w.(log := w.log.(fault := true)), id, SendUnlocks(Accepted), Returned(Accepted), goal);
        Hop(held, bad, id, Sending(msg), SendUnlocks(Accepted), goal);
      } else if |w.ch.queue| < w.capacity {
        var put := held.(ch := w.ch.(queue := w.ch.queue + [msg]), log := w.log.(accepted := w.log.accepted + [msg]));
        var free := put.(lk := w.lk);
        Hop(put, free, id, SendUnlocks(Accepted), Returned(Accepted), goal);
        Hop(held, put, id, Sending(msg), SendUnlocks(Accepted), goal);
      } else {
        SlowSendIsARun(w, held, id, msg);
      }
      Hop(held, held, id, Checking(msg), Sending(msg), goal);
    }
    Hop(w, held, id, WantsToSend(msg), Checking(msg), goal);
  }

  lemma SlowSendIsARun(w: World, held: World, id: nat, msg: Envelope)
    requires w.lk.sendMu.Fresh? && !w.lk.closeOnce.Busy? && held == w.(lk := w.lk.(sendMu := Busy(Caller(id))))
    requires !w.closed && !w.ch.sendClosed && |w.ch.queue| >= w.capacity
    ensures Reaches(At(held, id, Sending(msg)), id, SentAlone(w, id, msg))
  {
    hide Reaches;
    var goal := SentAlone(w, id, msg);
    ReachesItself(goal, id);
    Hop(ClosedAlone(held), ClosedAlone(w), id, SendUnlocks(SlowConsumer), Returned(SlowConsumer), goal);
    CloseIsARun(held, id, true);
    ReachesThen(At(held, id, Closing(Storing, true)), id, At(ClosedAlone(held), id, SendUnlocks(SlowConsumer)), goal);
    Hop(held, held, id, Sending(msg), Closing(Storing, true), goal);
  }

  lemma SwapIsARun(w: World, w2: World, w4: World, id: nat, goal: World)
    requires w2 == w.(lk := w2.lk)
    requires w4 == w2.(closed := true, ch := w.ch.(sendClosed := w.ch.sendClosed || !w.closed),
                       log := w.log.(fault := w.log.fault || (!w.closed && w.ch.sendClosed)))
    requires Reaches(At(w4, id, FinishUnlocks), id, goal)
    ensures Reaches(At(w2, id, Swapping), id, goal)
  {
    hide Reaches;
    var w3 := w2.(closed := true);
    if w.closed {
      Hop(w2, w3, id, Swapping, FinishUnlocks, goal);
    } else {
      Hop(w3, w4, id, ClosingQueue, FinishUnlocks, goal);
      Hop(w2, w3, id, Swapping, ClosingQueue, goal);
    }
  }

  lemma FinishBegunIsARun(w: World, id: nat)
    requires w.lk.sendMu.Fresh? && !w.lk.finishOnce.Busy?
    ensures Reaches(At(w, id, WantsToFinish), id, FinishBegun(w, id))
  {
    hide Reaches;
    var goal := FinishBegun(w, id);
    ReachesItself(goal, id);
    if w.lk.finishOnce.Spent? {
      Hop(w, w, id, WantsToFinish, Returned(NoError), goal);
    } else {
      var w1 := w.(lk := w.lk.(finishOnce := Busy(Caller(id))));
      var w2 := w1.(lk := w1.lk.(sendMu := Busy(Caller(id))));
      var w3 := w2.(closed := true);
      var w4 := w3.(ch := w.ch.(sendClosed := w.ch.sendClosed || !w.closed),
                    log := w.log.(fault := w.log.fault || (!w.closed && w.ch.sendClosed)));
      Hop(w4, w4.(lk := w1.lk), id, FinishUnlocks, AwaitsWriter, goal);
      SwapIsARun(w, w2, w4, id, goal);
      Hop(w1, w2, id, FinishLocks, Swapping, goal);
      Hop(w, w1, id, WantsToFinish, FinishLocks, goal);
    }
  }

  lemma FinishEndedIsARun(w: World, id: nat)
    requires !w.lk.closeOnce.Busy?
    ensures Reaches(At(w, id, AwaitsWriter), id, FinishEnded(At(w, id, AwaitsWriter), id))
  {
    hide Reaches;
    var goal := FinishEnded(At(w, id, AwaitsWriter), id);
    ReachesItself(goal, id);
    if w.ch.writerDone {
      AtTwice(w, id, AwaitsWriter, Returned(NoError));
      HangsUpIsARun(w, id, goal);
      Hop(w, w, id, AwaitsWriter, FinishAtOnce, goal);
    }
  }

  lemma HangsUpIsARun(w: World, id: nat, goal: World)
    requires !w.lk.closeOnce.Busy?
    requires goal == At(w.(log := w.log.(hangUps := w.log.hangUps + (if w.lk.closeOnce.Fresh? then 1 else 0)),
                           lk := w.lk.(closeOnce := Spent, finishOnce := Spent)), id, Returned(NoError))
    ensures Reaches(At(w, id, FinishAtOnce), id, goal)
  {
    hide Reaches;
    ReachesItself(goal, id);
    var w2 := w.(lk := w.lk.(closeOnce := Spent),
                 log := w.log.(hangUps := w.log.hangUps + (if w.lk.closeOnce.Fresh? then 1 else 0)));
    Hop(w2, w2.(lk := w2.lk.(finishOnce := Spent)), id, FinishEnds, Returned(NoError), goal);
    if w.lk.closeOnce.Fresh? {
      var w1 := w.(lk := w.lk.(closeOnce := Busy(Caller(id))));
      Hop(w1, w2, id, FinishHangsUp, FinishEnds, goal);
      Hop(w, w1, id, FinishAtOnce, FinishHangsUp, goal);
    } else {
      Hop(w, w2, id, FinishAtOnce, FinishEnds, goal);
    }
  }

  // --------------------------------------------------------------------- the writer

  function WriterRuns(w: World, events: seq<Event>): World
    decreases |events|
  {
    if events == [] then w else WriterRuns(GoWriter(w, events[0]), events[1..])
  }

  /** One turn of the writer's loop; a write that fails, or panics
      and is recovered from, closes the session and ends it. */
  function Turned(w: World, e: Event): World {
    var next := GoWriter(w, e);
    if w.writer.Writing? && next.writer.WriterCloses? then ClosedAlone(next).(writer := Deferred) else next
  }

  /** The loop, up to the event at which it is left or starts waiting. */
  function Looped(w: World, events: seq<Event>): World
    decreases |events|
  {
    if w.writer.Deferred? then w.(ch := w.ch.(writerDone := true), writer := Done)
    else if events == [] then w
    else Looped(Turned(w, events[0]), events[1..])
  }

  lemma TurnIsARun(w: World, e: Event)
    requires !w.lk.closeOnce.Busy? && w.writer.Writing?
    ensures Turned(w, e) == WriterRuns(w, [e]) ||
            Turned(w, e) == WriterRuns(w, [e, Onwards, Onwards]) ||
            Turned(w, e) == WriterRuns(w, [e, Onwards, Onwards, Onwards, Onwards])
  {
    var rest := [Onwards, Onwards, Onwards, Onwards];
    var w1 := GoWriter(w, e);
    assert WriterRuns(w, [e]) == WriterRuns(w1, []);
    if w1.writer.WriterCloses? {
      var w2 := GoWriter(w1, Onwards);
      var w3 := GoWriter(w2, Onwards);
      assert ([e] + rest)[1..] == rest && rest[1..] == [Onwards, Onwards, Onwards];
      if w.lk.closeOnce.Fresh? {
        var w4 := GoWriter(w3, Onwards);
        assert WriterRuns(w2, rest[1..]) == WriterRuns(w3, rest[2..]) == WriterRuns(w4, rest[3..]);
        assert WriterRuns(w4, rest[3..]) == WriterRuns(GoWriter(w4, Onwards), []);
        assert Turned(w, e) == WriterRuns(w, [e] + rest);
      } else {
        assert WriterRuns(w, [e, Onwards, Onwards]) == WriterRuns(w1, [Onwards, Onwards]);
        assert WriterRuns(w1, [Onwards, Onwards]) == WriterRuns(w2, [Onwards]) == WriterRuns(w3, []);
      }
    }
  }

  /** A write that fails or panics ends the writer and the session: its message is
      dropped, what waits stays unwritten, and the connection is hung up. */
  lemma FailedWriteEnds(w: World, e: Event)
    requires w.writer.Writing? && !w.lk.closeOnce.Busy? && (e.WriteFails? || e.WritePanics?)
    ensures var after := Looped(w, [e]);
      && after.closed && after.writer.Done? && after.ch.writerDone && after.lk.closeOnce.Spent?
      && after.log.closeRan && after.log.written == w.log.written && after.log.dropped == [w.writer.msg]
      && (w.lk.closeOnce.Fresh? ==> after.ch.stopClosed && after.log.hangUps == w.log.hangUps + 1)
      && after.ch.queue == w.ch.queue && after.log.accepted == w.log.accepted
  {
    var rest: seq<Event> := [];
    assert [e][1..] == rest;
    assert Looped(w, [e]) == Looped(Turned(w, e), rest);
  }

  /** The loop is a run of the writer's steps, whatever events it meets. */
  lemma {:induction false} LoopIsARun(w: World, events: seq<Event>)
    requires !w.lk.closeOnce.Busy? && !w.writer.WriterCloses? && !w.writer.Done? && !w.ch.writerDone
    ensures exists steps :: WriterRuns(w, steps) == Looped(w, events)
    decreases |events|
  {
    hide Turned, GoWriter;
    if w.writer.Deferred? {
      LeavingIsAStep(w);
      assert WriterRuns(w, [Onwards]) == WriterRuns(GoWriter(w, Onwards), [Onwards][1..]);
      assert WriterRuns(w, [Onwards]) == Looped(w, events);
    } else if events == [] {
      assert WriterRuns(w, []) == Looped(w, events);
    } else {
      var e := events[0];
      var steps := TurnSteps(w, e);
      LoopIsARun(Turned(w, e), events[1..]);
      var more :| WriterRuns(Turned(w, e), more) == Looped(Turned(w, e), events[1..]);
      WriterRunsOn(w, steps, more);
    }
  }

  lemma LeavingIsAStep(w: World)
    requires w.writer.Deferred? && !w.ch.writerDone
    ensures GoWriter(w, Onwards) == w.(ch := w.ch.(writerDone := true), writer := Done)
  {
  }

  lemma TurnSteps(w: World, e: Event) returns (steps: seq<Event>)
    requires !w.lk.closeOnce.Busy? && (w.writer.Selecting? || w.writer.Writing?) && !w.ch.writerDone
    ensures WriterRuns(w, steps) == Turned(w, e)
    ensures var w' := Turned(w, e);
      !w'.lk.closeOnce.Busy? && !w'.writer.WriterCloses? && !w'.writer.Done? && !w'.ch.writerDone
  {
    var none: seq<Event> := [];
    assert [e][1..] == none;
    if w.writer.Writing? {
      TurnIsARun(w, e);
      if Turned(w, e) == WriterRuns(w, [e]) { steps := [e]; }
      else if Turned(w, e) == WriterRuns(w, [e, Onwards, Onwards]) { steps := [e, Onwards, Onwards]; }
      else { steps := [e, Onwards, Onwards, Onwards, Onwards]; }
    } else {
      steps := [e];
      assert WriterRuns(w, [e]) == WriterRuns(GoWriter(w, e), none);
    }
  }

  lemma {:induction false} WriterRunsOn(w: World, a: seq<Event>, b: seq<Event>)
    ensures WriterRuns(w, a + b) == WriterRuns(WriterRuns(w, a), b)
    decreases |a|
  {
    hide GoWriter;
    if a == [] {
      assert a + b == b;
    } else {
      WriterRunsOn(GoWriter(w, a[0]), a[1..], b);
      assert (a + b)[1..] == a[1..] + b;
    }
  }

  function DrainEvents(count: nat): seq<Event> {
    if count == 0 then [SeesQueue] else [SeesQueue, WriteWorks] + DrainEvents(count - 1)
  }

  /** With the send channel closed and no failing write, the writer writes all
      that is queued, in order, and ends. */
  lemma {:induction false} DrainWritesAll(w: World)
    requires w.writer.Selecting? && w.ch.sendClosed
    ensures var after := Looped(w, DrainEvents(|w.ch.queue|));
      && after.ch.writerDone && after.ch.queue == []
      && after.log.written == w.log.written + w.ch.queue
    decreases |w.ch.queue|
  {
    var events := DrainEvents(|w.ch.queue|);
    if w.ch.queue == [] {
      assert Looped(w, events) == Looped(Turned(w, SeesQueue), []);
    } else {
      var rest := DrainEvents(|w.ch.queue| - 1);
      assert events[1..] == [WriteWorks] + rest && events[1..][1..] == rest;
      var w1 := Turned(w, SeesQueue);
      var w2 := Turned(w1, WriteWorks);
      assert Looped(w, events) == Looped(w1, events[1..]) == Looped(w2, rest);
      DrainWritesAll(w2);
      assert w.ch.queue == [w.ch.queue[0]] + w.ch.queue[1..];
    }
  }

  // --------------------------------------------------------------------- the session

  /** The fields of a session; the mutex is free between calls. */
  class Session {
    const queueSize: nat
    var sendCh: seq<Envelope>
    var sendClosed: bool
    var stopClosed: bool
    var writerDone: bool
    var closed: bool
    var closeOnce: bool
    var finishOnce: Once
    ghost var log: Log

    constructor (size: nat)
      ensures View(Selecting, map[]) == Opened(size)
    {
      queueSize := size;
      sendCh, sendClosed, stopClosed, writerDone := [], false, false, false;
      closed, closeOnce, finishOnce := false, false, Fresh;
      log := Log([], [], [], 0, false, false);
    }

    ghost function View(writer: WriterPhase, calls: map<nat, Phase>): World
      reads this
    {
      World(queueSize, closed, Chans(sendCh, sendClosed, stopClosed, writerDone),
            Locks(Fresh, if closeOnce then Spent else Fresh, finishOnce), log, writer, calls)
    }

    method CloseWithCode(ghost writer: WriterPhase, ghost calls: map<nat, Phase>)
      modifies this
      ensures View(writer, calls) == ClosedAlone(old(View(writer, calls)))
    {
      closed := true;
      log := log.(closeRan := true);
      if !closeOnce {
        log := log.(fault := log.fault || stopClosed, hangUps := log.hangUps + 1);
        stopClosed := true;
        closeOnce := true;
      }
    }

    method Send(msg: Envelope, id: nat, ghost writer: WriterPhase, ghost calls: map<nat, Phase>)
      returns (outcome: Outcome)
      modifies this
      ensures View(writer, calls[id := Returned(outcome)]) == SentAlone(old(View(writer, calls)), id, msg)
    {
      if closed {
        return SessionClosed;
      }
      if sendClosed {
        log := log.(fault := true);
        return Accepted;
      }
      if |sendCh| < queueSize {
        sendCh := sendCh + [msg];
        log := log.(accepted := log.accepted + [msg]);
        return Accepted;
      }
      CloseWithCode(writer, calls);
      return SlowConsumer;
    }

    /** One turn of the writer's loop. */
    method WriteTurn(e: Event, inHand: WriterPhase, ghost calls: map<nat, Phase>) returns (next: WriterPhase)
      requires inHand.Selecting? || inHand.Writing?
      modifies this
      ensures next.Selecting? || next.Writing? || next.Deferred?
      ensures View(next, calls) == Turned(old(View(inHand, calls)), e)
    {
      next := inHand;
      if inHand.Writing? {
        if e == WriteWorks {
          log := log.(written := log.written + [inHand.msg]);
          next := Selecting;
        } else if e == WriteFails || e == WritePanics {
          log := log.(dropped := [inHand.msg]);
          CloseWithCode(WriterCloses(Storing), calls);
          next := Deferred;
        }
      } else if e == SeesStop && stopClosed {
        next := Deferred;
      } else if e == SeesQueue && sendCh != [] {
        next := Writing(sendCh[0]);
        sendCh := sendCh[1..];
      } else if e == SeesQueue && sendClosed {
        next := Deferred;
      }
    }

    /** The writer's loop, for the events it meets before it ends or waits. */
    method WriteLoop(events: seq<Event>, ghost calls: map<nat, Phase>) returns (writer: WriterPhase)
      modifies this
      ensures View(writer, calls) == Looped(old(View(Selecting, calls)), events)
    {
      ghost var start := View(Selecting, calls);
      writer := Selecting;
      var k := 0;
      while k < |events| && !writer.Deferred?
        invariant 0 <= k <= |events|
        invariant writer.Selecting? || writer.Writing? || writer.Deferred?
        invariant Looped(View(writer, calls), events[k..]) == Looped(start, events)
        decreases |events| - k
        modifies this
      {
        assert events[k..][0] == events[k] && events[k..][1..] == events[k + 1..];
        writer := WriteTurn(events[k], writer, calls);
        k := k + 1;
      }
      if writer.Deferred? {
        writerDone := true;
        writer := Done;
      }
    }

    /** The part of a finish before its wait. */
    method BeginFinish(id: nat, ghost calls: map<nat, Phase>)
      requires finishOnce.Fresh?
      modifies this
      ensures View(Selecting, calls[id := AwaitsWriter]) == FinishBegun(old(View(Selecting, calls)), id)
      ensures finishOnce == Busy(Caller(id))
    {
      finishOnce := Busy(Caller(id));
      if !closed {
        log := log.(fault := log.fault || sendClosed);
        sendClosed := true;
      }
      closed := true;
    }

    /** The part of a finish after its wait; it is not reached while the writer works. */
    method EndFinish(id: nat, ghost writer: WriterPhase, ghost calls: map<nat, Phase>) returns (phase: Phase)
      requires finishOnce == Busy(Caller(id))
      modifies this
      ensures View(writer, calls[id := phase]) == FinishEnded(old(View(writer, calls[id := AwaitsWriter])), id)
    {
      AtTwice(View(writer, calls), id, AwaitsWriter, Returned(NoError));
      if !writerDone {
        return AwaitsWriter;
      }
      if !closeOnce {
        log := log.(hangUps := log.hangUps + 1);
        closeOnce := true;
      }
      finishOnce := Spent;
      return Returned(NoError);
    }

    /** A finish; while it waits, the writer goes on with the events given. */
    method Finish(id: nat, events: seq<Event>, ghost calls: map<nat, Phase>)
      returns (phase: Phase, writer: WriterPhase)
      requires !finishOnce.Busy?
      modifies this
      ensures old(finishOnce.Spent?) ==>
        phase == Returned(NoError) && View(Selecting, calls) == old(View(Selecting, calls))
      ensures !old(finishOnce.Spent?) ==>
        View(writer, calls[id := phase]) ==
          FinishEnded(Looped(FinishBegun(old(View(Selecting, calls)), id), events), id)
    {
      hide Looped, FinishEnded, FinishBegun;
      if finishOnce.Spent? {
        return Returned(NoError), Selecting;
      }
      BeginFinish(id, calls);
      LoopKeepsOnce(View(Selecting, calls[id := AwaitsWriter]), events);
      writer := WriteLoop(events, calls[id := AwaitsWriter]);
      phase := EndFinish(id, writer, calls);
    }
  }

  lemma {:induction false} LoopKeepsOnce(w: World, events: seq<Event>)
    ensures Looped(w, events).lk.finishOnce == w.lk.finishOnce
    decreases |events|
  {
    if !w.writer.Deferred? && events != [] {
      LoopKeepsOnce(Turned(w, events[0]), events[1..]);
    }
  }
}
