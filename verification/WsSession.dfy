/** Shutting down a websocket session.

    Any number of callers send, close or finish while one writer drains the
    queue.  Each call moves through phases, one shared-memory access or channel
    operation at a time, so a run is any interleaving.  `fault` records what Go
    would panic on: a send on a closed channel or a second close. */
module WsSession {

  type Envelope = string

  /** Inside closeWithCode: before the store, at the once, in its body, back. */
  datatype ClosePoint = Storing | AtOnce | Stopping | HangingUp | Back

  datatype Holder = Writer | Caller(id: nat)

  datatype Once = Fresh | Busy(holder: Holder) | Spent

  datatype Outcome = Accepted | SessionClosed | SlowConsumer | NoError

  datatype Phase =
    | WantsToSend(msg: Envelope)
    | Checking(msg: Envelope)
    | Sending(msg: Envelope)
    | SendUnlocks(outcome: Outcome)
    | Closing(at: ClosePoint, sending: bool)
    | WantsToFinish
    | FinishLocks
    | Swapping
    | ClosingQueue
    | FinishUnlocks
    | AwaitsWriter
    | FinishAtOnce
    | FinishHangsUp
    | FinishEnds
    | Returned(outcome: Outcome)

  datatype WriterPhase =
    | Selecting
    | Writing(msg: Envelope)
    | WriterCloses(at: ClosePoint)
    | Deferred
    | Done

  datatype Chans = Chans(queue: seq<Envelope>, sendClosed: bool, stopClosed: bool, writerDone: bool)

  datatype Locks = Locks(sendMu: Once, closeOnce: Once, finishOnce: Once)

  /** What happened so far. */
  datatype Log = Log(
    accepted: seq<Envelope>, written: seq<Envelope>, dropped: seq<Envelope>,
    hangUps: nat, closeRan: bool, fault: bool)

  datatype World = World(
    capacity: nat, closed: bool, ch: Chans, lk: Locks, log: Log,
    writer: WriterPhase, calls: map<nat, Phase>)

  /** What the writer meets: a closed stop channel, something on the send
      channel, a write that works, fails or panics, or just its next statement. */
  datatype Event = SeesStop | SeesQueue | WriteWorks | WriteFails | WritePanics | Onwards

  datatype Move =
    | Send(id: nat, msg: Envelope)
    | Close(id: nat)
    | Finish(id: nat)
    | Go(id: nat)
    | WriterGo(event: Event)

  function Opened(capacity: nat): World {
    World(capacity, false, Chans([], false, false, false), Locks(Fresh, Fresh, Fresh),
          Log([], [], [], 0, false, false), Selecting, map[])
  }

  function At(w: World, id: nat, p: Phase): World {
    w.(calls := w.calls[id := p])
  }

  // ------------------------------------------------------------------ the steps

  /** One step inside closeWithCode; at the once a caller may have to wait. */
  function CloseNext(w: World, at: ClosePoint): ClosePoint {
    match at
    case Storing => AtOnce
    case AtOnce => (match w.lk.closeOnce case Fresh => Stopping case Busy(_) => AtOnce case Spent => Back)
    case Stopping => HangingUp
    case HangingUp => Back
    case Back => Back
  }

  function CloseEffect(w: World, h: Holder, at: ClosePoint): World {
    match at
    case Storing => w.(closed := true, log := w.log.(closeRan := true))
    case AtOnce => if w.lk.closeOnce.Fresh? then w.(lk := w.lk.(closeOnce := Busy(h))) else w
    case Stopping => w.(ch := w.ch.(stopClosed := true), log := w.log.(fault := w.log.fault || w.ch.stopClosed))
    case HangingUp => w.(log := w.log.(hangUps := w.log.hangUps + 1), lk := w.lk.(closeOnce := Spent))
    case Back => w
  }

  /** The non-blocking send, under the mutex. */
  function TrySend(w: World, id: nat, msg: Envelope): World {
    if w.ch.sendClosed then At(w.(log := w.log.(fault := true)), id, SendUnlocks(Accepted))
    else if |w.ch.queue| < w.capacity then
      At(w.(ch := w.ch.(queue := w.ch.queue + [msg]), log := w.log.(accepted := w.log.accepted + [msg])), id, SendUnlocks(Accepted))
    else At(w, id, Closing(Storing, true))
  }

  function GoSend(w: World, id: nat): World
    requires id in w.calls
  {
    match w.calls[id]
    case WantsToSend(m) => if w.lk.sendMu.Busy? then w else At(w.(lk := w.lk.(sendMu := Busy(Caller(id)))), id, Checking(m))
    case Checking(m) => At(w, id, if w.closed then SendUnlocks(SessionClosed) else Sending(m))
    case Sending(m) => TrySend(w, id, m)
    case SendUnlocks(o) => At(w.(lk := w.lk.(sendMu := Fresh)), id, Returned(o))
    case _ => w
  }

  /** A sender that found the queue full still holds the mutex when it is back. */
  function AfterClose(next: ClosePoint, sending: bool): Phase {
    if !next.Back? then Closing(next, sending)
    else if sending then SendUnlocks(SlowConsumer)
    else Returned(NoError)
  }

  function GoClosing(w: World, id: nat): World
    requires id in w.calls && w.calls[id].Closing?
  {
    var p := w.calls[id];
    At(CloseEffect(w, Caller(id), p.at), id, AfterClose(CloseNext(w, p.at), p.sending))
  }

  function GoFinish(w: World, id: nat): World
    requires id in w.calls
  {
    match w.calls[id]
    case WantsToFinish =>
      (match w.lk.finishOnce
       case Fresh => At(w.(lk := w.lk.(finishOnce := Busy(Caller(id)))), id, FinishLocks)
       case Busy(_) => w
       case Spent => At(w, id, Returned(NoError)))
    case FinishLocks => if w.lk.sendMu.Busy? then w else At(w.(lk := w.lk.(sendMu := Busy(Caller(id)))), id, Swapping)
    case Swapping => At(w.(closed := true), id, if w.closed then FinishUnlocks else ClosingQueue)
    case ClosingQueue => At(w.(ch := w.ch.(sendClosed := true), log := w.log.(fault := w.log.fault || w.ch.sendClosed)), id, FinishUnlocks)
    case FinishUnlocks => At(w.(lk := w.lk.(sendMu := Fresh)), id, AwaitsWriter)
    case AwaitsWriter => if w.ch.writerDone then At(w, id, FinishAtOnce) else w
    case FinishAtOnce =>
      (match w.lk.closeOnce
       case Fresh => At(w.(lk := w.lk.(closeOnce := Busy(Caller(id)))), id, FinishHangsUp)
       case Busy(_) => w
       case Spent => At(w, id, FinishEnds))
    case FinishHangsUp => At(w.(log := w.log.(hangUps := w.log.hangUps + 1), lk := w.lk.(closeOnce := Spent)), id, FinishEnds)
    case FinishEnds => At(w.(lk := w.lk.(finishOnce := Spent)), id, Returned(NoError))
    case _ => w
  }

  predicate InSend(p: Phase) {
    p.WantsToSend? || p.Checking? || p.Sending? || p.SendUnlocks?
  }

  function GoCaller(w: World, id: nat): World
    requires id in w.calls
  {
    var p := w.calls[id];
    if InSend(p) then GoSend(w, id)
    else if p.Closing? then GoClosing(w, id)
    else GoFinish(w, id)
  }

  function GoWriter(w: World, e: Event): World {
    match w.writer
    case Selecting =>
      if e.SeesStop? && w.ch.stopClosed then w.(writer := Deferred)
      else if e.SeesQueue? && w.ch.queue != [] then w.(ch := w.ch.(queue := w.ch.queue[1..]), writer := Writing(w.ch.queue[0]))
      else if e.SeesQueue? && w.ch.sendClosed then w.(writer := Deferred)
      else w
    case Writing(m) =>
      if e.WriteWorks? then w.(log := w.log.(written := w.log.written + [m]), writer := Selecting)
      else if e.WriteFails? || e.WritePanics? then w.(log := w.log.(dropped := [m]), writer := WriterCloses(Storing))
      else w
    case WriterCloses(at) =>
      CloseEffect(w, Writer, at).(writer :=
        if CloseNext(w, at).Back? then Deferred else WriterCloses(CloseNext(w, at)))
    case Deferred => w.(ch := w.ch.(writerDone := true), log := w.log.(fault := w.log.fault || w.ch.writerDone), writer := Done)
    case Done => w
  }

  function Start(w: World, id: nat, p: Phase): World {
    if id in w.calls then w else At(w, id, p)
  }

  function Step(w: World, m: Move): World {
    match m
    case Send(id, msg) => Start(w, id, WantsToSend(msg))
    case Close(id) => Start(w, id, Closing(Storing, false))
    case Finish(id) => Start(w, id, WantsToFinish)
    case Go(id) => if id in w.calls then GoCaller(w, id) else w
    case WriterGo(e) => GoWriter(w, e)
  }

  function Run(w: World, moves: seq<Move>): World
    decreases |moves|
  {
    if moves == [] then w else Run(Step(w, moves[0]), moves[1..])
  }

  // -------------------------------------------------------------- the invariant

  predicate HasMutex(p: Phase) {
    p.Checking? || p.Sending? || p.SendUnlocks? || (p.Closing? && p.sending) ||
    p.Swapping? || p.ClosingQueue? || p.FinishUnlocks?
  }

  predicate InCloseBody(p: Phase) {
    (p.Closing? && (p.at.Stopping? || p.at.HangingUp?)) || p.FinishHangsUp?
  }

  predicate InFinish(p: Phase) {
    p.FinishLocks? || p.Swapping? || p.ClosingQueue? || p.FinishUnlocks? || p.AwaitsWriter? ||
    p.FinishAtOnce? || p.FinishHangsUp? || p.FinishEnds?
  }

  predicate CallGuards(mutex: Once, closeOnce: Once, finishOnce: Once, id: nat, p: Phase) {
    && (HasMutex(p) <==> mutex == Busy(Caller(id)))
    && (InCloseBody(p) <==> closeOnce == Busy(Caller(id)))
    && (InFinish(p) <==> finishOnce == Busy(Caller(id)))
    && (p.Closing? ==> p.at != Back)
  }

  predicate HeldByCall(w: World, o: Once) {
    o.Busy? && o.holder.Caller? ==> o.holder.id in w.calls
  }

  predicate WriterGuards(closeOnce: Once, p: WriterPhase) {
    && (closeOnce == Busy(Writer) <==> p.WriterCloses? && (p.at.Stopping? || p.at.HangingUp?))
    && (p.WriterCloses? ==> p.at != Back)
  }

  /** Each guard is held by exactly the call that is past it. */
  predicate Guards(w: World) {
    && !w.lk.sendMu.Spent?
    && w.lk.sendMu != Busy(Writer) && w.lk.finishOnce != Busy(Writer)
    && HeldByCall(w, w.lk.sendMu) && HeldByCall(w, w.lk.closeOnce) && HeldByCall(w, w.lk.finishOnce)
    && (forall id :: id in w.calls ==> CallGuards(w.lk.sendMu, w.lk.closeOnce, w.lk.finishOnce, id, w.calls[id]))
    && WriterGuards(w.lk.closeOnce, w.writer)
  }

  predicate ClosePointStops(at: ClosePoint, stopClosed: bool) {
    (at.Stopping? ==> !stopClosed) && (at.HangingUp? ==> stopClosed)
  }

  predicate CallStops(p: Phase, stopClosed: bool) {
    (p.Closing? ==> ClosePointStops(p.at, stopClosed)) && (p.FinishHangsUp? ==> !stopClosed)
  }

  /** The stop channel is closed, and the connection hung up, at most once. */
  predicate StopOnce(w: World) {
    && (w.lk.closeOnce.Fresh? ==> !w.ch.stopClosed)
    && (w.lk.closeOnce.Spent? ==> w.ch.stopClosed || w.ch.writerDone)
    && w.log.hangUps == (if w.lk.closeOnce.Spent? then 1 else 0)
    && (forall id :: id in w.calls ==> CallStops(w.calls[id], w.ch.stopClosed))
    && (w.writer.WriterCloses? ==> ClosePointStops(w.writer.at, w.ch.stopClosed))
  }

  predicate CallQueues(p: Phase, sendClosed: bool, closed: bool, writerDone: bool, closeOnce: Once) {
    && (p.Sending? || p.FinishLocks? || p.Swapping? || p.ClosingQueue? ==> !sendClosed)
    && (p.ClosingQueue? || p.FinishUnlocks? || p.AwaitsWriter? ==> closed)
    && (p.FinishAtOnce? || p.FinishHangsUp? || p.FinishEnds? ==> writerDone && closed)
    && (p.FinishEnds? ==> closeOnce.Spent?)
  }

  /** The send channel is closed at most once, by finish, under the mutex. */
  predicate QueueOnce(w: World) {
    && (w.ch.sendClosed ==> w.closed && !w.lk.finishOnce.Fresh?)
    && (forall id :: id in w.calls ==>
          CallQueues(w.calls[id], w.ch.sendClosed, w.closed, w.ch.writerDone, w.lk.closeOnce))
    && (w.lk.finishOnce.Spent? ==> w.ch.writerDone && w.lk.closeOnce.Spent? && w.closed)
    && (w.ch.writerDone <==> w.writer.Done?)
  }

  /** Somebody is between marking the session closed and closing a channel. */
  predicate AboutToSignal(p: Phase) {
    (p.Closing? && (p.at.AtOnce? || p.at.Stopping?)) || p.ClosingQueue?
  }

  predicate SignalPending(w: World) {
    || (exists id :: id in w.calls && AboutToSignal(w.calls[id]))
    || (w.writer.WriterCloses? && (w.writer.at.AtOnce? || w.writer.at.Stopping?))
  }

  predicate WriterWillHear(w: World) {
    w.closed ==> w.ch.sendClosed || w.ch.stopClosed || w.ch.writerDone || SignalPending(w)
  }

  function InHand(p: WriterPhase): seq<Envelope> {
    if p.Writing? then [p.msg] else []
  }

  /** Every accepted message is written, dropped by a failed write, in the
      writer's hand or still queued, in that order. */
  predicate Ordered(capacity: nat, queue: seq<Envelope>, writer: WriterPhase,
                    accepted: seq<Envelope>, written: seq<Envelope>, dropped: seq<Envelope>) {
    && accepted == written + dropped + InHand(writer) + queue
    && |queue| <= capacity
    && (dropped != [] ==> !writer.Selecting? && !writer.Writing?)
    && (writer.WriterCloses? ==> dropped != [])
  }

  predicate InOrder(w: World) {
    Ordered(w.capacity, w.ch.queue, w.writer, w.log.accepted, w.log.written, w.log.dropped)
  }

  /** A trace of closeWithCode always shows. */
  predicate CloseShows(w: World) {
    !w.log.closeRan ==>
      && !w.ch.stopClosed
      && (w.writer.Deferred? || w.writer.Done? ==> w.ch.sendClosed && w.ch.queue == [] && w.log.dropped == [])
      && (w.writer.WriterCloses? ==> w.writer.at.Storing?)
      && (forall id :: id in w.calls && w.calls[id].Closing? ==> w.calls[id].at.Storing?)
  }

  predicate Inv(w: World) {
    && !w.log.fault
    && Guards(w)
    && StopOnce(w)
    && QueueOnce(w)
    && WriterWillHear(w)
    && InOrder(w)
    && CloseShows(w)
  }

  // ------------------------------------------------------------- every step keeps it

  /** A guard is taken when free, given up when held, or left alone. */
  predicate GuardMoves(before: Once, after: Once, h: Holder) {
    after == before || (before.Fresh? && after == Busy(h)) || (before == Busy(h) && !after.Busy?)
  }

  predicate LocksMove(before: Locks, after: Locks, h: Holder) {
    && GuardMoves(before.sendMu, after.sendMu, h)
    && GuardMoves(before.closeOnce, after.closeOnce, h)
    && GuardMoves(before.finishOnce, after.finishOnce, h)
  }

  /** The other calls keep their guards when one call moves its own. */
  lemma GuardsAfter(w: World, next: World, id: nat, p: Phase)
    requires Guards(w) && next.calls == w.calls[id := p] && next.writer == w.writer && id in w.calls
    requires LocksMove(w.lk, next.lk, Caller(id)) && !next.lk.sendMu.Spent?
    requires CallGuards(next.lk.sendMu, next.lk.closeOnce, next.lk.finishOnce, id, p)
    ensures Guards(next)
  {
    forall other | other in next.calls
      ensures CallGuards(next.lk.sendMu, next.lk.closeOnce, next.lk.finishOnce, other, next.calls[other])
    {
      if other != id {
        assert CallGuards(w.lk.sendMu, w.lk.closeOnce, w.lk.finishOnce, other, w.calls[other]);
      }
    }
  }

  lemma SendKeepsGuards(w: World, id: nat)
    requires Guards(w) && id in w.calls && InSend(w.calls[id])
    ensures Guards(GoSend(w, id))
  {
    var next := GoSend(w, id);
    assert CallGuards(w.lk.sendMu, w.lk.closeOnce, w.lk.finishOnce, id, w.calls[id]);
    hide Guards, QueueOnce;
    if next != w {
      GuardsAfter(w, next, id, next.calls[id]);
    }
  }

  lemma ClosingKeepsGuards(w: World, id: nat)
    requires Guards(w) && id in w.calls && w.calls[id].Closing?
    ensures Guards(GoClosing(w, id))
  {
    var next := GoClosing(w, id);
    assert CallGuards(w.lk.sendMu, w.lk.closeOnce, w.lk.finishOnce, id, w.calls[id]);
    hide Guards, QueueOnce;
    if next != w {
      GuardsAfter(w, next, id, next.calls[id]);
    }
  }

  lemma FinishKeepsGuards(w: World, id: nat)
    requires Guards(w) && QueueOnce(w) && id in w.calls && !InSend(w.calls[id]) && !w.calls[id].Closing?
    ensures Guards(GoFinish(w, id))
  {
    var next := GoFinish(w, id);
    assert CallGuards(w.lk.sendMu, w.lk.closeOnce, w.lk.finishOnce, id, w.calls[id]);
    assert CallQueues(w.calls[id], w.ch.sendClosed, w.closed, w.ch.writerDone, w.lk.closeOnce);
    hide Guards, QueueOnce;
    if next != w {
      GuardsAfter(w, next, id, next.calls[id]);
    }
  }

  lemma SendKeepsOnce(w: World, id: nat)
    requires !w.log.fault && Guards(w) && StopOnce(w) && QueueOnce(w) && id in w.calls && InSend(w.calls[id])
    ensures var next := GoSend(w, id); !next.log.fault && StopOnce(next) && QueueOnce(next)
  {
    hide Guards;
  }

  lemma ClosingKeepsStop(w: World, id: nat)
    requires !w.log.fault && Guards(w) && StopOnce(w) && id in w.calls && w.calls[id].Closing?
    ensures var next := GoClosing(w, id); !next.log.fault && StopOnce(next)
  {
  }

  lemma ClosingKeepsQueue(w: World, id: nat)
    requires QueueOnce(w) && id in w.calls && w.calls[id].Closing?
    ensures QueueOnce(GoClosing(w, id))
  {
    var next := GoClosing(w, id);
    forall other | other in next.calls
      ensures CallQueues(next.calls[other], next.ch.sendClosed, next.closed, next.ch.writerDone, next.lk.closeOnce)
    {
      assert CallQueues(w.calls[other], w.ch.sendClosed, w.closed, w.ch.writerDone, w.lk.closeOnce);
    }
  }

  lemma FinishKeepsStop(w: World, id: nat)
    requires !w.log.fault && Guards(w) && StopOnce(w) && QueueOnce(w) && id in w.calls
    requires !InSend(w.calls[id]) && !w.calls[id].Closing?
    ensures var next := GoFinish(w, id); !next.log.fault && StopOnce(next)
  {
    assert CallGuards(w.lk.sendMu, w.lk.closeOnce, w.lk.finishOnce, id, w.calls[id]);
    assert CallQueues(w.calls[id], w.ch.sendClosed, w.closed, w.ch.writerDone, w.lk.closeOnce);
    hide Guards, QueueOnce;
  }

  lemma FinishKeepsQueue(w: World, id: nat)
    requires Guards(w) && QueueOnce(w) && id in w.calls
    requires !InSend(w.calls[id]) && !w.calls[id].Closing?
    ensures QueueOnce(GoFinish(w, id))
  {
    var next := GoFinish(w, id);
    assert CallQueues(w.calls[id], w.ch.sendClosed, w.closed, w.ch.writerDone, w.lk.closeOnce);
    forall other | other in next.calls
      ensures CallQueues(next.calls[other], next.ch.sendClosed, next.closed, next.ch.writerDone, next.lk.closeOnce)
    {
      assert CallQueues(w.calls[other], w.ch.sendClosed, w.closed, w.ch.writerDone, w.lk.closeOnce);
      assert CallGuards(w.lk.sendMu, w.lk.closeOnce, w.lk.finishOnce, other, w.calls[other]);
      assert CallGuards(w.lk.sendMu, w.lk.closeOnce, w.lk.finishOnce, id, w.calls[id]);
    }
  }

  lemma CallerKeeps(w: World, id: nat)
    requires !w.log.fault && Guards(w) && StopOnce(w) && QueueOnce(w) && id in w.calls
    ensures var next := GoCaller(w, id); !next.log.fault && Guards(next) && StopOnce(next) && QueueOnce(next)
  {
    hide GoSend, GoClosing, GoFinish, Guards, StopOnce, QueueOnce;
    if InSend(w.calls[id]) {
      SendKeepsGuards(w, id);
      SendKeepsOnce(w, id);
    } else if w.calls[id].Closing? {
      ClosingKeepsGuards(w, id);
      ClosingKeepsStop(w, id);
      ClosingKeepsQueue(w, id);
    } else {
      FinishKeepsGuards(w, id);
      FinishKeepsStop(w, id);
      FinishKeepsQueue(w, id);
    }
  }

  /** What one call does to who will signal, seen from the writer. */
  lemma CallerSignals(w: World, id: nat)
    requires StopOnce(w) && QueueOnce(w) && id in w.calls
    ensures var next := GoCaller(w, id);
      && (w.ch.sendClosed ==> next.ch.sendClosed) && (w.ch.stopClosed ==> next.ch.stopClosed)
      && next.ch.writerDone == w.ch.writerDone && next.writer == w.writer
      && (next.closed && !w.closed ==> AboutToSignal(next.calls[id]))
      && (AboutToSignal(w.calls[id]) ==>
            AboutToSignal(next.calls[id]) || next.ch.sendClosed || next.ch.stopClosed || next.ch.writerDone)
  {
    assert CallStops(w.calls[id], w.ch.stopClosed);
    hide QueueOnce;
  }

  lemma CloseKeepsCalls(w: World, h: Holder, at: ClosePoint)
    ensures CloseEffect(w, h, at).calls == w.calls
  {
  }

  lemma CallerMovesAlone(w: World, id: nat)
    requires id in w.calls
    ensures id in GoCaller(w, id).calls
    ensures forall other :: other in w.calls && other != id ==>
              other in GoCaller(w, id).calls && GoCaller(w, id).calls[other] == w.calls[other]
  {
    hide CloseEffect, CloseNext, AfterClose;
    if w.calls[id].Closing? {
      CloseKeepsCalls(w, Caller(id), w.calls[id].at);
    }
  }

  lemma CallerKeepsHearing(w: World, id: nat)
    requires StopOnce(w) && QueueOnce(w) && WriterWillHear(w) && id in w.calls
    ensures WriterWillHear(GoCaller(w, id))
  {
    hide GoCaller, StopOnce, QueueOnce, AboutToSignal;
    CallerSignals(w, id);
    CallerMovesAlone(w, id);
    var next := GoCaller(w, id);
    if other :| other in w.calls && other != id && AboutToSignal(w.calls[other]) {
      assert next.calls[other] == w.calls[other];
      assert SignalPending(next);
    }
    assert AboutToSignal(next.calls[id]) ==> SignalPending(next);
  }

  lemma SendingKeepsOrder(w: World, id: nat)
    requires QueueOnce(w) && InOrder(w) && id in w.calls && w.calls[id].Sending?
    ensures InOrder(TrySend(w, id, w.calls[id].msg))
  {
    assert CallQueues(w.calls[id], w.ch.sendClosed, w.closed, w.ch.writerDone, w.lk.closeOnce);
    hide QueueOnce;
    var done, m := w.log.written + w.log.dropped + InHand(w.writer), w.calls[id].msg;
    assert done + w.ch.queue + [m] == done + (w.ch.queue + [m]);
  }

  /** What the order of messages depends on stays as it is. */
  predicate SameMessages(w: World, next: World) {
    && next.capacity == w.capacity && next.ch.queue == w.ch.queue && next.writer == w.writer
    && next.log.accepted == w.log.accepted && next.log.written == w.log.written && next.log.dropped == w.log.dropped
  }

  lemma OthersKeepMessages(w: World, id: nat)
    requires id in w.calls
    ensures InSend(w.calls[id]) && !w.calls[id].Sending? ==> SameMessages(w, GoSend(w, id))
    ensures w.calls[id].Closing? ==> SameMessages(w, GoClosing(w, id))
    ensures !InSend(w.calls[id]) && !w.calls[id].Closing? ==> SameMessages(w, GoFinish(w, id))
  {
  }

  lemma CallerKeepsOrder(w: World, id: nat)
    requires QueueOnce(w) && InOrder(w) && id in w.calls
    ensures InOrder(GoCaller(w, id))
  {
    if w.calls[id].Sending? {
      SendingKeepsOrder(w, id);
      hide TrySend, Ordered, QueueOnce;
    } else {
      OthersKeepMessages(w, id);
      hide GoSend, GoClosing, GoFinish, Ordered, QueueOnce;
    }
  }

  lemma CallerKeepsCloseShows(w: World, id: nat)
    requires QueueOnce(w) && CloseShows(w) && id in w.calls
    ensures CloseShows(GoCaller(w, id))
  {
    assert CallQueues(w.calls[id], w.ch.sendClosed, w.closed, w.ch.writerDone, w.lk.closeOnce);
    hide QueueOnce;
  }

  lemma WriterClosingKeepsGuards(w: World, e: Event)
    requires Guards(w) && w.writer.WriterCloses?
    ensures Guards(GoWriter(w, e))
  {
    var next := GoWriter(w, e);
    forall other | other in next.calls
      ensures CallGuards(next.lk.sendMu, next.lk.closeOnce, next.lk.finishOnce, other, next.calls[other])
    {
      assert CallGuards(w.lk.sendMu, w.lk.closeOnce, w.lk.finishOnce, other, w.calls[other]);
    }
  }

  lemma WriterKeepsGuards(w: World, e: Event)
    requires Guards(w)
    ensures Guards(GoWriter(w, e))
  {
    hide CallGuards, CloseEffect, CloseNext;
    if w.writer.WriterCloses? {
      WriterClosingKeepsGuards(w, e);
    } else {
      assert GoWriter(w, e).lk == w.lk;
    }
  }

  lemma WriterClosingKeepsStop(w: World, e: Event)
    requires !w.log.fault && Guards(w) && StopOnce(w) && w.writer.WriterCloses?
    ensures var next := GoWriter(w, e); !next.log.fault && StopOnce(next)
  {
    var next := GoWriter(w, e);
    if next.ch.stopClosed != w.ch.stopClosed {
      forall other | other in next.calls
        ensures CallStops(next.calls[other], next.ch.stopClosed)
      {
        assert CallGuards(w.lk.sendMu, w.lk.closeOnce, w.lk.finishOnce, other, w.calls[other]);
        assert CallStops(w.calls[other], w.ch.stopClosed);
      }
    }
    hide Guards;
  }

  lemma WriterKeepsStop(w: World, e: Event)
    requires !w.log.fault && Guards(w) && StopOnce(w) && QueueOnce(w)
    ensures var next := GoWriter(w, e); !next.log.fault && StopOnce(next)
  {
    hide Guards, CloseEffect, CloseNext, CallStops;
    if w.writer.WriterCloses? {
      WriterClosingKeepsStop(w, e);
    }
  }

  lemma WriterKeepsQueue(w: World, e: Event)
    requires QueueOnce(w)
    ensures QueueOnce(GoWriter(w, e))
  {
  }

  lemma MessagesMoveInOrder(capacity: nat, queue: seq<Envelope>, p: WriterPhase,
                            accepted: seq<Envelope>, written: seq<Envelope>, dropped: seq<Envelope>)
    requires Ordered(capacity, queue, p, accepted, written, dropped)
    ensures p.Selecting? && queue != [] ==>
      Ordered(capacity, queue[1..], Writing(queue[0]), accepted, written, dropped)
    ensures p.Selecting? ==> Ordered(capacity, queue, Deferred, accepted, written, dropped)
    ensures p.Writing? ==>
      && Ordered(capacity, queue, Selecting, accepted, written + [p.msg], dropped)
      && Ordered(capacity, queue, WriterCloses(Storing), accepted, written, [p.msg])
    ensures p.WriterCloses? ==> forall at :: Ordered(capacity, queue, WriterCloses(at), accepted, written, dropped)
    ensures p.WriterCloses? ==> Ordered(capacity, queue, Deferred, accepted, written, dropped)
    ensures p.Deferred? ==> Ordered(capacity, queue, Done, accepted, written, dropped)
  {
    if p.Selecting? && queue != [] {
      assert queue == [queue[0]] + queue[1..];
    }
  }

  lemma CloseEffectKeepsMessages(w: World, at: ClosePoint)
    ensures SameMessages(w, CloseEffect(w, Writer, at))
  {
  }

  lemma WriterKeepsOrder(w: World, e: Event)
    requires InOrder(w)
    ensures InOrder(GoWriter(w, e))
  {
    hide Ordered, CloseEffect, CloseNext;
    MessagesMoveInOrder(w.capacity, w.ch.queue, w.writer, w.log.accepted, w.log.written, w.log.dropped);
    if w.writer.WriterCloses? {
      CloseEffectKeepsMessages(w, w.writer.at);
    }
  }

  lemma WriterKeepsCloseShows(w: World, e: Event)
    requires InOrder(w) && CloseShows(w)
    ensures CloseShows(GoWriter(w, e))
  {
  }

  lemma WriterKeepsHearing(w: World, e: Event)
    requires Inv(w)
    ensures WriterWillHear(GoWriter(w, e))
  {
    hide InOrder, CloseShows;
    var next := GoWriter(w, e);
    assert next.calls == w.calls;
  }

  lemma StartKeeps(w: World, id: nat, p: Phase)
    requires Inv(w) && id !in w.calls
    requires p.WantsToSend? || p == Closing(Storing, false) || p.WantsToFinish?
    ensures Inv(At(w, id, p))
  {
    var next := At(w, id, p);
    if exists other :: other in w.calls && AboutToSignal(w.calls[other]) {
      var other :| other in w.calls && AboutToSignal(w.calls[other]);
      assert next.calls[other] == w.calls[other];
      assert SignalPending(next);
    }
  }

  lemma StepKeeps(w: World, m: Move)
    requires Inv(w)
    ensures Inv(Step(w, m))
  {
    hide GoCaller, GoWriter, Guards, StopOnce, QueueOnce, WriterWillHear, InOrder, CloseShows;
    match m
    case Send(id, msg) => if id !in w.calls { StartKeeps(w, id, WantsToSend(msg)); }
    case Close(id) => if id !in w.calls { StartKeeps(w, id, Closing(Storing, false)); }
    case Finish(id) => if id !in w.calls { StartKeeps(w, id, WantsToFinish); }
    case Go(id) =>
      if id in w.calls {
        CallerKeeps(w, id);
        CallerKeepsHearing(w, id);
        CallerKeepsOrder(w, id);
        CallerKeepsCloseShows(w, id);
      }
    case WriterGo(e) =>
      WriterKeepsGuards(w, e);
      WriterKeepsStop(w, e);
      WriterKeepsQueue(w, e);
      WriterKeepsOrder(w, e);
      WriterKeepsCloseShows(w, e);
      WriterKeepsHearing(w, e);
  }

  lemma {:induction false} RunKeeps(w: World, moves: seq<Move>)
    requires Inv(w)
    ensures Inv(Run(w, moves))
    decreases |moves|
  {
    if moves != [] {
      StepKeeps(w, moves[0]);
      RunKeeps(Step(w, moves[0]), moves[1..]);
    }
  }

  lemma FreshKeeps(capacity: nat, moves: seq<Move>)
    ensures Inv(Run(Opened(capacity), moves))
  {
    RunKeeps(Opened(capacity), moves);
  }

  // ---------------------------------------------------------------- what is promised

  /** No interleaving sends on a closed channel or closes one twice, and the
      session hangs up at most once. */
  lemma NothingPanics(capacity: nat, moves: seq<Move>)
    ensures var w := Run(Opened(capacity), moves); !w.log.fault && w.log.hangUps <= 1
  {
    FreshKeeps(capacity, moves);
  }

  /** What was written is an initial part of what was accepted; unless
      closeWithCode ran, nothing is lost, and once the writer has ended the two
      are the same. */
  lemma WrittenInOrder(capacity: nat, moves: seq<Move>)
    ensures var w := Run(Opened(capacity), moves);
      && w.log.written <= w.log.accepted
      && (w.ch.writerDone && !w.log.closeRan ==> w.log.written == w.log.accepted)
  {
    var w := Run(Opened(capacity), moves);
    FreshKeeps(capacity, moves);
    assert w.log.accepted == w.log.written + (w.log.dropped + InHand(w.writer) + w.ch.queue);
  }

  /** When a finish has gone through, the session is closed, the writer is gone
      and the connection was hung up exactly once. */
  lemma FinishedIsFinal(capacity: nat, moves: seq<Move>)
    ensures var w := Run(Opened(capacity), moves);
      w.lk.finishOnce.Spent? ==> w.closed && w.ch.writerDone && w.log.hangUps == 1
  {
    FreshKeeps(capacity, moves);
  }

  /** An upper bound on the steps that let the writer end. */
  function CloseRank(at: ClosePoint): nat {
    match at case Storing => 5 case AtOnce => 4 case Stopping => 3 case HangingUp => 2 case Back => 1
  }

  function WriterRank(p: WriterPhase): nat {
    match p
    case Selecting => 6
    case Writing(_) => 7
    case WriterCloses(at) => CloseRank(at)
    case Deferred => 1
    case Done => 0
  }

  function OnceRank(w: World): nat {
    match w.lk.closeOnce
    case Fresh => 3
    case Busy(Caller(h)) => if h in w.calls && w.calls[h].Closing? && w.calls[h].at.Stopping? then 2 else 1
    case Busy(Writer) => 1
    case Spent => 0
  }

  function Distance(w: World): nat {
    8 * |w.ch.queue| + WriterRank(w.writer) + OnceRank(w) + (if w.ch.sendClosed then 0 else 1)
  }

  /** The call that the writer depends on while it cannot go on by itself. */
  lemma Awaited(w: World) returns (id: nat)
    requires Inv(w) && w.closed && w.writer.Selecting? && w.ch.queue == [] && !w.ch.sendClosed && !w.ch.stopClosed
    ensures id in w.calls && (AboutToSignal(w.calls[id]) || InCloseBody(w.calls[id]))
    ensures w.calls[id].Closing? && w.calls[id].at.AtOnce? ==> w.lk.closeOnce.Fresh?
  {
    hide InOrder, CloseShows;
    if w.lk.closeOnce.Busy? {
      id := w.lk.closeOnce.holder.id;
      assert CallGuards(w.lk.sendMu, w.lk.closeOnce, w.lk.finishOnce, id, w.calls[id]);
    } else {
      var t :| t in w.calls && AboutToSignal(w.calls[t]);
      id := t;
    }
  }

  /** A call at the once when it is free, in its body, or closing the queue
      brings the end of the writer nearer. */
  lemma CallComesCloser(w: World, id: nat)
    requires Inv(w) && w.closed && !w.ch.writerDone && id in w.calls
    requires AboutToSignal(w.calls[id]) || InCloseBody(w.calls[id])
    requires w.calls[id].Closing? && w.calls[id].at.AtOnce? ==> w.lk.closeOnce.Fresh?
    ensures var next := Step(w, Go(id));
      && Distance(next) < Distance(w) && next.closed && !next.ch.writerDone
      && (forall t :: t in w.calls && t != id ==> t in next.calls && next.calls[t] == w.calls[t])
  {
    assert CallGuards(w.lk.sendMu, w.lk.closeOnce, w.lk.finishOnce, id, w.calls[id]);
    assert CallStops(w.calls[id], w.ch.stopClosed);
    assert CallQueues(w.calls[id], w.ch.sendClosed, w.closed, w.ch.writerDone, w.lk.closeOnce);
    hide Inv, CallStops, CallGuards, CallQueues, GoSend, TrySend;
    var next := Step(w, Go(id));
    if w.calls[id].ClosingQueue? {
      assert OnceRank(next) <= OnceRank(w);
    }
  }

  lemma WriterComesCloser(w: World, e: Event)
    requires Inv(w) && w.closed && !w.ch.writerDone
    requires match w.writer
      case Writing(_) => e.WriteWorks?
      case Selecting => if e.SeesStop? then w.ch.stopClosed else e.SeesQueue? && (w.ch.queue != [] || w.ch.sendClosed)
      case WriterCloses(at) => at.AtOnce? ==> !w.lk.closeOnce.Busy?
      case _ => true
    ensures var next := Step(w, WriterGo(e));
      && Distance(next) < Distance(w) && next.closed && next.calls == w.calls
  {
    hide CallStops, CallGuards, CallQueues, WriterWillHear, InOrder, CloseShows;
  }

  predicate Ordinary(moves: seq<Move>) {
    forall k :: 0 <= k < |moves| ==> moves[k].Go? || moves[k].WriterGo?
  }

  /** A move that brings the end of the writer nearer. */
  lemma OneStepCloser(w: World) returns (m: Move)
    requires Inv(w) && w.closed && !w.ch.writerDone
    ensures m.Go? || m.WriterGo?
    ensures Distance(Step(w, m)) < Distance(w) && Step(w, m).closed
    ensures forall t :: t in w.calls && w.calls[t].AwaitsWriter? ==>
              t in Step(w, m).calls && Step(w, m).calls[t] == w.calls[t]
  {
    hide GoCaller, GoWriter, Distance, Guards, StopOnce, QueueOnce, WriterWillHear, InOrder, CloseShows;
    match w.writer
    case Writing(_) =>
      m := WriterGo(WriteWorks);
      WriterComesCloser(w, WriteWorks);
    case Selecting =>
      if w.ch.queue != [] || w.ch.sendClosed {
        m := WriterGo(SeesQueue);
        WriterComesCloser(w, SeesQueue);
      } else if w.ch.stopClosed {
        m := WriterGo(SeesStop);
        WriterComesCloser(w, SeesStop);
      } else {
        var id := Awaited(w);
        m := Go(id);
        CallComesCloser(w, id);
      }
    case WriterCloses(at) =>
      if at.AtOnce? && w.lk.closeOnce.Busy? {
        var id := BusyCaller(w);
        m := Go(id);
        CallComesCloser(w, id);
      } else {
        m := WriterGo(Onwards);
        WriterComesCloser(w, Onwards);
      }
    case _ =>
      m := WriterGo(Onwards);
      assert !w.writer.Done? by { DoneIsDone(w); }
      WriterComesCloser(w, Onwards);
  }

  lemma DoneIsDone(w: World)
    requires Inv(w)
    ensures w.writer.Done? == w.ch.writerDone
  {
  }

  lemma BusyCaller(w: World) returns (id: nat)
    requires Inv(w) && w.lk.closeOnce.Busy? && w.writer == WriterCloses(AtOnce)
    ensures id in w.calls && InCloseBody(w.calls[id])
  {
    id := w.lk.closeOnce.holder.id;
    assert CallGuards(w.lk.sendMu, w.lk.closeOnce, w.lk.finishOnce, id, w.calls[id]);
  }

  /** A finish that waits for the writer can always get past the wait: the
      writer and the calls it depends on reach the end within a bound that the
      state itself gives, without any new call. */
  lemma {:induction false} FinishGetsPast(w: World, id: nat) returns (moves: seq<Move>)
    requires Inv(w) && id in w.calls && w.calls[id].AwaitsWriter?
    ensures Ordinary(moves) && |moves| <= Distance(w) + 1
    ensures id in Run(w, moves).calls && Run(w, moves).calls[id].FinishAtOnce?
    decreases Distance(w)
  {
    hide Inv, Distance;
    AwaitingIsClosed(w, id);
    if w.ch.writerDone {
      moves := [Go(id)];
      assert Run(w, moves) == Run(Step(w, Go(id)), []);
    } else {
      var m := OneStepCloser(w);
      StepKeeps(w, m);
      var rest := FinishGetsPast(Step(w, m), id);
      moves := [m] + rest;
      assert moves[1..] == rest;
    }
  }

  /** A finish that waits has marked the session closed. */
  lemma AwaitingIsClosed(w: World, id: nat)
    requires Inv(w) && id in w.calls && w.calls[id].AwaitsWriter?
    ensures w.closed
  {
    assert CallQueues(w.calls[id], w.ch.sendClosed, w.closed, w.ch.writerDone, w.lk.closeOnce);
  }
}
