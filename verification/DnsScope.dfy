/** The scoped switch of the DNS resolver used for geolocation lookups.

    A callback that wants the resolver of one that is running shares its scope;
    all others, also of the same name while none is running yet, take turns.  Every call is an activation that moves through
    phases; one move is one critical section, so a run is any interleaving of
    any number of calls.  The module first states the protocol and its
    invariant, then what callers rely on, then the package variables as an
    object. */
module DnsScope {
  import opened Text

  datatype Settings = Settings(dot: string, fallback: bool)

  /** How far one call has come.  `saved` is what it read before switching. */
  datatype Phase =
    | Unscoped
    | Arrived(name: string)
    | Waiting(name: string)
    | Holding(name: string)
    | Knows(name: string, saved: Settings)
    | Switched(name: string, saved: Settings)
    | Inside(name: string)
    | Restoring(saved: Settings)
    | HalfRestored(saved: Settings)
    | Unlocking
    | Gone

  /** `fault` records a release of the scope lock while nobody holds it. */
  datatype World = World(
    now: Settings, scopeDot: string, prev: Settings, depth: int,
    locked: bool, fault: bool, calls: map<nat, Phase>)

  datatype Move = Call(id: nat, dotServer: string) | Advance(id: nat)

  function Normal(name: string): string {
    Lower(Trim(name))
  }

  lemma NormalTwice(s: string)
    ensures Normal(Normal(s)) == Normal(s)
  {
    NormalIdempotent(s);
  }

  function At(w: World, id: nat, phase: Phase): World {
    w.(calls := w.calls[id := phase])
  }

  function NoSettings(): Settings {
    Settings("", true)
  }

  /** The critical section that counts a callback out. */
  function CountOut(w: World, id: nat): World {
    if w.depth <= 0 then At(w, id, Gone)
    else if w.depth > 1 then At(w.(depth := w.depth - 1), id, Gone)
    else At(w.(depth := 0, scopeDot := "", prev := NoSettings()), id, Restoring(w.prev))
  }

  /** The next critical section of one call; a call that must wait stays put. */
  function Moved(w: World, id: nat): World
    requires id in w.calls
  {
    match w.calls[id]
    case Arrived(n) =>
      if w.depth > 0 && w.scopeDot == n then At(w.(depth := w.depth + 1), id, Inside(n))
      else At(w, id, Waiting(n))
    case Waiting(n) => if w.locked then w else At(w.(locked := true), id, Holding(n))
    case Holding(n) => At(w, id, Knows(n, w.now))
    case Knows(n, s) => At(w.(now := w.now.(dot := Normal(n))), id, Switched(n, s))
    case Switched(n, s) => At(w.(scopeDot := n, prev := s, depth := 1), id, Inside(n))
    case Inside(_) => CountOut(w, id)
    case Restoring(s) => At(w.(now := w.now.(dot := Normal(s.dot))), id, HalfRestored(s))
    case HalfRestored(s) => At(w.(now := w.now.(fallback := s.fallback)), id, Unlocking)
    case Unlocking => At(w.(locked := false, fault := w.fault || !w.locked), id, Gone)
    case Unscoped => At(w, id, Gone)
    case Gone => w
  }

  function Step(w: World, m: Move): World {
    match m
    case Call(id, dotServer) =>
      if id in w.calls then w
      else At(w, id, if Normal(dotServer) == "" then Unscoped else Arrived(Normal(dotServer)))
    case Advance(id) => if id in w.calls then Moved(w, id) else w
  }

  function Run(w: World, moves: seq<Move>): World
    decreases |moves|
  {
    if moves == [] then w else Run(Step(w, moves[0]), moves[1..])
  }

  /** Before any call: the settings are whatever was configured. */
  function Quiet(base: Settings): World {
    World(base, "", NoSettings(), 0, false, false, map[])
  }

  // ------------------------------------------------------------ the invariant

  /** This call holds the scope lock on its own behalf. */
  predicate Owner(p: Phase) {
    p.Holding? || p.Knows? || p.Switched? || p.Restoring? || p.HalfRestored? || p.Unlocking?
  }

  function Insiders(w: World): set<nat> {
    set id | id in w.calls && w.calls[id].Inside?
  }

  predicate Named(p: Phase) {
    (p.Arrived? || p.Waiting? || p.Holding? || p.Knows? || p.Switched? || p.Inside?) ==>
      p.name != "" && Normal(p.name) == p.name
  }

  /** What the shared settings are while a call is in the given phase. */
  predicate Fits(w: World, base: Settings, p: Phase) {
    && (Owner(p) ==> w.locked && w.depth == 0)
    && (p.Holding? ==> w.now == base)
    && (p.Knows? ==> w.now == base && p.saved == base)
    && (p.Switched? ==> w.now.dot == p.name && p.saved == base)
    && (p.Inside? ==> w.locked && w.depth > 0 && p.name == w.scopeDot == w.now.dot && w.prev == base)
    && (p.Restoring? ==> p.saved == base)
    && (p.HalfRestored? ==> p.saved == base && w.now.dot == base.dot)
    && (p.Unlocking? ==> w.now == base)
  }

  /** One call holds the lock by itself, or the callbacks inside hold it together. */
  predicate HeldBySomeone(w: World) {
    w.locked ==> exists id :: id in w.calls && (Owner(w.calls[id]) || w.calls[id].Inside?)
  }

  predicate OneOwner(w: World) {
    forall i, j :: i in w.calls && j in w.calls && Owner(w.calls[i]) && Owner(w.calls[j]) ==> i == j
  }

  predicate Inv(w: World, base: Settings) {
    && !w.fault
    && w.now.fallback == base.fallback
    && w.depth == |Insiders(w)|
    && (!w.locked ==> w.now == base && w.depth == 0)
    && OneOwner(w)
    && HeldBySomeone(w)
    && (forall id :: id in w.calls ==> Named(w.calls[id]) && Fits(w, base, w.calls[id]))
  }

  lemma InsidersAt(w: World, id: nat, p: Phase)
    ensures Insiders(At(w, id, p)) == if p.Inside? then Insiders(w) + {id} else Insiders(w) - {id}
  {
  }

  lemma InsidersCount(w: World, id: nat, p: Phase)
    ensures |Insiders(At(w, id, p))| ==
      |Insiders(w)| + (if p.Inside? then 1 else 0) - (if id in Insiders(w) then 1 else 0)
  {
    InsidersAt(w, id, p);
    var s := Insiders(w);
    assert id in s ==> s + {id} == s && |s - {id}| == |s| - 1;
    assert id !in s ==> |s + {id}| == |s| + 1 && s - {id} == s;
  }

  lemma CallKeeps(w: World, base: Settings, id: nat, dotServer: string)
    requires Inv(w, base)
    ensures Inv(Step(w, Call(id, dotServer)), base)
  {
    hide Lower, Trim;
    if id !in w.calls {
      var p := if Normal(dotServer) == "" then Unscoped else Arrived(Normal(dotServer));
      NormalIdempotent(dotServer);
      InsidersCount(w, id, p);
      var next := At(w, id, p);
      assert Step(w, Call(id, dotServer)) == next;
      assert next.locked ==> exists j :: j in next.calls && (Owner(next.calls[j]) || next.calls[j].Inside?) by {
        if w.locked {
          var j :| j in w.calls && (Owner(w.calls[j]) || w.calls[j].Inside?);
          assert next.calls[j] == w.calls[j];
        }
      }
    }
  }

  /** With the depth at zero no callback is running. */
  lemma NobodyInside(w: World, base: Settings, id: nat)
    requires Inv(w, base) && id in w.calls && w.calls[id].Inside?
    ensures w.depth > 0 && id in Insiders(w)
  {
    hide Lower, Trim, Normal;
  }

  /** Whoever is counted inside keeps every other call out of the lock. */
  lemma LastOneOut(w: World, base: Settings, id: nat, other: nat)
    requires Inv(w, base) && id in w.calls && w.calls[id].Inside?
    requires other in w.calls && other != id && w.depth == 1
    ensures !w.calls[other].Inside? && !Owner(w.calls[other])
  {
    hide Lower, Trim, Normal;
    if w.calls[other].Inside? {
      TwoAreTwo(Insiders(w), id, other);
    }
  }

  lemma TwoAreTwo(s: set<nat>, a: nat, b: nat)
    requires a in s && b in s && a != b
    ensures |s| >= 2
  {
    assert |s - {a} - {b}| == |s| - 2;
  }

  /** A call that enters a shared scope, waits, or was never scoped. */
  lemma BystanderKeeps(w: World, base: Settings, id: nat)
    requires Inv(w, base) && id in w.calls && !w.calls[id].Inside?
    requires !Owner(w.calls[id]) && (w.calls[id].Waiting? ==> w.locked)
    ensures Inv(Moved(w, id), base)
  {
    hide Lower, Trim, Normal;
    var next := Moved(w, id);
    InsidersCount(w, id, next.calls[id]);
    assert Insiders(next) == Insiders(At(w, id, next.calls[id]));
    HeldKeeps(w, base, id);
  }

  /** While one call holds the lock by itself, or nobody does, no other call is
      inside or owns it. */
  lemma OthersOutside(w: World, base: Settings, id: nat, other: nat)
    requires Inv(w, base) && id in w.calls && other in w.calls && other != id
    requires Owner(w.calls[id]) || !w.locked
    ensures !Owner(w.calls[other]) && !w.calls[other].Inside?
  {
    hide Lower, Trim, Normal;
    assert Fits(w, base, w.calls[id]) && Fits(w, base, w.calls[other]);
  }

  lemma OwnerKeeps(w: World, base: Settings, id: nat)
    requires Inv(w, base) && id in w.calls && Normal(base.dot) == base.dot
    requires Owner(w.calls[id]) || (w.calls[id].Waiting? && !w.locked)
    ensures Inv(Moved(w, id), base)
  {
    hide Lower, Trim, Normal;
    var next := Moved(w, id);
    assert Named(w.calls[id]) && Fits(w, base, w.calls[id]);
    InsidersCount(w, id, next.calls[id]);
    assert Insiders(next) == Insiders(At(w, id, next.calls[id]));
    assert id !in Insiders(w);
    forall j | j in next.calls && j != id
      ensures j in w.calls && next.calls[j] == w.calls[j] && !Owner(next.calls[j]) && !next.calls[j].Inside?
      ensures Named(next.calls[j]) && Fits(next, base, next.calls[j])
    {
      OthersOutside(w, base, id, j);
    }
    HeldKeeps(w, base, id);
  }

  lemma HeldKeeps(w: World, base: Settings, id: nat)
    requires Inv(w, base) && id in w.calls && !w.calls[id].Inside?
    ensures HeldBySomeone(Moved(w, id))
  {
    hide Lower, Trim, Normal;
    var next := Moved(w, id);
    if next.locked {
      if w.locked && !Owner(w.calls[id]) {
        var j :| j in w.calls && (Owner(w.calls[j]) || w.calls[j].Inside?);
        assert j != id && next.calls[j] == w.calls[j];
      } else {
        assert Owner(next.calls[id]) || next.calls[id].Inside?;
      }
    }
  }

  lemma LeaveKeeps(w: World, base: Settings, id: nat)
    requires Inv(w, base) && id in w.calls && w.calls[id].Inside?
    ensures Inv(Moved(w, id), base)
  {
    hide Lower, Trim, Normal;
    var next := Moved(w, id);
    NobodyInside(w, base, id);
    InsidersCount(w, id, next.calls[id]);
    assert Insiders(next) == Insiders(At(w, id, next.calls[id]));
    if w.depth == 1 {
      forall j | j in w.calls && j != id
        ensures !Owner(w.calls[j]) && !w.calls[j].Inside?
      {
        LastOneOut(w, base, id, j);
      }
      assert Owner(next.calls[id]);
    } else {
      var rest := Insiders(w) - {id};
      assert |rest| == w.depth - 1;
      var j :| j in rest;
      assert next.calls[j].Inside?;
    }
  }

  lemma StepKeeps(w: World, base: Settings, m: Move)
    requires Inv(w, base) && Normal(base.dot) == base.dot
    ensures Inv(Step(w, m), base)
  {
    hide Lower, Trim, Normal;
    match m
    case Call(id, dotServer) => CallKeeps(w, base, id, dotServer);
    case Advance(id) =>
      if id in w.calls {
        if w.calls[id].Inside? {
          LeaveKeeps(w, base, id);
        } else if Owner(w.calls[id]) || (w.calls[id].Waiting? && !w.locked) {
          OwnerKeeps(w, base, id);
        } else {
          BystanderKeeps(w, base, id);
        }
      }
  }

  lemma {:induction false} RunKeeps(w: World, base: Settings, moves: seq<Move>)
    requires Inv(w, base) && Normal(base.dot) == base.dot
    ensures Inv(Run(w, moves), base)
    decreases |moves|
  {
    hide Lower, Trim, Normal;
    if moves != [] {
      StepKeeps(w, base, moves[0]);
      RunKeeps(Step(w, moves[0]), base, moves[1..]);
    }
  }

  // --------------------------------------------------------- what callers get

  /** Callbacks active at the same time asked for the same resolver, it is the
      one in force, and the depth counts them. */
  lemma ActiveCallbacksAgree(base: Settings, moves: seq<Move>)
    requires Normal(base.dot) == base.dot
    ensures var w := Run(Quiet(base), moves);
      && w.depth == |Insiders(w)|
      && (forall i :: i in Insiders(w) ==> w.calls[i].name == w.now.dot)
      && (forall i, j :: i in Insiders(w) && j in Insiders(w) ==> w.calls[i].name == w.calls[j].name)
  {
    hide Lower, Trim, Normal;
    assert Insiders(Quiet(base)) == {};
    RunKeeps(Quiet(base), base, moves);
  }

  /** The scope lock is never released unheld, and whenever it is free the
      settings are the ones from before the outermost entry. */
  lemma SettingsComeBack(base: Settings, moves: seq<Move>)
    requires Normal(base.dot) == base.dot
    ensures var w := Run(Quiet(base), moves);
      && !w.fault
      && (!w.locked ==> w.now == base)
      && (forall i :: i in w.calls && w.calls[i].Unlocking? ==> w.locked)
  {
    hide Lower, Trim, Normal;
    assert Insiders(Quiet(base)) == {};
    RunKeeps(Quiet(base), base, moves);
  }

  /** Once every call has returned, the lock is free and the settings are back. */
  lemma AllGoneAllRestored(base: Settings, moves: seq<Move>)
    requires Normal(base.dot) == base.dot
    requires var w := Run(Quiet(base), moves); forall i :: i in w.calls ==> w.calls[i].Gone?
    ensures var w := Run(Quiet(base), moves);
      !w.locked && w.depth == 0 && w.now == base
  {
    hide Lower, Trim, Normal;
    assert Insiders(Quiet(base)) == {};
    RunKeeps(Quiet(base), base, moves);
  }

  /** A call that finds a callback with its own resolver running enters at once. */
  lemma SameNameEnters(w: World, base: Settings, id: nat, host: nat)
    requires Inv(w, base) && host in w.calls && w.calls[host].Inside?
    requires id in w.calls && w.calls[id] == Arrived(w.calls[host].name)
    ensures Step(w, Advance(id)).calls[id] == w.calls[host]
  {
    hide Lower, Trim, Normal;
  }

  /** The lock is held only by calls that can move, so unless some callback
      never returns, a waiting call can always be unblocked by moving others. */
  lemma LockHolderCanMove(w: World, base: Settings)
    requires Inv(w, base) && w.locked
    ensures exists id :: id in w.calls && !w.calls[id].Waiting? && Moved(w, id) != w
  {
    hide Lower, Trim, Normal;
    var id :| id in w.calls && (Owner(w.calls[id]) || w.calls[id].Inside?);
    assert Moved(w, id).calls[id] != w.calls[id];
  }

  /** Critical sections until the owner of the lock gives it up. */
  function OwnerSteps(p: Phase): nat {
    match p
    case Holding(_) => 8
    case Knows(_, _) => 7
    case Switched(_, _) => 6
    case Restoring(_) => 3
    case HalfRestored(_) => 2
    case Unlocking => 1
    case _ => 0
  }

  /** A bound on the steps until the scope lock is free. */
  ghost function StepsToFree(w: World): nat {
    if !w.locked then 0
    else if w.depth > 0 then w.depth + 3
    else if id :| id in w.calls && Owner(w.calls[id]) then OwnerSteps(w.calls[id])
    else 0
  }

  lemma StepsOfOwner(w: World, base: Settings, id: nat)
    requires Inv(w, base) && id in w.calls && Owner(w.calls[id])
    ensures StepsToFree(w) == OwnerSteps(w.calls[id])
  {
    hide Lower, Trim, Normal;
    assert Fits(w, base, w.calls[id]);
  }

  /** Somebody other than a waiting call brings the lock nearer to being free. */
  lemma ComesNearer(w: World, base: Settings) returns (id: nat)
    requires Inv(w, base) && w.locked && Normal(base.dot) == base.dot
    ensures id in w.calls && !w.calls[id].Waiting?
    ensures StepsToFree(Step(w, Advance(id))) < StepsToFree(w)
  {
    hide Lower, Trim, Normal;
    id :| id in w.calls && (Owner(w.calls[id]) || w.calls[id].Inside?);
    var next := Step(w, Advance(id));
    StepKeeps(w, base, Advance(id));
    if w.calls[id].Inside? {
      NobodyInside(w, base, id);
    } else {
      StepsOfOwner(w, base, id);
    }
    if Owner(next.calls[id]) {
      StepsOfOwner(next, base, id);
    }
  }

  predicate OnlyAdvances(moves: seq<Move>) {
    forall k :: 0 <= k < |moves| ==> moves[k].Advance?
  }

  /** Without any new call the lock becomes free, and those who wait still do. */
  lemma {:induction false} LockComesFree(w: World, base: Settings) returns (moves: seq<Move>)
    requires Inv(w, base) && Normal(base.dot) == base.dot
    ensures OnlyAdvances(moves) && |moves| <= StepsToFree(w)
    ensures var after := Run(w, moves);
      && Inv(after, base) && !after.locked
      && forall id :: id in w.calls && w.calls[id].Waiting? ==> id in after.calls && after.calls[id] == w.calls[id]
    decreases StepsToFree(w)
  {
    hide Inv, Normal, StepsToFree;
    if !w.locked {
      moves := [];
    } else {
      var id := ComesNearer(w, base);
      StepKeeps(w, base, Advance(id));
      var w1 := Step(w, Advance(id));
      OthersStay(w, id);
      var rest := LockComesFree(w1, base);
      moves := [Advance(id)] + rest;
      assert moves[1..] == rest;
    }
  }

  lemma OthersStay(w: World, id: nat)
    ensures forall other :: other in w.calls && other != id ==>
              other in Step(w, Advance(id)).calls && Step(w, Advance(id)).calls[other] == w.calls[other]
  {
    hide Normal;
  }

  lemma {:induction false} RunAppends(w: World, a: seq<Move>, b: seq<Move>)
    ensures Run(w, a + b) == Run(Run(w, a), b)
    decreases |a|
  {
    hide Step;
    if a == [] {
      assert a + b == b;
    } else {
      RunAppends(Step(w, a[0]), a[1..], b);
      assert (a + b)[1..] == a[1..] + b;
    }
  }

  /** From a free lock a waiting call reaches its callback in four steps. */
  lemma FourStepsIn(w: World, base: Settings, id: nat) returns (moves: seq<Move>)
    requires Inv(w, base) && !w.locked && id in w.calls && w.calls[id].Waiting?
    ensures OnlyAdvances(moves) && |moves| == 4
    ensures id in Run(w, moves).calls && Run(w, moves).calls[id] == Inside(w.calls[id].name)
  {
    hide Lower, Trim, Normal;
    var go := Advance(id);
    moves := [go, go, go, go];
    assert moves[1..] == [go, go, go] && moves[1..][1..] == [go, go] && moves[1..][1..][1..] == [go];
    var w1 := Step(w, go);
    var w2 := Step(w1, go);
    var w3 := Step(w2, go);
    var w4 := Step(w3, go);
    assert Run(w3, [go]) == Run(w4, []) by { assert [go][1..] == []; }
    assert Run(w2, [go, go]) == Run(w3, [go]);
    assert Run(w1, [go, go, go]) == Run(w2, [go, go]);
    assert Run(w, moves) == Run(w1, [go, go, go]);
  }

  /** A waiting call can always get to its callback, within a number of steps
      that the state itself gives and without any new call, as long as the
      callbacks that are running may return: it is not nested in one of them. */
  lemma WaitingCanEnter(w: World, base: Settings, id: nat) returns (moves: seq<Move>)
    requires Inv(w, base) && Normal(base.dot) == base.dot && id in w.calls && w.calls[id].Waiting?
    ensures OnlyAdvances(moves) && |moves| <= StepsToFree(w) + 4
    ensures id in Run(w, moves).calls && Run(w, moves).calls[id] == Inside(w.calls[id].name)
  {
    hide Inv, Normal, StepsToFree, Run;
    var first := LockComesFree(w, base);
    var last := FourStepsIn(Run(w, first), base, id);
    RunAppends(w, first, last);
    moves := first + last;
  }

  // ------------------------------------- nesting a different name never returns

  /** A call nested in the callback of another one: the callback cannot return
      while the nested call has not. */
  predicate Nested(w: World, moves: seq<Move>, outer: nat, inner: nat)
    decreases |moves|
  {
    moves == [] ||
    (&& (moves[0] == Advance(outer) ==> inner in w.calls && w.calls[inner].Gone?)
     && Nested(Step(w, moves[0]), moves[1..], outer, inner))
  }

  lemma StaysStuck(w: World, base: Settings, m: Move, outer: nat, inner: nat)
    requires Inv(w, base) && outer != inner && m != Advance(outer)
    requires outer in w.calls && w.calls[outer].Inside?
    requires inner in w.calls && w.calls[inner].Waiting?
    ensures inner in Step(w, m).calls && Step(w, m).calls[inner] == w.calls[inner]
    ensures outer in Step(w, m).calls && Step(w, m).calls[outer] == w.calls[outer]
  {
    hide Lower, Trim, Normal;
  }

  /** A scope nested in one with another resolver waits for ever: whatever the
      other calls do, neither of the two moves again. */
  lemma {:induction false} OtherNameHangs(w: World, base: Settings, moves: seq<Move>, outer: nat, inner: nat)
    requires Inv(w, base) && Normal(base.dot) == base.dot && outer != inner
    requires outer in w.calls && w.calls[outer].Inside?
    requires inner in w.calls && w.calls[inner].Waiting?
    requires Nested(w, moves, outer, inner)
    ensures Inv(Run(w, moves), base)
    ensures inner in Run(w, moves).calls && Run(w, moves).calls[inner] == w.calls[inner]
    ensures outer in Run(w, moves).calls && Run(w, moves).calls[outer] == w.calls[outer]
    decreases |moves|
  {
    hide Lower, Trim, Normal, Inv;
    if moves != [] {
      StepKeeps(w, base, moves[0]);
      StaysStuck(w, base, moves[0], outer, inner);
      OtherNameHangs(Step(w, moves[0]), base, moves[1..], outer, inner);
    }
  }

  /** That is where such a nested call ends up: it finds the scope taken. */
  lemma OtherNameWaits(w: World, base: Settings, outer: nat, inner: nat)
    requires Inv(w, base) && outer in w.calls && w.calls[outer].Inside?
    requires inner in w.calls && w.calls[inner].Arrived?
    ensures Step(w, Advance(inner)).calls[inner].Waiting? <==> w.calls[inner].name != w.calls[outer].name
  {
    hide Lower, Trim, Normal;
  }

  /** Whatever else is going on: an arriving call waits for the scope lock exactly
      when no callback with its own name is running.  So does one of the same
      name that comes before the first callback has started. */
  lemma ArrivalWaitsExactly(w: World, base: Settings, id: nat)
    requires Inv(w, base) && id in w.calls && w.calls[id].Arrived?
    ensures Step(w, Advance(id)).calls[id].Waiting? <==>
      forall other :: other in w.calls && w.calls[other].Inside? ==> w.calls[other].name != w.calls[id].name
  {
    hide Lower, Trim, Normal;
    if w.depth > 0 {
      assert |Insiders(w)| > 0;
      var other :| other in Insiders(w);
      assert w.calls[other].name == w.scopeDot;
    }
  }

  // ------------------------------------------------- one call without interruption

  /** How a call that nobody interrupts enters; it stops where its callback
      starts, or where it has to wait. */
  function Entered(w: World, id: nat, dotServer: string): World {
    var n := Normal(dotServer);
    if n == "" then At(w, id, Unscoped)
    else if w.depth > 0 && w.scopeDot == n then At(w.(depth := w.depth + 1), id, Inside(n))
    else if w.locked then At(w, id, Waiting(n))
    else
      At(w.(now := w.now.(dot := n), scopeDot := n, prev := w.now, depth := 1, locked := true), id, Inside(n))
  }

  /** How a callback that nobody interrupts leaves. */
  function Left(w: World, id: nat): World {
    if w.depth == 1 then
      At(w.(now := Settings(Normal(w.prev.dot), w.prev.fallback), scopeDot := "", prev := NoSettings(),
            depth := 0, locked := false, fault := w.fault || !w.locked), id, Gone)
    else CountOut(w, id)
  }

  /** That many critical sections of one call in a row. */
  function Alone(w: World, id: nat, count: nat): World
    decreases count
  {
    if count == 0 then w else Alone(Step(w, Advance(id)), id, count - 1)
  }

  lemma AtTwice(w: World, id: nat, p: Phase, q: Phase)
    ensures At(At(w, id, p), id, q) == At(w, id, q)
  {
    assert w.calls[id := p][id := q] == w.calls[id := q];
  }

  /** The five critical sections of an entry amount to `Entered`. */
  lemma EnteredIsARun(w: World, id: nat, dotServer: string)
    requires id !in w.calls
    ensures exists count: nat :: Alone(Step(w, Call(id, dotServer)), id, count) == Entered(w, id, dotServer)
  {
    hide Lower, Trim, Normal;
    var n := Normal(dotServer);
    var w1 := Step(w, Call(id, dotServer));
    if n == "" {
      assert Alone(w1, id, 0) == Entered(w, id, dotServer);
    } else if w.depth > 0 && w.scopeDot == n {
      AtTwice(w.(depth := w.depth + 1), id, Arrived(n), Inside(n));
      assert Alone(w1, id, 1) == Alone(Step(w1, Advance(id)), id, 0);
      assert Alone(w1, id, 1) == Entered(w, id, dotServer);
    } else if w.locked {
      AtTwice(w, id, Arrived(n), Waiting(n));
      assert Alone(w1, id, 1) == Alone(Step(w1, Advance(id)), id, 0);
      assert Alone(w1, id, 1) == Entered(w, id, dotServer);
    } else {
      OpensInFive(w, id, dotServer);
      assert Alone(w1, id, 5) == Entered(w, id, dotServer);
    }
  }

  lemma OpensInFive(w: World, id: nat, dotServer: string)
    requires id !in w.calls && Normal(dotServer) != "" && !w.locked
    requires !(w.depth > 0 && w.scopeDot == Normal(dotServer))
    ensures Alone(Step(w, Call(id, dotServer)), id, 5) == Entered(w, id, dotServer)
  {
    hide Lower, Trim, Normal;
    NormalTwice(dotServer);
    var n := Normal(dotServer);
    var held := w.(locked := true);
    var switched := held.(now := w.now.(dot := n));
    AtTwice(w, id, Arrived(n), Waiting(n));
    AtTwice(held, id, Waiting(n), Holding(n));
    AtTwice(held, id, Holding(n), Knows(n, w.now));
    AtTwice(switched, id, Knows(n, w.now), Switched(n, w.now));
    var inner := switched.(scopeDot := n, prev := w.now, depth := 1);
    AtTwice(inner, id, Switched(n, w.now), Inside(n));
    assert Alone(At(switched, id, Switched(n, w.now)), id, 1) == At(inner, id, Inside(n));
    assert Alone(At(held, id, Knows(n, w.now)), id, 2) == At(inner, id, Inside(n));
    assert Alone(At(held, id, Holding(n)), id, 3) == At(inner, id, Inside(n));
    assert Alone(At(w, id, Waiting(n)), id, 4) == At(inner, id, Inside(n));
  }

  /** The critical sections of an exit amount to `Left`. */
  lemma LeftIsARun(w: World, id: nat)
    requires id in w.calls && w.calls[id].Inside?
    ensures exists count: nat :: Alone(w, id, count) == Left(w, id)
  {
    hide Lower, Trim, Normal;
    if w.depth == 1 {
      var out := w.(depth := 0, scopeDot := "", prev := NoSettings());
      var half := out.(now := out.now.(dot := Normal(w.prev.dot)));
      var whole := half.(now := half.now.(fallback := w.prev.fallback));
      var free := whole.(locked := false, fault := whole.fault || !whole.locked);
      AtTwice(out, id, w.calls[id], Restoring(w.prev));
      AtTwice(half, id, Restoring(w.prev), HalfRestored(w.prev));
      AtTwice(whole, id, HalfRestored(w.prev), Unlocking);
      AtTwice(free, id, Unlocking, Gone);
      assert Alone(At(whole, id, Unlocking), id, 1) == At(free, id, Gone);
      assert Alone(At(half, id, HalfRestored(w.prev)), id, 2) == At(free, id, Gone);
      assert Alone(At(out, id, Restoring(w.prev)), id, 3) == At(free, id, Gone);
      assert Alone(w, id, 4) == Left(w, id);
    } else {
      assert Alone(w, id, 1) == Alone(Step(w, Advance(id)), id, 0);
      assert Alone(w, id, 1) == Left(w, id);
    }
  }

  /** The entry need not wait. */
  predicate GoesIn(w: World, id: nat, dotServer: string) {
    var calls := Entered(w, id, dotServer).calls;
    id in calls && calls[id].Inside?
  }

  /** Entering and leaving undo each other, also when nested in the same scope. */
  lemma LeftUndoesEntered(w: World, base: Settings, id: nat, dotServer: string)
    requires id !in w.calls && GoesIn(w, id, dotServer) && Inv(w, base) && Normal(base.dot) == base.dot
    ensures var after := Left(Entered(w, id, dotServer), id);
      && after.now == w.now && after.depth == w.depth && after.locked == w.locked && !after.fault
      && (w.depth > 0 ==> after.scopeDot == w.scopeDot && after.prev == w.prev)
  {
    hide Lower, Trim, Normal, Inv, CountOut, Entered, Left;
    FreeIsBase(w, base);
    var w1 := Entered(w, id, dotServer);
    EnteredEither(w, id, dotServer);
    LeftEither(w1, id);
  }

  /** An entry goes one deeper, or changes the resolver and keeps what was set. */
  lemma EnteredEither(w: World, id: nat, dotServer: string)
    requires id !in w.calls && GoesIn(w, id, dotServer) && w.depth >= 0
    ensures var w1 := Entered(w, id, dotServer);
      && w1.fault == w.fault
      && if w.depth > 0 && w.scopeDot == Normal(dotServer) then
           w1.depth == w.depth + 1 && w1.now == w.now && w1.locked == w.locked && w1.scopeDot == w.scopeDot && w1.prev == w.prev
         else !w.locked && w1.depth == 1 && w1.prev == w.now && w1.locked
  {
    hide Lower, Trim, Normal;
  }

  lemma LeftEither(w: World, id: nat)
    requires w.depth >= 1
    ensures var after := Left(w, id);
      if w.depth > 1 then
        && after.now == w.now && after.depth == w.depth - 1 && after.locked == w.locked && after.fault == w.fault
        && after.scopeDot == w.scopeDot && after.prev == w.prev
      else
        && after.now == Settings(Normal(w.prev.dot), w.prev.fallback) && after.depth == 0 && !after.locked
        && after.fault == (w.fault || !w.locked)
  {
    hide Lower, Trim, Normal;
  }

  lemma FreeIsBase(w: World, base: Settings)
    requires Inv(w, base)
    ensures !w.fault && w.depth >= 0 && (!w.locked ==> w.depth == 0 && w.now == base)
  {
    hide Lower, Trim, Normal;
  }

  /** The package variables, with the mutexes as flags. */
  class GeoResolver {
    var geoDotServer: string
    var geoFallback: bool
    var geoScopeDot: string
    var geoScopePrev: Settings
    var geoScopeDepth: int
    var geoScopeMu: bool

    constructor ()
      ensures View(map[]) == Quiet(NoSettings())
    {
      geoDotServer, geoFallback := "", true;
      geoScopeDot, geoScopePrev, geoScopeDepth, geoScopeMu := "", NoSettings(), 0, false;
    }

    ghost function View(calls: map<nat, Phase>): World
      reads this
    {
      World(Settings(geoDotServer, geoFallback), geoScopeDot, geoScopePrev, geoScopeDepth, geoScopeMu, false, calls)
    }

    method SetGeoDNSResolver(dotServer: string)
      modifies this`geoDotServer
      ensures geoDotServer == Normal(dotServer)
    {
      geoDotServer := Normal(dotServer);
    }

    method SetGeoDNSFallback(enabled: bool)
      modifies this`geoFallback
      ensures geoFallback == enabled
    {
      geoFallback := enabled;
    }

    /** The entry of a scope; the result says whether the callback may start. */
    method Enter(dotServer: string, id: nat, ghost calls: map<nat, Phase>) returns (phase: Phase)
      requires id !in calls
      modifies this
      ensures View(calls[id := phase]) == Entered(old(View(calls)), id, dotServer)
      ensures phase == Entered(old(View(calls)), id, dotServer).calls[id]
    {
      hide Lower, Trim, Normal;
      var name := Normal(dotServer);
      NormalTwice(dotServer);
      if name == "" {
        return Unscoped;
      }
      if geoScopeDepth > 0 && geoScopeDot == name {
        geoScopeDepth := geoScopeDepth + 1;
        return Inside(name);
      }
      if geoScopeMu {
        return Waiting(name);
      }
      geoScopeMu := true;
      var prevDotServer, prevFallback := geoDotServer, geoFallback;
      SetGeoDNSResolver(name);
      geoScopeDot := name;
      geoScopePrev := Settings(prevDotServer, prevFallback);
      geoScopeDepth := 1;
      return Inside(name);
    }

    /** The exit of a scope. */
    method Release(id: nat, ghost calls: map<nat, Phase>)
      requires geoScopeDepth == 1 ==> geoScopeMu
      modifies this
      ensures View(calls[id := Gone]) == Left(old(View(calls)), id)
    {
      hide Lower, Trim, Normal;
      if geoScopeDepth <= 0 {
        return;
      }
      geoScopeDepth := geoScopeDepth - 1;
      if geoScopeDepth > 0 {
        return;
      }
      var saved := geoScopePrev;
      geoScopeDot := "";
      geoScopePrev := NoSettings();
      SetGeoDNSResolver(saved.dot);
      SetGeoDNSFallback(saved.fallback);
      geoScopeMu := false;
    }
  }
}
