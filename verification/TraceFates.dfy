/** What became of each attempt of a classic trace, told from the messages of a
    run alone: whether its mark is still pending, when it was sent, and so what a
    reply or the end of the waiting time leads to. */
module TraceFates {
  import opened Text
  import opened TraceAudit
  import opened TraceProtocol
  import opened TraceHearing

  /** The messages up to the reply that a worker took up last. */
  function Taken(told: seq<Input>, n: nat): (t: seq<Input>)
    ensures t != [] ==> t[|t| - 1].Match? && t[|t| - 1].n == n
  {
    if told == [] then []
    else
      var last := told[|told| - 1];
      if last.Match? && last.n == n then told else Taken(told[..|told| - 1], n)
  }

  function TakenUp(told: seq<Input>, n: nat): Option<int> {
    var t := Taken(told, n);
    if t == [] then None else Some(t[|t| - 1].num)
  }

  /** The number a thread is about: of its own attempt, or of its reply. */
  function NumberOf(told: seq<Input>, t: Thread): Option<int> {
    if t.Worker? then TakenUp(told, t.n) else Some(256 * t.key.ttl + t.key.i)
  }

  /** The time of the send with this number, until a thread is done with it. */
  function SentTime(told: seq<Input>, num: int): Option<int> {
    if told == [] then None
    else
      var before, last := told[..|told| - 1], told[|told| - 1];
      if last.SendDone? && 256 * last.key.ttl + last.key.i == num then Some(last.start)
      else if last.Drop? && NumberOf(before, last.t) == Some(num) then None
      else SentTime(before, num)
  }

  /** A failed send, the end of the waiting time, a cancelled trace, and a claim
      for a reply settle an attempt. */
  predicate Settles(before: seq<Input>, i: Input, key: Key) {
    || i == SendFails(key) || i == Expire(key) || i == Cancel(key)
    || (i.Claim? && TakenUp(before, i.n) == Some(256 * key.ttl + key.i))
  }

  /** The attempt was launched and nothing has settled it. */
  predicate Open(told: seq<Input>, key: Key) {
    && told != []
    && var before, last := told[..|told| - 1], told[|told| - 1];
    last == Launch(key) || (Open(before, key) && !Settles(before, last, key))
  }

  /** What a worker finds for the reply it took up last: its number, where it came
      from, and how long after the send. */
  function Found(told: seq<Input>, n: nat): Pc {
    var t := Taken(told, n);
    if t == [] then Idle
    else
      var before, reply := t[..|t| - 1], t[|t| - 1];
      match SentTime(before, reply.num)
      case None => Idle
      case Some(start) => Looked(reply.num, reply.addr, reply.finish - start, reply.mpls)
  }

  // ----- The state agrees with the messages -----

  ghost predicate ThreadAgrees(w: World, told: seq<Input>, t: Thread) {
    t in w.threads ==>
      var pc := w.threads[t];
      && (pc.Looked? ==> t.Worker? && pc == Found(told, t.n))
      && (pc.Looked? || pc.Dropping? ==> NumberOf(told, t) == Some(pc.num))
      && (Holding(pc) ==> NumberOf(told, t) == Some(NumOf(pc.key.ttl, pc.key.i)))
      && (!t.Worker? ==> t.key in w.launched)
  }

  ghost predicate NumberAgrees(w: World, told: seq<Input>, num: int) {
    SentTime(told, num) == if num in w.sentAt then Some(w.sentAt[num]) else None
  }

  ghost predicate AttemptAgrees(w: World, told: seq<Input>, key: Key) {
    Open(told, key) <==> key in w.launched && NumOf(key.ttl, key.i) in w.pending
  }

  ghost predicate Agrees(w: World, told: seq<Input>) {
    && (forall t :: ThreadAgrees(w, told, t))
    && (forall num :: NumberAgrees(w, told, num))
    && (forall key :: AttemptAgrees(w, told, key))
  }

  /** A launched attempt has a number of its own. */
  lemma OwnNumber(w: World, cfg: Config, key: Key)
    requires Inv(w, cfg) && key in w.launched
    ensures NumOf(key.ttl, key.i) == 256 * key.ttl + key.i && Decode(256 * key.ttl + key.i) == key
  {
    assert LaunchedOk(w, cfg, key);
    DecodeExact(key.ttl, key.i);
  }

  lemma Before(told: seq<Input>, i: Input)
    ensures (told + [i])[..|told|] == told && (told + [i])[|told|] == i
  {
  }

  lemma FoundNext(told: seq<Input>, i: Input, n: nat)
    ensures Found(told + [i], n) == (if i.Match? && i.n == n
                                     then match SentTime(told, i.num)
                                          case None => Idle
                                          case Some(start) => Looked(i.num, i.addr, i.finish - start, i.mpls)
                                     else Found(told, n))
    ensures TakenUp(told + [i], n) == if i.Match? && i.n == n then Some(i.num) else TakenUp(told, n)
  {
    Before(told, i);
  }

  /** What the step makes of a thread. */
  lemma NextPc(w: World, cfg: Config, i: Input, t: Thread)
    requires Shaped(w, cfg) && Enabled(w, cfg, i) && t in Step(w, cfg, i).threads
    ensures var pc' := Step(w, cfg, i).threads[t];
      && w.launched <= Step(w, cfg, i).launched
      && (i.Match? && t == Worker(i.n) ==>
            pc' == if i.num in w.sentAt then Looked(i.num, i.addr, i.finish - w.sentAt[i.num], i.mpls) else Idle)
      && (!(i.Match? && t == Worker(i.n)) && (t in w.threads ==> pc' != w.threads[t]) && !pc'.Idle? && !pc'.Over? ==>
            if i.Launch? then t in {Sender(i.key), Guard(i.key)} && !Holding(pc') && !pc'.Looked? && !pc'.Dropping?
            else t in w.threads && t == ActorOf(i) && !pc'.Looked? &&
                 var pc := w.threads[t];
                 && (Holding(pc') ==> if Holding(pc) then pc'.key == pc.key
                                      else if i.Claim? then pc.Looked? && pc.num in w.pending && pc'.key == Decode(pc.num)
                                      else i.Expire? && pc'.key == i.key)
                 && (pc'.Dropping? ==>
                       if Holding(pc) then pc'.num == NumOf(pc.key.ttl, pc.key.i) else pc.Looked? && pc'.num == pc.num))
      && (t !in w.threads && !t.Worker? ==> i.Launch? && t.key == i.key && i.key in Step(w, cfg, i).launched)
  {
    hide NumOf, Decode, Add, UpdateHop, TimeoutHop, ReplyHop;
  }

  lemma ThreadStays(w: World, cfg: Config, told: seq<Input>, i: Input, t: Thread)
    requires Inv(w, cfg) && Shaped(w, cfg) && Enabled(w, cfg, i) && ThreadAgrees(w, told, t)
    requires i.Match? ==> NumberAgrees(w, told, i.num)
    ensures ThreadAgrees(Step(w, cfg, i), told + [i], t)
  {
    hide Inv, Shaped, NumOf, Decode, Step, Found, TakenUp, SentTime;
    if t in Step(w, cfg, i).threads {
      NextPc(w, cfg, i, t);
      if t.Worker? {
        FoundNext(told, i, t.n);
        if i.Claim? && w.threads[Worker(i.n)].num in w.pending {
          ClaimedNumber(w, cfg, w.threads[Worker(i.n)].num);
        }
      } else {
        StepKeeps(w, cfg, i);
        OwnNumber(Step(w, cfg, i), cfg, t.key);
      }
    }
  }

  lemma ClaimedNumber(w: World, cfg: Config, num: int)
    requires Inv(w, cfg) && num in w.pending
    ensures NumOf(Decode(num).ttl, Decode(num).i) == num && Decode(num) in w.launched
  {
    assert PendingOk(w, num);
  }

  lemma NumberStays(w: World, cfg: Config, told: seq<Input>, i: Input, num: int)
    requires Inv(w, cfg) && Shaped(w, cfg) && Enabled(w, cfg, i) && Agrees(w, told)
    ensures NumberAgrees(Step(w, cfg, i), told + [i], num)
  {
    hide Inv, Shaped, NumOf, Decode, Add, UpdateHop;
    Before(told, i);
    assert NumberAgrees(w, told, num);
    if i.SendDone? {
      assert ThreadAgrees(w, told, Sender(i.key));
      OwnNumber(w, cfg, i.key);
    } else if i.Drop? {
      assert ThreadAgrees(w, told, i.t);
    }
  }

  lemma AttemptStays(w: World, cfg: Config, told: seq<Input>, i: Input, key: Key)
    requires Inv(w, cfg) && Shaped(w, cfg) && Enabled(w, cfg, i) && Agrees(w, told)
    ensures AttemptAgrees(Step(w, cfg, i), told + [i], key)
  {
    hide Inv, Shaped, NumOf, Decode, Add, UpdateHop;
    Before(told, i);
    assert AttemptAgrees(w, told, key);
    var w' := Step(w, cfg, i);
    StepKeeps(w, cfg, i);
    if key in w'.launched {
      OwnNumber(w', cfg, key);
    }
    if i.Launch? {
      OwnNumber(w', cfg, i.key);
    } else if i.SendFails? || i.Expire? || i.Cancel? {
      assert ThreadAgrees(w, told, ActorOf(i));
      OwnNumber(w, cfg, i.key);
    } else if i.Claim? {
      assert ThreadAgrees(w, told, Worker(i.n));
    }
  }

  lemma StepAgrees(w: World, cfg: Config, told: seq<Input>, i: Input)
    requires Inv(w, cfg) && Shaped(w, cfg) && Enabled(w, cfg, i) && Agrees(w, told)
    ensures Agrees(Step(w, cfg, i), told + [i])
  {
    hide Inv, Shaped, Enabled, Step, NumberAgrees, AttemptAgrees, ThreadAgrees;
    var w', more := Step(w, cfg, i), told + [i];
    forall t ensures ThreadAgrees(w', more, t) {
      if i.Match? {
        assert NumberAgrees(w, told, i.num);
      }
      ThreadStays(w, cfg, told, i, t);
    }
    forall num ensures NumberAgrees(w', more, num) {
      NumberStays(w, cfg, told, i, num);
    }
    forall key ensures AttemptAgrees(w', more, key) {
      AttemptStays(w, cfg, told, i, key);
    }
  }

  lemma {:induction false} RunAgrees(w: World, cfg: Config, told: seq<Input>, inputs: seq<Input>, w': World)
    requires Inv(w, cfg) && Runs(w, cfg, inputs, w') && Agrees(w, told)
    ensures Inv(w', cfg) && Agrees(w', told + inputs)
    decreases |inputs|
  {
    hide Inv, Shaped, Step, Enabled, Agrees;
    if inputs == [] {
      assert told + inputs == told;
    } else {
      StepKeeps(w, cfg, inputs[0]);
      StepAgrees(w, cfg, told, inputs[0]);
      RunAgrees(Step(w, cfg, inputs[0]), cfg, told + [inputs[0]], inputs[1..], w');
      assert told + [inputs[0]] + inputs[1..] == told + inputs;
    }
  }

  lemma StateAgrees(cfg: Config, inputs: seq<Input>, w: World)
    requires ValidConfig(cfg) && Runs(Start(cfg), cfg, inputs, w)
    ensures Inv(w, cfg) && Agrees(w, inputs)
  {
    hide Runs, Inv;
    StartOk(cfg);
    RunAgrees(Start(cfg), cfg, [], inputs, w);
    assert [] + inputs == inputs;
  }

  /** In every interleaving, what is still open and when it was sent is what the
      messages tell. */
  lemma OpenIsPending(cfg: Config, inputs: seq<Input>, w: World, key: Key, num: int)
    requires ValidConfig(cfg) && Runs(Start(cfg), cfg, inputs, w)
    ensures Open(inputs, key) <==> key in w.launched && 256 * key.ttl + key.i in w.pending
    ensures SentTime(inputs, num) == if num in w.sentAt then Some(w.sentAt[num]) else None
  {
    hide Inv, Runs, Open, SentTime, NumOf, Start;
    StateAgrees(cfg, inputs, w);
    assert AttemptAgrees(w, inputs, key) && NumberAgrees(w, inputs, num);
    if key in w.launched {
      OwnNumber(w, cfg, key);
    }
  }

  /** Where the messages so far say that the next one leads. */
  ghost predicate LeadsTo(told: seq<Input>, i: Input, w': World) {
    match i
    case Launch(key) => At(w', Sender(key), Sending) && At(w', Guard(key), Timing)
    case Match(n, num, addr, finish, mpls) =>
      At(w', Worker(n), match SentTime(told, num)
                        case None => Idle
                        case Some(start) => Looked(num, addr, finish - start, mpls))
    case Claim(n) =>
      var found := Found(told, n);
      found.Looked? &&
      var ttl, index := found.num / 256, found.num % 256;
      At(w', Worker(n), if Open(told, Key(ttl, index))
                        then Claimed(Key(ttl, index), Hop(ttl, true, found.addr, found.rtt, "", None, "", found.mpls, index))
                        else Dropping(found.num))
    case Expire(key) =>
      At(w', Guard(key), if Open(told, key) then Claimed(key, Hop(key.ttl, false, "", 0, "", None, "", [], key.i)) else Over)
    case _ => true
  }

  /** In every interleaving the messages tell what the next step leads to: a launch
      starts a sender and its guard; a reply is looked up by the time of its send;
      it is claimed, and the end of the waiting time gives a timeout, if and only
      if the attempt is still open. */
  lemma FateIsTold(cfg: Config, inputs: seq<Input>, w: World, i: Input)
    requires ValidConfig(cfg) && Runs(Start(cfg), cfg, inputs, w) && Enabled(w, cfg, i)
    ensures Shaped(w, cfg) && LeadsTo(inputs, i, Step(w, cfg, i))
  {
    hide Inv, Runs, Open, SentTime, Found, Start, Decode, NumOf;
    StateAgrees(cfg, inputs, w);
    StatesAreShaped(cfg, inputs, w);
    if i.Match? {
      assert NumberAgrees(w, inputs, i.num);
    } else if i.Claim? {
      assert ThreadAgrees(w, inputs, Worker(i.n));
      ClaimOfOpen(cfg, inputs, w, w.threads[Worker(i.n)].num);
    } else if i.Expire? {
      assert ThreadAgrees(w, inputs, Guard(i.key)) && AttemptAgrees(w, inputs, i.key);
    }
  }

  lemma ClaimOfOpen(cfg: Config, inputs: seq<Input>, w: World, num: int)
    requires Inv(w, cfg) && Agrees(w, inputs)
    ensures var key := Key(num / 256, num % 256);
      && (num in w.pending <==> Open(inputs, key))
      && (num in w.pending ==> Decode(num) == key)
  {
    hide Inv, Open, Agrees;
    var key := Key(num / 256, num % 256);
    assert AttemptAgrees(w, inputs, key) by { AllAgree(w, inputs, key); }
    if num in w.pending {
      ClaimedNumber(w, cfg, num);
      OwnNumber(w, cfg, Decode(num));
    }
    if key in w.launched {
      OwnNumber(w, cfg, key);
    }
  }

  lemma AllAgree(w: World, inputs: seq<Input>, key: Key)
    requires Agrees(w, inputs)
    ensures AttemptAgrees(w, inputs, key)
  {
  }

  // ----- Updates -----

  ghost predicate Applied(told: seq<Input>, u: Update) {
    exists j :: 0 <= j < |told| && told[j].Patch? && told[j].u == u
  }

  /** An update under way or applied belongs to an attempt that is used up. */
  ghost predicate UpdateSpent(w: World, told: seq<Input>, u: Update) {
    && (u in w.updates || Applied(told, u) ==> Spent(w, Key(u.ttl, u.i)))
    && (Applied(told, u) ==> u !in w.updates)
  }

  ghost predicate AppliedOnce(told: seq<Input>) {
    forall j, k :: 0 <= j < k < |told| && told[j].Patch? && told[k].Patch? ==> told[j].u != told[k].u
  }

  lemma OneMoreApplied(told: seq<Input>, i: Input, u: Update)
    ensures Applied(told + [i], u) <==> Applied(told, u) || (i.Patch? && i.u == u)
  {
    Before(told, i);
    if Applied(told, u) {
      var j :| 0 <= j < |told| && told[j].Patch? && told[j].u == u;
      assert (told + [i])[j] == told[j];
    }
    if i.Patch? && i.u == u {
      assert (told + [i])[|told|].Patch?;
    }
  }

  lemma NewUpdate(w: World, cfg: Config, i: Input, u: Update)
    requires Inv(w, cfg) && Shaped(w, cfg) && Enabled(w, cfg, i)
    ensures u in Step(w, cfg, i).updates && u !in w.updates ==> i.AddHop? && w.threads[i.t].key == Key(u.ttl, u.i)
    ensures i.Patch? ==> i.u in w.updates && Step(w, cfg, i).updates == w.updates - {i.u}
  {
    hide Inv, Shaped, NumOf, Decode, Add, UpdateHop;
    if i.AddHop? {
      HeldHop(w, cfg, i.t);
    }
  }

  lemma UpdateStaysSpent(w: World, cfg: Config, told: seq<Input>, i: Input, u: Update)
    requires Inv(w, cfg) && Shaped(w, cfg) && Enabled(w, cfg, i) && UpdateSpent(w, told, u)
    ensures UpdateSpent(Step(w, cfg, i), told + [i], u)
  {
    hide Inv, Shaped, Spent, Step, Applied, Enabled;
    OneMoreApplied(told, i, u);
    NewUpdate(w, cfg, i, u);
    if Spent(w, Key(u.ttl, u.i)) {
      StaysSpent(w, cfg, i, Key(u.ttl, u.i));
    }
    if i.AddHop? {
      OfferSpends(w, cfg, i.t);
    }
  }

  lemma {:induction false} RunApplies(w: World, cfg: Config, told: seq<Input>, inputs: seq<Input>, w': World)
    requires Inv(w, cfg) && Runs(w, cfg, inputs, w')
    requires AppliedOnce(told) && forall u :: UpdateSpent(w, told, u)
    ensures AppliedOnce(told + inputs)
    decreases |inputs|
  {
    hide Inv, Shaped, Step, Enabled, Applied, Spent;
    if inputs == [] {
      assert told + inputs == told;
    } else {
      var i, w1, more := inputs[0], Step(w, cfg, inputs[0]), told + [inputs[0]];
      StepKeeps(w, cfg, i);
      forall u ensures UpdateSpent(w1, more, u) {
        UpdateStaysSpent(w, cfg, told, i, u);
      }
      forall j, k | 0 <= j < k < |more| && more[j].Patch? && more[k].Patch? ensures more[j].u != more[k].u {
        AppliedAt(told, j);
        NewUpdate(w, cfg, i, more[k].u);
        assert UpdateSpent(w, told, more[k].u);
      }
      RunApplies(w1, cfg, more, inputs[1..], w');
      assert more + inputs[1..] == told + inputs;
    }
  }

  lemma AppliedAt(told: seq<Input>, j: nat)
    ensures j < |told| && told[j].Patch? ==> Applied(told, told[j].u)
  {
  }

  /** No update is applied twice. */
  lemma UpdatesAreOnce(cfg: Config, inputs: seq<Input>, w: World)
    requires ValidConfig(cfg) && Runs(Start(cfg), cfg, inputs, w)
    ensures AppliedOnce(inputs)
  {
    hide Inv, Runs;
    StartOk(cfg);
    RunApplies(Start(cfg), cfg, [], inputs, w);
    assert [] + inputs == inputs;
  }
}
