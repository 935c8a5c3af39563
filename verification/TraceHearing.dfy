/** What a classic trace returns, told from the messages of a run alone: which
    replies and timeouts were offered, which of them were kept, and where the
    final TTL comes from. */
module TraceHearing {
  import opened Text
  import opened TraceAudit
  import opened TraceProtocol

  /** A hop without the metadata that updates may change. */
  function Bare(h: Hop): Hop {
    h.(host := "", geo := None, lang := "")
  }

  function Bares(bucket: seq<Hop>): seq<Hop> {
    seq(|bucket|, j requires 0 <= j < |bucket| => Bare(bucket[j]))
  }

  // ----- The messages behind a hop -----

  /** After the send of the probe a reply with its number came from this address
      with these labels, so much later. */
  ghost predicate Answered(told: seq<Input>, num: int, addr: string, rtt: int, mpls: seq<string>, s: nat, k: nat) {
    && s < k < |told| && told[s].SendDone? && NumOf(told[s].key.ttl, told[s].key.i) == num && told[s].key == Decode(num)
    && told[k].Match? && told[k].num == num && told[k].addr == addr && told[k].mpls == mpls
    && rtt == told[k].finish - told[s].start
  }

  ghost predicate HasAnswer(told: seq<Input>, num: int, addr: string, rtt: int, mpls: seq<string>) {
    exists s: nat, k: nat :: Answered(told, num, addr, rtt, mpls, s, k)
  }

  ghost predicate Expired(told: seq<Input>, key: Key) {
    exists e :: 0 <= e < |told| && told[e] == Expire(key)
  }

  /** A reply to the probe of this attempt, or the end of its waiting time. */
  ghost predicate Told(told: seq<Input>, h: Hop) {
    && h == Bare(h)
    && if h.success then HasAnswer(told, NumOf(h.ttl, h.attempt), h.addr, h.rtt, h.mpls)
       else Expired(told, Key(h.ttl, h.attempt)) && h.addr == "" && h.rtt == 0 && h.mpls == []
  }

  lemma AnsweredStill(told: seq<Input>, i: Input, num: int, addr: string, rtt: int, mpls: seq<string>)
    requires HasAnswer(told, num, addr, rtt, mpls)
    ensures HasAnswer(told + [i], num, addr, rtt, mpls)
  {
    hide NumOf, Decode;
    var s: nat, k: nat :| Answered(told, num, addr, rtt, mpls, s, k);
    assert Answered(told + [i], num, addr, rtt, mpls, s, k);
  }

  lemma ToldStill(told: seq<Input>, i: Input, h: Hop)
    requires Told(told, h)
    ensures Told(told + [i], h)
  {
    hide HasAnswer;
    if h.success {
      AnsweredStill(told, i, NumOf(h.ttl, h.attempt), h.addr, h.rtt, h.mpls);
    } else {
      var e :| 0 <= e < |told| && told[e] == Expire(Key(h.ttl, h.attempt));
      assert (told + [i])[e] == Expire(Key(h.ttl, h.attempt));
    }
  }

  ghost predicate SentTold(w: World, told: seq<Input>, num: int) {
    num in w.sentAt ==>
      && NumOf(Decode(num).ttl, Decode(num).i) == num
      && exists s :: 0 <= s < |told| && told[s] == SendDone(Decode(num), w.sentAt[num])
  }

  ghost predicate ThreadTold(w: World, cfg: Config, told: seq<Input>, t: Thread) {
    t in w.threads ==>
      var pc := w.threads[t];
      && (pc.Looked? ==> HasAnswer(told, pc.num, pc.addr, pc.rtt, pc.mpls))
      && (Holding(pc) ==> Told(told, pc.hop))
      && (pc.Comparing? || pc.Swapping? ==> pc.hop.success && pc.hop.addr == cfg.dst)
      && (pc.Adding? && pc.hop.success && pc.hop.addr == cfg.dst ==> pc.hop.ttl in w.reached)
      && (Holding(pc) ==> (pc.hop.success <==> !t.Guard?))
  }

  ghost predicate FromDestination(told: seq<Input>, cfg: Config, h: Hop, ttl: int) {
    Told(told, h) && h.success && h.addr == cfg.dst && h.ttl == ttl
  }

  ghost predicate ReachedTold(w: World, cfg: Config, told: seq<Input>, ttl: int) {
    ttl in w.reached ==> exists h :: FromDestination(told, cfg, h, ttl)
  }

  ghost predicate AllTold(w: World, cfg: Config, told: seq<Input>) {
    && (forall num :: SentTold(w, told, num))
    && (forall t :: ThreadTold(w, cfg, told, t))
    && (forall ttl :: ReachedTold(w, cfg, told, ttl))
    && (forall key :: Sender(key) in w.threads ==> key in w.launched)
  }

  /** Where a stored send time comes from. */
  lemma SentFrom(w: World, cfg: Config, i: Input, num: int)
    requires Shaped(w, cfg) && Enabled(w, cfg, i) && num in Step(w, cfg, i).sentAt
    ensures || (num in w.sentAt && Step(w, cfg, i).sentAt[num] == w.sentAt[num])
            || (i.SendDone? && NumOf(i.key.ttl, i.key.i) == num && Step(w, cfg, i).sentAt[num] == i.start)
  {
    hide NumOf, Decode, Shaped, Add, UpdateHop;
  }

  lemma SentStaysTold(w: World, cfg: Config, told: seq<Input>, i: Input, num: int)
    requires Inv(w, cfg) && AllTold(w, cfg, told) && Enabled(w, cfg, i) && Shaped(w, cfg)
    ensures SentTold(Step(w, cfg, i), told + [i], num)
  {
    hide Inv, Shaped, Step, NumOf, Decode;
    assert SentTold(w, told, num);
    var more := told + [i];
    assert more[|told|] == i;
    if num in Step(w, cfg, i).sentAt {
      SentFrom(w, cfg, i, num);
      if num in w.sentAt && Step(w, cfg, i).sentAt[num] == w.sentAt[num] {
        var s :| 0 <= s < |told| && told[s] == SendDone(Decode(num), w.sentAt[num]);
        assert more[s] == told[s];
      } else {
        assert i.key in w.launched;
        LaunchedDecodes(w, cfg, i.key);
        assert more[|told|] == SendDone(Decode(num), i.start);
      }
    }
  }

  lemma LaunchedDecodes(w: World, cfg: Config, key: Key)
    requires Inv(w, cfg) && key in w.launched
    ensures Decode(NumOf(key.ttl, key.i)) == key
  {
    assert LaunchedOk(w, cfg, key);
    DecodeExact(key.ttl, key.i);
  }

  /** What a thread that moves turns into, from where it was. */
  lemma MovedThread(w: World, cfg: Config, i: Input, t: Thread)
    requires Shaped(w, cfg) && Enabled(w, cfg, i) && !i.Launch? && !i.Patch? && t == ActorOf(i)
    ensures var w' := Step(w, cfg, i);
      t in w'.threads &&
      var pc' := w'.threads[t];
      && (pc'.Looked? ==> i.Match? && pc'.num in w.sentAt)
      && (pc'.Looked? ==> pc' == Looked(i.num, i.addr, i.finish - w.sentAt[i.num], i.mpls))
      && (Holding(pc') ==>
            if t in w.threads && Holding(w.threads[t]) then pc'.hop == w.threads[t].hop
            else if t.Guard? then i.Expire? && t == Guard(i.key) && pc'.hop == TimeoutHop(i.key)
            else t in w.threads && w.threads[t].Looked? &&
                 var pc := w.threads[t];
                 pc.num in w.pending && pc'.hop == ReplyHop(Decode(pc.num), pc.addr, pc.rtt, pc.mpls))
      && (pc'.Comparing? || pc'.Swapping? ==>
            && t in w.threads
            && (w.threads[t].Comparing? || w.threads[t].Swapping? || (pc'.hop.addr == cfg.dst && !t.Guard?)))
      && (pc'.Adding? ==>
            && t in w.threads && Holding(w.threads[t])
            && (t.Guard? || pc'.hop.addr != cfg.dst || w.threads[t].key.ttl in w'.reached))
      && w'.reached == (if t in w.threads && (w.threads[t].Comparing? || w.threads[t].Swapping?) && pc'.Adding?
                        then w.reached + {w.threads[t].key.ttl} else w.reached)
  {
    hide NumOf, Decode, Add, UpdateHop, TimeoutHop, ReplyHop;
  }

  lemma OthersStay(w: World, cfg: Config, i: Input, t: Thread)
    requires Shaped(w, cfg) && Enabled(w, cfg, i) && !i.Launch? && (i.Patch? || t != ActorOf(i))
    ensures var w' := Step(w, cfg, i);
      && (t in w'.threads <==> t in w.threads) && (t in w.threads ==> w'.threads[t] == w.threads[t])
      && w.reached <= w'.reached && w'.launched == w.launched
  {
    hide NumOf, Decode, Add, UpdateHop, TimeoutHop, ReplyHop;
  }

  lemma LaunchedThreads(w: World, cfg: Config, i: Input, t: Thread)
    requires Shaped(w, cfg) && Enabled(w, cfg, i) && i.Launch?
    ensures var w' := Step(w, cfg, i);
      && w'.reached == w.reached && w'.launched == w.launched + {i.key}
      && (t in w'.threads ==>
            || (t in w.threads && w'.threads[t] == w.threads[t])
            || (t == Sender(i.key) && w'.threads[t] == Sending)
            || (t == Guard(i.key) && w'.threads[t] == Timing))
  {
  }

  lemma SameThreadTold(w: World, w': World, cfg: Config, told: seq<Input>, i: Input, t: Thread)
    requires ThreadTold(w, cfg, told, t) && w.reached <= w'.reached
    requires t in w'.threads ==> t in w.threads && w'.threads[t] == w.threads[t]
    ensures ThreadTold(w', cfg, told + [i], t)
  {
    hide Told, HasAnswer;
    if t in w'.threads {
      var pc := w.threads[t];
      if pc.Looked? {
        AnsweredStill(told, i, pc.num, pc.addr, pc.rtt, pc.mpls);
      }
      if Holding(pc) {
        ToldStill(told, i, pc.hop);
      }
    }
  }

  lemma LookedTold(w: World, told: seq<Input>, i: Input)
    requires i.Match? && i.num in w.sentAt && SentTold(w, told, i.num)
    ensures HasAnswer(told + [i], i.num, i.addr, i.finish - w.sentAt[i.num], i.mpls)
  {
    hide NumOf, Decode;
    var s: nat :| s < |told| && told[s] == SendDone(Decode(i.num), w.sentAt[i.num]);
    assert Answered(told + [i], i.num, i.addr, i.finish - w.sentAt[i.num], i.mpls, s, |told|);
  }

  lemma ClaimedTold(w: World, cfg: Config, told: seq<Input>, num: int, addr: string, rtt: int, mpls: seq<string>)
    requires Inv(w, cfg) && num in w.pending && HasAnswer(told, num, addr, rtt, mpls)
    ensures Told(told, ReplyHop(Decode(num), addr, rtt, mpls))
  {
    hide Decode, NumOf, HasAnswer;
    assert PendingOk(w, num);
  }

  lemma ExpiredTold(told: seq<Input>, key: Key)
    ensures Told(told + [Expire(key)], TimeoutHop(key))
  {
    assert (told + [Expire(key)])[|told|] == Expire(key);
  }

  /** The thread that moved. */
  lemma MovedStaysTold(w: World, cfg: Config, told: seq<Input>, i: Input, t: Thread)
    requires Inv(w, cfg) && AllTold(w, cfg, told) && Enabled(w, cfg, i) && Shaped(w, cfg)
    requires !i.Launch? && !i.Patch? && t == ActorOf(i)
    ensures ThreadTold(Step(w, cfg, i), cfg, told + [i], t)
  {
    hide Inv, Shaped, Step, Told, HasAnswer, TimeoutHop, ReplyHop, NumOf, Decode, Enabled;
    MovedThread(w, cfg, i, t);
    HopKinds();
    assert ThreadTold(w, cfg, told, t);
    var pc' := Step(w, cfg, i).threads[t];
    if pc'.Looked? {
      assert SentTold(w, told, i.num);
      LookedTold(w, told, i);
    }
    if Holding(pc') {
      if t in w.threads && Holding(w.threads[t]) {
        ToldStill(told, i, pc'.hop);
        assert w.threads[t].hop.ttl == w.threads[t].key.ttl by { HeldHop(w, cfg, t); }
      } else if t.Guard? {
        ExpiredTold(told, i.key);
        assert i == Expire(i.key);
      } else {
        var pc := w.threads[t];
        AnsweredStill(told, i, pc.num, pc.addr, pc.rtt, pc.mpls);
        ClaimedTold(w, cfg, told + [i], pc.num, pc.addr, pc.rtt, pc.mpls);
      }
    }
  }

  lemma HeldHop(w: World, cfg: Config, t: Thread)
    requires Inv(w, cfg) && t in w.threads && Holding(w.threads[t])
    ensures w.threads[t].hop.ttl == w.threads[t].key.ttl && w.threads[t].hop.attempt == w.threads[t].key.i
  {
    assert ThreadOk(w, t);
  }

  lemma HopKinds()
    ensures forall key: Key :: !TimeoutHop(key).success
    ensures forall key: Key, addr: string, rtt: int, mpls: seq<string> :: ReplyHop(key, addr, rtt, mpls).success
  {
  }

  lemma ThreadStaysTold(w: World, cfg: Config, told: seq<Input>, i: Input, t: Thread)
    requires Inv(w, cfg) && AllTold(w, cfg, told) && Enabled(w, cfg, i) && Shaped(w, cfg)
    ensures ThreadTold(Step(w, cfg, i), cfg, told + [i], t)
  {
    assert ThreadTold(w, cfg, told, t);
    hide Inv, Shaped, Step, Enabled, AllTold;
    if i.Launch? {
      LaunchedThreads(w, cfg, i, t);
      if t in w.threads && t in Step(w, cfg, i).threads && Step(w, cfg, i).threads[t] == w.threads[t] {
        SameThreadTold(w, Step(w, cfg, i), cfg, told, i, t);
      }
    } else if !i.Patch? && t == ActorOf(i) {
      MovedStaysTold(w, cfg, told, i, t);
    } else {
      OthersStay(w, cfg, i, t);
      SameThreadTold(w, Step(w, cfg, i), cfg, told, i, t);
    }
  }

  lemma ReachedStaysTold(w: World, cfg: Config, told: seq<Input>, i: Input, ttl: int)
    requires Inv(w, cfg) && AllTold(w, cfg, told) && Enabled(w, cfg, i) && Shaped(w, cfg)
    ensures ReachedTold(Step(w, cfg, i), cfg, told + [i], ttl)
  {
    hide Inv, Shaped, Step, Told, Enabled, TimeoutHop, ReplyHop, NumOf, Decode;
    assert ReachedTold(w, cfg, told, ttl);
    var t := ActorOf(i);
    if ttl in w.reached {
      var h :| FromDestination(told, cfg, h, ttl);
      ToldStill(told, i, h);
      assert FromDestination(told + [i], cfg, h, ttl);
    } else if i.Launch? {
      LaunchedThreads(w, cfg, i, t);
    } else if i.Patch? {
      PatchKeepsReached(w, cfg, i);
    } else {
      MovedThread(w, cfg, i, t);
      assert ThreadTold(w, cfg, told, t);
      if ttl in Step(w, cfg, i).reached {
        HeldHop(w, cfg, t);
        ToldStill(told, i, w.threads[t].hop);
        assert FromDestination(told + [i], cfg, w.threads[t].hop, ttl);
      }
    }
  }

  lemma PatchKeepsReached(w: World, cfg: Config, i: Input)
    requires Shaped(w, cfg) && Enabled(w, cfg, i) && i.Patch?
    ensures Step(w, cfg, i).reached == w.reached
  {
  }

  lemma StepTold(w: World, cfg: Config, told: seq<Input>, i: Input)
    requires Inv(w, cfg) && AllTold(w, cfg, told) && Enabled(w, cfg, i) && Shaped(w, cfg)
    ensures AllTold(Step(w, cfg, i), cfg, told + [i])
  {
    hide Inv, Shaped, Enabled, SentTold, ThreadTold, ReachedTold, Step;
    var w' := Step(w, cfg, i);
    forall num ensures SentTold(w', told + [i], num) {
      SentStaysTold(w, cfg, told, i, num);
    }
    forall t ensures ThreadTold(w', cfg, told + [i], t) {
      ThreadStaysTold(w, cfg, told, i, t);
    }
    forall ttl ensures ReachedTold(w', cfg, told + [i], ttl) {
      ReachedStaysTold(w, cfg, told, i, ttl);
    }
    forall key | Sender(key) in w'.threads ensures key in w'.launched {
      SenderLaunched(w, cfg, i, key);
    }
  }

  lemma SenderLaunched(w: World, cfg: Config, i: Input, key: Key)
    requires Shaped(w, cfg) && Enabled(w, cfg, i) && (Sender(key) in w.threads ==> key in w.launched)
    ensures Sender(key) in Step(w, cfg, i).threads ==> key in Step(w, cfg, i).launched
  {
    hide NumOf, Decode, Add, UpdateHop;
  }

  // ----- What was offered and what was kept -----

  /** The hops offered to a TTL by a run, in order. */
  ghost function Offers(w: World, cfg: Config, inputs: seq<Input>, w': World, ttl: int): seq<Hop>
    requires Runs(w, cfg, inputs, w')
    decreases |inputs|
  {
    if inputs == [] then [] else Offered(w, cfg, inputs[0], ttl) + Offers(Step(w, cfg, inputs[0]), cfg, inputs[1..], w', ttl)
  }

  ghost function Offered(w: World, cfg: Config, i: Input, ttl: int): seq<Hop>
    requires Enabled(w, cfg, i)
  {
    if i.AddHop? && w.threads[i.t].hop.ttl == ttl then [w.threads[i.t].hop] else []
  }

  /** The mark of the attempt was won and used. */
  ghost predicate Spent(w: World, key: Key) {
    && key in w.launched && NumOf(key.ttl, key.i) !in w.pending
    && forall t :: t in w.threads && Holding(w.threads[t]) ==> w.threads[t].key != key
  }

  ghost predicate OfferOk(w: World, cfg: Config, told: seq<Input>, ttl: int, h: Hop) {
    && Told(told, h) && h.ttl == ttl && h.attempt >= 0 && Spent(w, Key(ttl, h.attempt))
    && (h.success && h.addr == cfg.dst ==> ttl in w.reached)
  }

  ghost predicate Booked(w: World, cfg: Config, told: seq<Input>, ttl: int, offered: seq<Hop>) {
    && AllTold(w, cfg, told)
    && (forall j :: 0 <= j < |offered| ==> OfferOk(w, cfg, told, ttl, offered[j]))
    && Distinct(offered)
    && SameBucket(w.res, ttl, Kept(offered, cfg.n, cfg.m))
  }

  ghost predicate SameBucket(r: Result, ttl: int, b: Bucket) {
    && 1 <= ttl <= |r.hops| && ttl <= |r.tailDone|
    && Bares(r.hops[ttl - 1]) == b.hops && r.tailDone[ttl - 1] == b.tailDone
  }

  /** Once spent, an attempt stays spent. */
  lemma StaysSpent(w: World, cfg: Config, i: Input, key: Key)
    requires Inv(w, cfg) && Enabled(w, cfg, i) && Shaped(w, cfg) && Spent(w, key)
    ensures Spent(Step(w, cfg, i), key)
  {
    hide InResult, BucketOk, Decode, NumOf, Add, UpdateHop, Shaped;
    var w' := Step(w, cfg, i);
    assert LaunchedOk(w, cfg, key);
    DecodeExact(key.ttl, key.i);
    if i.Launch? {
      DecodeExact(i.key.ttl, i.key.i);
    } else if i.Claim? {
      assert PendingOk(w, w.threads[Worker(i.n)].num);
    }
  }

  /** Whoever offers a hop has used up the attempt. */
  lemma OfferSpends(w: World, cfg: Config, t: Thread)
    requires Inv(w, cfg) && Enabled(w, cfg, AddHop(t)) && Shaped(w, cfg)
    ensures var key := w.threads[t].key; Spent(Step(w, cfg, AddHop(t)), key) && !Spent(w, key) && key.i >= 0
  {
    hide InResult, BucketOk, Decode, NumOf, Add, UpdateHop, Shaped;
    var w', key := Step(w, cfg, AddHop(t)), w.threads[t].key;
    assert ThreadOk(w, t) && LaunchedOk(w, cfg, key);
    forall u | u in w'.threads && Holding(w'.threads[u]) ensures w'.threads[u].key != key {
      assert OneHolder(w, t, u);
    }
  }

  lemma BaresMore(bucket: seq<Hop>, h: Hop)
    ensures Bares(bucket + [h]) == Bares(bucket) + [Bare(h)]
    ensures HasValid(Bares(bucket)) <==> HasValid(bucket)
  {
    forall j | 0 <= j < |bucket| ensures IsValidHop(Bares(bucket)[j]) <==> IsValidHop(bucket[j]) {
    }
    if HasValid(bucket) {
      var j :| 0 <= j < |bucket| && IsValidHop(bucket[j]);
      assert IsValidHop(Bares(bucket)[j]);
    }
  }

  lemma AddSameBucket(r: Result, ttl: int, offered: seq<Hop>, h: Hop, n: int, m: int)
    requires Holds(r, h.ttl) && h.ttl == ttl && h == Bare(h) && SameBucket(r, ttl, Kept(offered, n, m))
    ensures SameBucket(Add(r, h, h.attempt, n, m).r, ttl, Kept(offered + [h], n, m))
  {
    hide HasValid;
    assert (offered + [h])[..|offered|] == offered;
    BaresMore(r.hops[ttl - 1], h);
  }

  lemma AddOtherBucket(r: Result, ttl: int, b: Bucket, h: Hop, i: int, n: int, m: int)
    requires Holds(r, h.ttl) && h.ttl != ttl && SameBucket(r, ttl, b)
    ensures SameBucket(Add(r, h, i, n, m).r, ttl, b)
  {
    hide Passes;
  }

  lemma PatchSameBares(r: Result, ttl: int, b: Bucket, at: int, idx: int, u: Hop)
    requires SameBucket(r, ttl, b)
    ensures SameBucket(UpdateHop(r, at, idx, u), ttl, b)
  {
    var r' := UpdateHop(r, at, idx, u);
    var bucket, bucket' := r.hops[ttl - 1], r'.hops[ttl - 1];
    forall j | 0 <= j < |bucket| ensures j < |bucket'| && Bare(bucket'[j]) == Bare(bucket[j]) {
    }
    assert Bares(bucket') == Bares(bucket);
  }

  lemma StepSameBucket(w: World, cfg: Config, told: seq<Input>, i: Input, ttl: int, offered: seq<Hop>)
    requires Inv(w, cfg) && Shaped(w, cfg) && Enabled(w, cfg, i) && AllTold(w, cfg, told)
    requires SameBucket(w.res, ttl, Kept(offered, cfg.n, cfg.m))
    ensures SameBucket(Step(w, cfg, i).res, ttl, Kept(offered + Offered(w, cfg, i, ttl), cfg.n, cfg.m))
  {
    hide SameBucket, Kept, Inv, Add, UpdateHop, NumOf, Decode, Told;
    assert offered + [] == offered;
    if i.AddHop? {
      var h := w.threads[i.t].hop;
      HeldHop(w, cfg, i.t);
      assert ThreadTold(w, cfg, told, i.t);
      ToldIsBare(told, h);
      if h.ttl == ttl {
        AddSameBucket(w.res, ttl, offered, h, cfg.n, cfg.m);
      } else {
        AddOtherBucket(w.res, ttl, Kept(offered, cfg.n, cfg.m), h, h.attempt, cfg.n, cfg.m);
      }
    } else if i.Patch? {
      PatchSameBares(w.res, ttl, Kept(offered, cfg.n, cfg.m), i.u.ttl, i.u.idx, i.hop);
    }
  }

  lemma ToldIsBare(told: seq<Input>, h: Hop)
    requires Told(told, h)
    ensures h == Bare(h)
  {
  }

  lemma OfferStaysOk(w: World, cfg: Config, told: seq<Input>, i: Input, ttl: int, h: Hop)
    requires Inv(w, cfg) && Shaped(w, cfg) && Enabled(w, cfg, i) && OfferOk(w, cfg, told, ttl, h)
    ensures OfferOk(Step(w, cfg, i), cfg, told + [i], ttl, h)
  {
    hide Told, Spent, Inv, NumOf, Decode, Add, UpdateHop;
    ToldStill(told, i, h);
    StaysSpent(w, cfg, i, Key(ttl, h.attempt));
  }

  lemma NewOfferOk(w: World, cfg: Config, told: seq<Input>, i: Input, ttl: int)
    requires Inv(w, cfg) && Shaped(w, cfg) && Enabled(w, cfg, i) && AllTold(w, cfg, told)
    requires i.AddHop? && w.threads[i.t].hop.ttl == ttl
    ensures OfferOk(Step(w, cfg, i), cfg, told + [i], ttl, w.threads[i.t].hop)
    ensures !Spent(w, Key(ttl, w.threads[i.t].hop.attempt))
  {
    hide Told, Spent, Inv, NumOf, Decode, Add, UpdateHop, AllTold;
    assert ThreadTold(w, cfg, told, i.t) by { ThreadIsTold(w, cfg, told, i.t); }
    HeldHop(w, cfg, i.t);
    ToldStill(told, i, w.threads[i.t].hop);
    OfferSpends(w, cfg, i.t);
    var key := w.threads[i.t].key;
    assert key == Key(ttl, w.threads[i.t].hop.attempt);
  }

  lemma ThreadIsTold(w: World, cfg: Config, told: seq<Input>, t: Thread)
    requires AllTold(w, cfg, told)
    ensures ThreadTold(w, cfg, told, t)
  {
  }

  lemma StepBooked(w: World, cfg: Config, told: seq<Input>, i: Input, ttl: int, offered: seq<Hop>)
    requires Inv(w, cfg) && Shaped(w, cfg) && Enabled(w, cfg, i) && Booked(w, cfg, told, ttl, offered)
    ensures Booked(Step(w, cfg, i), cfg, told + [i], ttl, offered + Offered(w, cfg, i, ttl))
  {
    hide Inv, Shaped, AllTold, SameBucket, Kept, Step, Spent, Told;
    var w', more := Step(w, cfg, i), offered + Offered(w, cfg, i, ttl);
    StepTold(w, cfg, told, i);
    StepSameBucket(w, cfg, told, i, ttl, offered);
    if i.AddHop? && w.threads[i.t].hop.ttl == ttl {
      NewOfferOk(w, cfg, told, i, ttl);
    }
    forall j | 0 <= j < |more| ensures OfferOk(w', cfg, told + [i], ttl, more[j]) {
      if j < |offered| {
        assert OfferOk(w, cfg, told, ttl, offered[j]);
        OfferStaysOk(w, cfg, told, i, ttl, offered[j]);
      }
    }
    forall j, k | 0 <= j < k < |more| ensures more[j].attempt != more[k].attempt {
      assert OfferOk(w, cfg, told, ttl, offered[j]);
    }
  }

  lemma {:induction false} RunBooked(w: World, cfg: Config, told: seq<Input>, inputs: seq<Input>, w': World, ttl: int,
                                     offered: seq<Hop>)
    requires Inv(w, cfg) && Runs(w, cfg, inputs, w') && Booked(w, cfg, told, ttl, offered)
    ensures Booked(w', cfg, told + inputs, ttl, offered + Offers(w, cfg, inputs, w', ttl))
    decreases |inputs|
  {
    hide Inv, Shaped, Step, Enabled, Booked, Offered;
    if inputs == [] {
      assert told + inputs == told && offered + [] == offered;
    } else {
      var i := inputs[0];
      var now := offered + Offered(w, cfg, i, ttl);
      StepKeeps(w, cfg, i);
      StepBooked(w, cfg, told, i, ttl, offered);
      RunBooked(Step(w, cfg, i), cfg, told + [i], inputs[1..], w', ttl, now);
      assert told + [i] + inputs[1..] == told + inputs;
      assert now + Offers(Step(w, cfg, i), cfg, inputs[1..], w', ttl) == offered + Offers(w, cfg, inputs, w', ttl);
    }
  }

  lemma StartBooked(cfg: Config, ttl: int)
    requires ValidConfig(cfg) && 1 <= ttl <= cfg.maxHops
    ensures Booked(Start(cfg), cfg, [], ttl, [])
  {
    var w := Start(cfg);
    assert Bares(w.res.hops[ttl - 1]) == [];
  }

  /** In every interleaving: each hop offered to a TTL is a reply to its own probe,
      with the address, time and labels the messages tell, or the timeout of its own
      attempt, and no attempt is offered twice; kept are exactly the first n - 1
      indices and the first to settle the last place, in the order in which they
      were offered; and the final TTL is one from which the destination answered
      and no offered reply of the destination lies below it. */
  lemma ResultIsTold(cfg: Config, inputs: seq<Input>, w: World, ttl: int)
    requires ValidConfig(cfg) && Runs(Start(cfg), cfg, inputs, w) && 1 <= ttl <= cfg.maxHops && cfg.n >= 1
    ensures var offered := Offers(Start(cfg), cfg, inputs, w, ttl);
      && Bares(BucketAt(w.res, ttl)) == Chosen(offered, cfg.n, cfg.m)
      && (forall j :: 0 <= j < |offered| ==> offered[j].ttl == ttl && Told(inputs, offered[j]))
      && Distinct(offered)
      && (w.final != -1 ==> exists h :: FromDestination(inputs, cfg, h, w.final))
      && (forall j :: 0 <= j < |offered| && offered[j].success && offered[j].addr == cfg.dst ==>
            w.final != -1 && w.final <= ttl)
  {
    hide Inv, Runs, Start, Told, Spent, Kept, Chosen, Bares, Offers;
    StartOk(cfg);
    StartBooked(cfg, ttl);
    RunBooked(Start(cfg), cfg, [], inputs, w, ttl, []);
    var offered := Offers(Start(cfg), cfg, inputs, w, ttl);
    assert [] + inputs == inputs && [] + offered == offered;
    forall j | 0 <= j < |offered| ensures OfferOk(w, cfg, inputs, ttl, offered[j]) {
    }
    RunKeeps(Start(cfg), cfg, inputs, w);
    FinalReached(w, cfg);
    assert ReachedTold(w, cfg, inputs, w.final);
    KeptIsChosen(offered, cfg.n, cfg.m);
  }

  lemma FinalReached(w: World, cfg: Config)
    requires Inv(w, cfg)
    ensures w.final != -1 ==> w.final in w.reached
    ensures forall ttl :: ttl in w.reached ==> w.final != -1 && w.final <= ttl
  {
  }

  /** No attempt gets lost: a pending mark goes only when its send failed, the
      trace was cancelled, or some thread won it; and who has won it goes on
      until the hop is offered, unless the destination was already found at a
      lower TTL, or it is a timeout and the places are filled. */
  lemma NothingGetsLost(w: World, cfg: Config, i: Input, key: Key, t: Thread)
    requires Reachable(w, cfg) && Enabled(w, cfg, i) && !t.Sender?
    ensures Shaped(w, cfg)
    ensures var w' := Step(w, cfg, i);
      && (key in w.launched && NumOf(key.ttl, key.i) in w.pending && NumOf(key.ttl, key.i) !in w'.pending ==>
            || ((i.SendFails? || i.Cancel?) && NumOf(i.key.ttl, i.key.i) == NumOf(key.ttl, key.i))
            || exists u :: u in w'.threads && Holding(w'.threads[u]) && w'.threads[u].key == key)
      && (t in w.threads && Holding(w.threads[t]) && !(t in w'.threads && Holding(w'.threads[t])) ==>
            var pc := w.threads[t];
            || i == AddHop(t)
            || (i == CheckFinal(t) && w.final != -1 && w.final < pc.key.ttl)
            || (t.Guard? && i == CheckFull(t.key) && |BucketAt(w.res, t.key.ttl)| >= cfg.n))
  {
    hide InResult, BucketOk, Decode, NumOf, Add, UpdateHop, Reachable;
    ReachableOk(w, cfg);
    var w' := Step(w, cfg, i);
    if key in w.launched && NumOf(key.ttl, key.i) in w.pending && NumOf(key.ttl, key.i) !in w'.pending {
      LaunchedDecodes(w, cfg, key);
      if i.Claim? || i.Expire? {
        if i.Expire? {
          LaunchedDecodes(w, cfg, i.key);
        }
        assert Holding(w'.threads[ActorOf(i)]) && w'.threads[ActorOf(i)].key == key;
      }
    }
  }
}
