/** The ICMP tracer's attempts: senders, timeout guards and match workers racing
    for the pending mark of each probe, and the compare-and-swap on the final
    TTL, as interleaved atomic steps. */
module TraceProtocol {
  import opened Text
  import opened TraceAudit

  datatype Config = Config(maxHops: int, n: int, m: int, dst: string)

  /** The TTL has eight bits in a probe's number, and so has the index. */
  ghost predicate ValidConfig(cfg: Config) {
    1 <= cfg.maxHops <= 255 && cfg.m <= 256
  }

  datatype Key = Key(ttl: int, i: int)

  function NumOf(ttl: int, i: int): int {
    ttl * 256 + i % 256
  }

  function Decode(num: int): Key {
    Key((num % 0x10000) / 256 % 256, num % 256)
  }

  /** An attempt gets its own number exactly when both parts fit. */
  lemma DecodeExact(ttl: int, i: int)
    ensures Decode(NumOf(ttl, i)) == Key(ttl, i) <==> 0 <= ttl <= 255 && 0 <= i <= 255
  {
    var num := NumOf(ttl, i);
    assert num % 256 == i % 256;
    if 0 <= ttl <= 255 {
      assert num % 0x10000 == num;
      assert num / 256 == ttl;
    }
  }

  datatype Thread = Sender(key: Key) | Guard(key: Key) | Worker(n: nat)

  /** Where a thread is.  From Claimed to Adding it has won the pending mark. */
  datatype Pc =
    | Idle
    | Sending
    | Timing
    | Looked(num: int, addr: string, rtt: int, mpls: seq<string>)
    | Claimed(key: Key, hop: Hop)
    | Passed(key: Key, hop: Hop)
    | Comparing(key: Key, hop: Hop)
    | Swapping(key: Key, hop: Hop, seen: int)
    | Adding(key: Key, hop: Hop)
    | Dropping(num: int)
    | Over

  /** A metadata update under way for the hop at (ttl, idx), from attempt i. */
  datatype Update = Update(ttl: int, idx: int, i: int)

  datatype World = World(pending: set<int>, sentAt: map<int, int>, final: int, res: Result, launched: set<Key>,
                         threads: map<Thread, Pc>, updates: set<Update>, reached: set<int>)

  ghost function Start(cfg: Config): World
    requires ValidConfig(cfg)
  {
    World({}, map[], -1, Empty(cfg.maxHops), {}, map[], {}, {})
  }

  datatype Input =
    | Launch(key: Key)
    | SendFails(key: Key)
    | SendDone(key: Key, start: int)
    | Expire(key: Key)
    | Cancel(key: Key)
    | Match(n: nat, num: int, addr: string, finish: int, mpls: seq<string>)
    | Claim(n: nat)
    | CheckFinal(t: Thread)
    | CheckFull(key: Key)
    | LoadFinal(n: nat)
    | Swap(n: nat)
    | AddHop(t: Thread)
    | Drop(t: Thread)
    | Patch(u: Update, hop: Hop)

  ghost predicate At(w: World, t: Thread, pc: Pc) {
    t in w.threads && w.threads[t] == pc
  }

  /** Only attempts of the configured range are launched, each once. */
  ghost predicate Enabled(w: World, cfg: Config, i: Input) {
    match i
    case Launch(key) => key !in w.launched && 1 <= key.ttl <= cfg.maxHops && 0 <= key.i < cfg.m
    case SendFails(key) => At(w, Sender(key), Sending)
    case SendDone(key, _) => At(w, Sender(key), Sending)
    case Expire(key) => At(w, Guard(key), Timing)
    case Cancel(key) => At(w, Guard(key), Timing)
    case Match(n, num, _, _, _) => Worker(n) !in w.threads || w.threads[Worker(n)] == Idle
    case Claim(n) => Worker(n) in w.threads && w.threads[Worker(n)].Looked?
    case CheckFinal(t) => t in w.threads && w.threads[t].Claimed?
    case CheckFull(key) => Guard(key) in w.threads && w.threads[Guard(key)].Passed?
    case LoadFinal(n) => Worker(n) in w.threads && w.threads[Worker(n)].Comparing?
    case Swap(n) => Worker(n) in w.threads && w.threads[Worker(n)].Swapping?
    case AddHop(t) => t in w.threads && w.threads[t].Adding?
    case Drop(t) => t in w.threads && w.threads[t].Dropping?
    case Patch(u, _) => u in w.updates
  }

  function Go(w: World, t: Thread, pc: Pc): World {
    w.(threads := w.threads[t := pc])
  }

  function TimeoutHop(key: Key): Hop {
    Hop(key.ttl, false, "", 0, "", None, "", [], key.i)
  }

  function ReplyHop(key: Key, addr: string, rtt: int, mpls: seq<string>): Hop {
    Hop(key.ttl, true, addr, rtt, "", None, "", mpls, key.i)
  }

  /** What follows for a thread whose attempt is not kept. */
  function Quit(t: Thread, key: Key): Pc {
    if t.Worker? then Dropping(NumOf(key.ttl, key.i)) else Over
  }

  predicate Beyond(final: int, ttl: int) {
    final != -1 && ttl > final
  }

  function StepAdd(w: World, cfg: Config, t: Thread, key: Key, hop: Hop): World
    requires Holds(w.res, hop.ttl)
  {
    var a := Add(w.res, hop, key.i, cfg.n, cfg.m);
    Go(w.(res := a.r, updates := if a.ok && t.Worker? then w.updates + {Update(hop.ttl, a.idx, key.i)} else w.updates),
       t, Dropping(NumOf(key.ttl, key.i)))
  }

  /** The hop under way is for a TTL of the result. */
  ghost predicate Shaped(w: World, cfg: Config) {
    && |w.res.hops| == cfg.maxHops && |w.res.tailDone| == cfg.maxHops
    && forall t :: t in w.threads && w.threads[t].Adding? ==> Holds(w.res, w.threads[t].hop.ttl)
  }

  ghost function Step(w: World, cfg: Config, i: Input): World
    requires Shaped(w, cfg) && Enabled(w, cfg, i)
  {
    match i
    case Launch(key) =>
      w.(pending := w.pending + {NumOf(key.ttl, key.i)}, launched := w.launched + {key},
         threads := w.threads[Sender(key) := Sending][Guard(key) := Timing])
    case SendFails(key) => Go(w.(pending := w.pending - {NumOf(key.ttl, key.i)}), Sender(key), Over)
    case SendDone(key, start) => Go(w.(sentAt := w.sentAt[NumOf(key.ttl, key.i) := start]), Sender(key), Over)
    case Expire(key) =>
      var num := NumOf(key.ttl, key.i);
      Go(w.(pending := w.pending - {num}), Guard(key), if num in w.pending then Claimed(key, TimeoutHop(key)) else Over)
    case Cancel(key) => Go(w.(pending := w.pending - {NumOf(key.ttl, key.i)}), Guard(key), Over)
    case Match(n, num, addr, finish, mpls) =>
      Go(w, Worker(n), if num in w.sentAt then Looked(num, addr, finish - w.sentAt[num], mpls) else Idle)
    case Claim(n) =>
      var pc := w.threads[Worker(n)];
      var key := Decode(pc.num);
      Go(w.(pending := w.pending - {pc.num}), Worker(n),
         if pc.num in w.pending then Claimed(key, ReplyHop(key, pc.addr, pc.rtt, pc.mpls)) else Dropping(pc.num))
    case CheckFinal(t) =>
      var pc := w.threads[t];
      Go(w, t, if Beyond(w.final, pc.key.ttl) then Quit(t, pc.key)
               else if t.Guard? then Passed(pc.key, pc.hop)
               else if pc.hop.addr == cfg.dst then Comparing(pc.key, pc.hop)
               else Adding(pc.key, pc.hop))
    case CheckFull(key) =>
      var pc := w.threads[Guard(key)];
      Go(w, Guard(key), if key.ttl - 1 < |w.res.hops| && key.ttl >= 1 && |w.res.hops[key.ttl - 1]| >= cfg.n then Over
                        else Adding(pc.key, pc.hop))
    case LoadFinal(n) =>
      var pc := w.threads[Worker(n)];
      if w.final != -1 && pc.key.ttl >= w.final
      then Go(w.(reached := w.reached + {pc.key.ttl}), Worker(n), Adding(pc.key, pc.hop))
      else Go(w, Worker(n), Swapping(pc.key, pc.hop, w.final))
    case Swap(n) =>
      var pc := w.threads[Worker(n)];
      if w.final == pc.seen
      then Go(w.(final := pc.key.ttl, reached := w.reached + {pc.key.ttl}), Worker(n), Adding(pc.key, pc.hop))
      else Go(w, Worker(n), Comparing(pc.key, pc.hop))
    case AddHop(t) => StepAdd(w, cfg, t, w.threads[t].key, w.threads[t].hop)
    case Drop(t) => Go(w.(sentAt := w.sentAt - {w.threads[t].num}), t, if t.Worker? then Idle else Over)
    case Patch(u, hop) => w.(res := UpdateHop(w.res, u.ttl, u.idx, hop), updates := w.updates - {u})
  }

  // ----- The invariant -----

  /** The attempt whose mark a thread has won and not used yet. */
  predicate Holding(pc: Pc) {
    pc.Claimed? || pc.Passed? || pc.Comparing? || pc.Swapping? || pc.Adding?
  }

  ghost predicate InResult(r: Result, key: Key) {
    1 <= key.ttl <= |r.hops| && key.i in Indices(r.hops[key.ttl - 1])
  }

  ghost predicate LaunchedOk(w: World, cfg: Config, key: Key) {
    && (key in w.launched ==> 1 <= key.ttl <= cfg.maxHops && 0 <= key.i < cfg.m)
    && (InResult(w.res, key) ==> key in w.launched)
  }

  /** A pending mark is that of a launched attempt without a hop. */
  ghost predicate PendingOk(w: World, num: int) {
    num in w.pending ==>
      var key := Decode(num);
      key in w.launched && NumOf(key.ttl, key.i) == num && !InResult(w.res, key)
  }

  /** A mark that was won is no longer pending, and there is no hop yet. */
  ghost predicate ThreadOk(w: World, t: Thread) {
    t in w.threads && Holding(w.threads[t]) ==>
      var pc := w.threads[t];
      && pc.key in w.launched && NumOf(pc.key.ttl, pc.key.i) !in w.pending && !InResult(w.res, pc.key)
      && pc.hop.ttl == pc.key.ttl && pc.hop.attempt == pc.key.i
      && (pc.Swapping? ==> pc.seen == -1 || pc.key.ttl < pc.seen)
  }

  ghost predicate OneHolder(w: World, t: Thread, u: Thread) {
    (t in w.threads && u in w.threads && Holding(w.threads[t]) && Holding(w.threads[u])) ==>
      (w.threads[t].key == w.threads[u].key ==> t == u)
  }

  ghost predicate HopsOk(w: World, cfg: Config, ttl: int) {
    1 <= ttl <= |w.res.hops| && ttl <= |w.res.tailDone| ==> BucketOk(w.res.hops[ttl - 1], w.res.tailDone[ttl - 1], cfg.n)
  }

  /** An update is for the hop of the attempt it was started for. */
  ghost predicate UpdateOk(w: World, u: Update) {
    u in w.updates ==>
      1 <= u.ttl <= |w.res.hops| && 0 <= u.idx < |w.res.hops[u.ttl - 1]| && w.res.hops[u.ttl - 1][u.idx].attempt == u.i
  }

  /** The final TTL is the least that the destination was reached at. */
  ghost predicate FinalOk(w: World, cfg: Config) {
    && (w.final == -1 || (1 <= w.final <= cfg.maxHops && w.final in w.reached))
    && (forall ttl :: ttl in w.reached ==> w.final != -1 && w.final <= ttl)
  }

  ghost predicate Inv(w: World, cfg: Config) {
    && ValidConfig(cfg) && Shaped(w, cfg) && FinalOk(w, cfg)
    && (forall key :: LaunchedOk(w, cfg, key))
    && (forall num :: PendingOk(w, num))
    && (forall t :: ThreadOk(w, t))
    && (forall t, u :: OneHolder(w, t, u))
    && (forall ttl :: HopsOk(w, cfg, ttl))
    && (forall u :: UpdateOk(w, u))
    && (forall key :: Guard(key) in w.threads ==> key in w.launched)
  }

  lemma StartOk(cfg: Config)
    requires ValidConfig(cfg)
    ensures Inv(Start(cfg), cfg)
  {
    var w := Start(cfg);
    forall ttl ensures HopsOk(w, cfg, ttl) {
      if 1 <= ttl <= cfg.maxHops {
        assert w.res.hops[ttl - 1] == [];
      }
    }
    forall key ensures LaunchedOk(w, cfg, key) {
      if 1 <= key.ttl <= cfg.maxHops {
        assert w.res.hops[key.ttl - 1] == [];
      }
    }
  }

  // ----- Steps that leave the result alone -----

  /** The thread goes on with the mark it has, drops it, or wins a pending one. */
  ghost predicate Lawful(w: World, w': World, t: Thread) {
    && t in w'.threads && (t.Guard? ==> t in w.threads)
    && var pc := w'.threads[t];
    && w'.res == w.res && w'.updates == w.updates && w'.launched == w.launched && w'.pending <= w.pending
    && (forall u :: u != t ==> (u in w'.threads <==> u in w.threads))
    && (forall u :: u != t && u in w.threads ==> w'.threads[u] == w.threads[u])
    && (Holding(pc) ==>
          && pc.hop.ttl == pc.key.ttl && pc.hop.attempt == pc.key.i
          && (pc.Swapping? ==> pc.seen == -1 || pc.key.ttl < pc.seen)
          && (if t in w.threads && Holding(w.threads[t]) then pc.key == w.threads[t].key
              else NumOf(pc.key.ttl, pc.key.i) in w.pending && Decode(NumOf(pc.key.ttl, pc.key.i)) == pc.key
                   && NumOf(pc.key.ttl, pc.key.i) !in w'.pending))
  }

  lemma LawfulKeeps(w: World, cfg: Config, w': World, t: Thread)
    requires Inv(w, cfg) && Lawful(w, w', t) && FinalOk(w', cfg)
    ensures Inv(w', cfg)
  {
    hide InResult, BucketOk, FinalOk, Decode, NumOf;
    forall key ensures LaunchedOk(w', cfg, key) {
      assert LaunchedOk(w, cfg, key);
    }
    forall num ensures PendingOk(w', num) {
      assert PendingOk(w, num);
    }
    forall u ensures ThreadOk(w', u) {
      assert ThreadOk(w, u);
      if u == t && Holding(w'.threads[t]) {
        assert PendingOk(w, NumOf(w'.threads[t].key.ttl, w'.threads[t].key.i));
      }
    }
    forall u, v ensures OneHolder(w', u, v) {
      assert OneHolder(w, u, v) && ThreadOk(w, u) && ThreadOk(w, v);
    }
    forall ttl ensures HopsOk(w', cfg, ttl) {
      assert HopsOk(w, cfg, ttl);
    }
    forall u ensures UpdateOk(w', u) {
      assert UpdateOk(w, u);
    }
    forall u | u in w'.threads && w'.threads[u].Adding? ensures Holds(w'.res, w'.threads[u].hop.ttl) {
      assert ThreadOk(w', u);
      assert LaunchedOk(w', cfg, w'.threads[u].key);
    }
  }

  lemma FinalStepKeeps(w: World, cfg: Config, i: Input)
    requires Inv(w, cfg) && Enabled(w, cfg, i)
    requires i.CheckFinal? || i.CheckFull? || i.LoadFinal? || i.Swap?
    ensures Inv(Step(w, cfg, i), cfg)
  {
    hide InResult, BucketOk, Decode, NumOf;
    var w' := Step(w, cfg, i);
    var t := ActorOf(i);
    assert ThreadOk(w, t);
    if i.LoadFinal? || i.Swap? {
      assert LaunchedOk(w, cfg, w.threads[t].key);
    }
    LawfulKeeps(w, cfg, w', t);
  }

  lemma QuietStepKeeps(w: World, cfg: Config, i: Input)
    requires Inv(w, cfg) && Enabled(w, cfg, i)
    requires !i.Launch? && !i.AddHop? && !i.Patch?
    ensures Inv(Step(w, cfg, i), cfg)
  {
    if i.CheckFinal? || i.CheckFull? || i.LoadFinal? || i.Swap? {
      hide *;
      FinalStepKeeps(w, cfg, i);
    } else {
      hide InResult, BucketOk, Decode, NumOf;
      var w' := Step(w, cfg, i);
      var t := ActorOf(i);
      assert t in w.threads ==> ThreadOk(w, t);
      if i.Claim? {
        assert PendingOk(w, w.threads[t].num);
      } else if i.Expire? {
        ExpiredKey(w, cfg, i.key);
      }
      LawfulKeeps(w, cfg, w', t);
    }
  }

  /** The guard of an attempt wins the mark of that attempt. */
  lemma ExpiredKey(w: World, cfg: Config, key: Key)
    requires Inv(w, cfg) && Guard(key) in w.threads
    ensures NumOf(key.ttl, key.i) in w.pending ==> Decode(NumOf(key.ttl, key.i)) == key
  {
    assert LaunchedOk(w, cfg, key);
    DecodeExact(key.ttl, key.i);
  }

  function ActorOf(i: Input): Thread {
    match i
    case Launch(key) => Guard(key)
    case SendFails(key) => Sender(key)
    case SendDone(key, _) => Sender(key)
    case Expire(key) => Guard(key)
    case Cancel(key) => Guard(key)
    case Match(n, _, _, _, _) => Worker(n)
    case Claim(n) => Worker(n)
    case CheckFinal(t) => t
    case CheckFull(key) => Guard(key)
    case LoadFinal(n) => Worker(n)
    case Swap(n) => Worker(n)
    case AddHop(t) => t
    case Drop(t) => t
    case Patch(u, _) => Worker(0)
  }

  // ----- Launching, adding, patching -----

  lemma LaunchKeeps(w: World, cfg: Config, key: Key)
    requires Inv(w, cfg) && Enabled(w, cfg, Launch(key))
    ensures Inv(Step(w, cfg, Launch(key)), cfg)
  {
    hide InResult, BucketOk, Decode, NumOf;
    var w' := Step(w, cfg, Launch(key));
    DecodeExact(key.ttl, key.i);
    forall k ensures LaunchedOk(w', cfg, k) {
      assert LaunchedOk(w, cfg, k);
    }
    forall num ensures PendingOk(w', num) {
      assert PendingOk(w, num) && LaunchedOk(w, cfg, Decode(num));
    }
    forall t ensures ThreadOk(w', t) {
      assert ThreadOk(w, t);
      if t in w.threads && Holding(w.threads[t]) {
        assert LaunchedOk(w, cfg, w.threads[t].key);
        DecodeExact(w.threads[t].key.ttl, w.threads[t].key.i);
      }
    }
    forall t, u ensures OneHolder(w', t, u) {
      assert OneHolder(w, t, u);
    }
    forall ttl ensures HopsOk(w', cfg, ttl) {
      assert HopsOk(w, cfg, ttl);
    }
    forall u ensures UpdateOk(w', u) {
      assert UpdateOk(w, u);
    }
  }

  lemma AddKeeps(w: World, cfg: Config, t: Thread)
    requires Inv(w, cfg) && Enabled(w, cfg, AddHop(t))
    ensures Inv(Step(w, cfg, AddHop(t)), cfg)
  {
    hide BucketOk, Decode, NumOf, Indices, Passes;
    var w' := Step(w, cfg, AddHop(t));
    var key, hop := w.threads[t].key, w.threads[t].hop;
    assert ThreadOk(w, t) && LaunchedOk(w, cfg, key);
    var k := key.ttl - 1;
    var bucket := w.res.hops[k];
    AddedBucket(w, cfg, key, hop);
    forall x ensures LaunchedOk(w', cfg, x) {
      assert LaunchedOk(w, cfg, x);
    }
    forall num ensures PendingOk(w', num) {
      assert PendingOk(w, num);
    }
    forall u ensures ThreadOk(w', u) {
      assert ThreadOk(w, u) && OneHolder(w, t, u);
    }
    forall u, v ensures OneHolder(w', u, v) {
      assert OneHolder(w, u, v);
    }
    forall ttl ensures HopsOk(w', cfg, ttl) {
      assert HopsOk(w, cfg, ttl);
    }
    forall u ensures UpdateOk(w', u) {
      assert UpdateOk(w, u);
    }
  }

  lemma AddedBucket(w: World, cfg: Config, key: Key, hop: Hop)
    requires Inv(w, cfg) && 1 <= key.ttl <= cfg.maxHops && key.i >= 0
    requires hop.ttl == key.ttl && hop.attempt == key.i && !InResult(w.res, key)
    ensures var k := key.ttl - 1;
      var more := w.res.hops[k] + [hop];
      && Indices(more) == Indices(w.res.hops[k]) + {key.i}
      && (Passes(w.res.hops[k], w.res.tailDone[k], hop, key.i, cfg.n, cfg.m) ==>
            BucketOk(more, w.res.tailDone[k] || key.i >= cfg.n - 1, cfg.n))
  {
    hide Passes, BucketOk, Indices, LaunchedOk, PendingOk, ThreadOk, OneHolder, UpdateOk, FinalOk;
    var k := key.ttl - 1;
    assert HopsOk(w, cfg, key.ttl);
    OneMoreInBucket(w.res.hops[k], w.res.tailDone[k], hop, cfg.n, cfg.m);
  }

  lemma OneMoreInBucket(bucket: seq<Hop>, tailDone: bool, hop: Hop, n: int, m: int)
    requires BucketOk(bucket, tailDone, n) && hop.attempt >= 0 && hop.attempt !in Indices(bucket)
    ensures Indices(bucket + [hop]) == Indices(bucket) + {hop.attempt}
    ensures Passes(bucket, tailDone, hop, hop.attempt, n, m) ==>
      BucketOk(bucket + [hop], tailDone || hop.attempt >= n - 1, n)
  {
    hide Passes, Distinct;
    assert (bucket + [hop])[..|bucket|] == bucket;
    InIndices(bucket, hop.attempt);
    if Passes(bucket, tailDone, hop, hop.attempt, n, m) {
      AddKeepsBucket(bucket, tailDone, hop, hop.attempt, n, m);
    }
  }

  /** Only the metadata of one hop changes. */
  ghost predicate SameAttempts(a: seq<Hop>, b: seq<Hop>) {
    |a| == |b| && forall j :: 0 <= j < |a| ==> a[j].attempt == b[j].attempt
  }

  lemma {:induction false} SameAttemptsSame(a: seq<Hop>, b: seq<Hop>, n: int)
    requires SameAttempts(a, b)
    ensures Indices(a) == Indices(b) && Low(a, n) == Low(b, n)
  {
    if a != [] {
      SameAttemptsSame(a[..|a| - 1], b[..|b| - 1], n);
    }
  }

  lemma PatchSameBucket(a: seq<Hop>, b: seq<Hop>, tailDone: bool, n: int)
    requires SameAttempts(a, b)
    ensures Indices(a) == Indices(b) && (BucketOk(a, tailDone, n) <==> BucketOk(b, tailDone, n))
  {
    SameAttemptsSame(a, b, n);
  }

  lemma PatchKeeps(w: World, cfg: Config, u: Update, hop: Hop)
    requires Inv(w, cfg) && Enabled(w, cfg, Patch(u, hop))
    ensures Inv(Step(w, cfg, Patch(u, hop)), cfg)
  {
    hide BucketOk, Decode, NumOf, Indices;
    var w' := Step(w, cfg, Patch(u, hop));
    forall k | 0 <= k < |w.res.hops| ensures SameAttempts(w.res.hops[k], w'.res.hops[k]) {
    }
    forall k | 0 <= k < |w.res.hops| ensures Indices(w.res.hops[k]) == Indices(w'.res.hops[k]) {
      PatchSameBucket(w.res.hops[k], w'.res.hops[k], w.res.tailDone[k], cfg.n);
    }
    forall x ensures InResult(w'.res, x) <==> InResult(w.res, x) {
    }
    forall x ensures LaunchedOk(w', cfg, x) {
      assert LaunchedOk(w, cfg, x);
    }
    forall num ensures PendingOk(w', num) {
      assert PendingOk(w, num);
    }
    forall t ensures ThreadOk(w', t) {
      assert ThreadOk(w, t);
    }
    forall s, t ensures OneHolder(w', s, t) {
      assert OneHolder(w, s, t);
    }
    forall ttl ensures HopsOk(w', cfg, ttl) {
      assert HopsOk(w, cfg, ttl);
      if 1 <= ttl <= |w.res.hops| {
        PatchSameBucket(w.res.hops[ttl - 1], w'.res.hops[ttl - 1], w.res.tailDone[ttl - 1], cfg.n);
      }
    }
    forall v ensures UpdateOk(w', v) {
      assert UpdateOk(w, v);
    }
  }

  lemma StepKeeps(w: World, cfg: Config, i: Input)
    requires Inv(w, cfg) && Enabled(w, cfg, i)
    ensures Inv(Step(w, cfg, i), cfg)
  {
    hide Step;
    match i
    case Launch(key) => LaunchKeeps(w, cfg, key);
    case AddHop(t) => AddKeeps(w, cfg, t);
    case Patch(u, hop) => PatchKeeps(w, cfg, u, hop);
    case _ => QuietStepKeeps(w, cfg, i);
  }

  // ----- Every interleaving -----

  /** A run, step by step; every state of it is well formed. */
  ghost predicate Runs(w: World, cfg: Config, inputs: seq<Input>, w': World)
    decreases |inputs|
  {
    if inputs == [] then w == w'
    else Shaped(w, cfg) && Enabled(w, cfg, inputs[0]) && Runs(Step(w, cfg, inputs[0]), cfg, inputs[1..], w')
  }

  lemma {:induction false} RunKeeps(w: World, cfg: Config, inputs: seq<Input>, w': World)
    requires Inv(w, cfg) && Runs(w, cfg, inputs, w')
    ensures Inv(w', cfg)
    decreases |inputs|
  {
    hide Inv, Step, Enabled;
    if inputs != [] {
      StepKeeps(w, cfg, inputs[0]);
      RunKeeps(Step(w, cfg, inputs[0]), cfg, inputs[1..], w');
    }
  }

  /** No run gets stuck on an ill-formed state: what the environment may do can
      always be done. */
  lemma StatesAreShaped(cfg: Config, inputs: seq<Input>, w: World)
    requires ValidConfig(cfg) && Runs(Start(cfg), cfg, inputs, w)
    ensures Shaped(w, cfg)
  {
    hide Start;
    StartOk(cfg);
    RunKeeps(Start(cfg), cfg, inputs, w);
  }

  ghost predicate Reachable(w: World, cfg: Config) {
    ValidConfig(cfg) && exists inputs :: Runs(Start(cfg), cfg, inputs, w)
  }

  lemma ReachableOk(w: World, cfg: Config)
    requires Reachable(w, cfg)
    ensures Inv(w, cfg)
  {
    hide Inv, Start;
    var inputs :| Runs(Start(cfg), cfg, inputs, w);
    StartOk(cfg);
    RunKeeps(Start(cfg), cfg, inputs, w);
  }

  /** The hops kept for a TTL. */
  function BucketAt(r: Result, ttl: int): seq<Hop> {
    if 1 <= ttl <= |r.hops| then r.hops[ttl - 1] else []
  }

  /** Every attempt contributes at most one hop, only launched attempts do, and
      no TTL ever holds more than n hops. */
  lemma EachAttemptOnce(w: World, cfg: Config, ttl: int)
    requires Reachable(w, cfg)
    ensures |w.res.hops| == cfg.maxHops
    ensures var b := BucketAt(w.res, ttl);
      && Distinct(b) && (forall j :: 0 <= j < |b| ==> Key(ttl, b[j].attempt) in w.launched)
      && |b| <= if cfg.n >= 1 then cfg.n else 0
  {
    ReachableOk(w, cfg);
    assert HopsOk(w, cfg, ttl);
    var b := BucketAt(w.res, ttl);
    if 1 <= ttl <= cfg.maxHops {
      BucketIsBounded(b, w.res.tailDone[ttl - 1], cfg.n);
    }
    forall j | 0 <= j < |b| ensures Key(ttl, b[j].attempt) in w.launched {
      InIndices(b, b[j].attempt);
      assert LaunchedOk(w, cfg, Key(ttl, b[j].attempt));
    }
  }

  /** The final TTL is the least at which the destination answered, and it only
      goes down once it is set. */
  lemma FinalIsLeast(w: World, cfg: Config, i: Input)
    requires Reachable(w, cfg) && Enabled(w, cfg, i)
    ensures w.final != -1 <==> w.reached != {}
    ensures w.final != -1 ==> w.final in w.reached && forall ttl :: ttl in w.reached ==> w.final <= ttl
    ensures Shaped(w, cfg)
    ensures w.final != -1 ==> 1 <= Step(w, cfg, i).final <= w.final
  {
    hide BucketOk;
    ReachableOk(w, cfg);
    StepKeeps(w, cfg, i);
    if i.Swap? {
      assert ThreadOk(w, Worker(i.n));
    }
    if w.final == -1 {
      assert forall ttl :: ttl !in w.reached;
    }
  }

  /** A metadata update changes the hop of its own attempt and nothing else. */
  lemma UpdateHitsItsHop(w: World, cfg: Config, u: Update, hop: Hop, ttl: int, j: int)
    requires Reachable(w, cfg) && u in w.updates && 0 <= j < |BucketAt(w.res, ttl)|
    ensures Shaped(w, cfg)
    ensures var b, b' := BucketAt(w.res, ttl), BucketAt(Step(w, cfg, Patch(u, hop)).res, ttl);
      && |b'| == |b|
      && (ttl == u.ttl ==> 0 <= u.idx < |b| && b[u.idx].attempt == u.i)
      && b'[j] == if Key(ttl, b[j].attempt) != Key(u.ttl, u.i) then b[j]
                  else b[j].(host := if hop.host != "" then hop.host else b[j].host,
                             geo := if hop.geo.Some? then hop.geo else b[j].geo,
                             lang := if hop.lang != "" then hop.lang else b[j].lang)
  {
    ReachableOk(w, cfg);
    assert UpdateOk(w, u);
    EachAttemptOnce(w, cfg, ttl);
  }

  /** What is returned in the end: no TTL beyond the destination, none over n. */
  lemma ReducedResult(w: World, cfg: Config, ttl: int)
    requires Reachable(w, cfg)
    ensures var r := Reduce(w.res, if w.final == -1 then cfg.maxHops else w.final);
      && |r.hops| == (if w.final == -1 then cfg.maxHops else w.final)
      && BucketAt(r, ttl) == (if ttl <= |r.hops| then BucketAt(w.res, ttl) else [])
      && |BucketAt(r, ttl)| <= if cfg.n >= 1 then cfg.n else 0
  {
    ReachableOk(w, cfg);
    EachAttemptOnce(w, cfg, ttl);
  }
}
