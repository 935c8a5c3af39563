/** Asynchronous GeoIP and PTR lookups of the MTR scheduler: what is in flight,
    how often a lookup was tried, and when it may be tried again. */
module MtrMetadata {
  import opened Text
  import opened MtrAccum

  const MAX_RETRIES := 3
  /** 30 s in nanoseconds. */
  const COOLDOWN := 30_000_000_000

  datatype Kind = GeoKind | HostKind

  /** The part of the configuration that decides about lookups. */
  datatype Config = Config(hasGeoSource: bool, rdns: bool, dn42: bool)

  datatype Patch = Patch(ip: string, host: string, geo: Option<Geo>)

  datatype Cached = Cached(host: string, geo: Option<Geo>)

  /** The three maps kept for one kind of lookup. */
  datatype Table = Table(inFlight: map<string, nat>, attempts: map<string, nat>, retryAt: map<string, int>)

  datatype State = State(geo: Table, host: Table, cache: map<string, Cached>)

  /** A successful lookup clears the history of its IP; a reset clears all. */
  datatype LogEntry = Launched(kind: Kind, ip: string, gen: nat, at: int) | Succeeded(kind: Kind, ip: string) | WasReset

  datatype Outcome = Outcome(s: State, log: seq<LogEntry>)

  /** Clock readings of one step, in the order in which they are taken. */
  datatype Clock = Clock(a: int, b: int, c: int, d: int)

  const EMPTY_TABLE := Table(map[], map[], map[])
  const EMPTY := State(EMPTY_TABLE, EMPTY_TABLE, map[])

  function TableOf(s: State, kind: Kind): Table {
    if kind.GeoKind? then s.geo else s.host
  }

  function WithTable(s: State, kind: Kind, t: Table): State {
    if kind.GeoKind? then s.(geo := t) else s.(host := t)
  }

  function AttemptsOf(t: Table, ip: string): nat {
    if ip in t.attempts then t.attempts[ip] else 0
  }

  function CachedOf(s: State, ip: string): Cached {
    if ip in s.cache then s.cache[ip] else Cached("", None)
  }

  /** Whether the retries of an IP are used up.  Asking starts, and later ends,
      the cooldown. */
  function RetriesExhausted(t: Table, ip: string, now: int): (Table, bool) {
    if AttemptsOf(t, ip) < MAX_RETRIES + 1 then (t.(retryAt := t.retryAt - {ip}), false)
    else if ip in t.retryAt then
      if now < t.retryAt[ip] then (t, true)
      else (t.(attempts := t.attempts - {ip}, retryAt := t.retryAt - {ip}), false)
    else (t.(retryAt := t.retryAt[ip := now + COOLDOWN]), true)
  }

  function StartLookup(t: Table, ip: string, gen: nat): Table {
    t.(inFlight := t.inFlight[ip := gen], attempts := t.attempts[ip := AttemptsOf(t, ip) + 1])
  }

  function LaunchGeo(s: State, ip: string, host: string, geo: Option<Geo>, cfg: Config, gen: nat, now: int,
                     allowIpOnly: bool): Outcome {
    if !cfg.hasGeoSource || geo.Some? || ip in s.geo.inFlight then Outcome(s, [])
    else
      var (t, exhausted) := RetriesExhausted(s.geo, ip, now);
      var name := if host != "" then host else CachedOf(s, ip).host;
      if exhausted || (cfg.dn42 && cfg.rdns && name == "" && !allowIpOnly) then Outcome(s.(geo := t), [])
      else Outcome(s.(geo := StartLookup(t, ip, gen)), [Launched(GeoKind, ip, gen, now)])
  }

  function LaunchHost(s: State, ip: string, host: string, cfg: Config, gen: nat, now: int): Outcome {
    if !cfg.rdns || host != "" || ip in s.host.inFlight then Outcome(s, [])
    else
      var (t, exhausted) := RetriesExhausted(s.host, ip, now);
      if exhausted then Outcome(s.(host := t), [])
      else Outcome(s.(host := StartLookup(t, ip, gen)), [Launched(HostKind, ip, gen, now)])
  }

  function Then(first: Outcome, second: Outcome): Outcome {
    Outcome(second.s, first.log + second.log)
  }

  /** A result for ip was seen whose host and geo are as given. */
  function LaunchLookups(s: State, ip: string, host: string, geo: Option<Geo>, cfg: Config, gen: nat, clock: Clock): Outcome {
    if ip == "" then Outcome(s, [])
    else
      var first := LaunchGeo(s, ip, host, geo, cfg, gen, clock.a, false);
      Then(first, LaunchHost(first.s, ip, host, cfg, gen, clock.b))
  }

  predicate Useful(kind: Kind, patch: Patch) {
    if kind.GeoKind? then patch.geo.Some? else patch.host != ""
  }

  function ForgetAttempts(t: Table, ip: string): Table {
    t.(attempts := t.attempts - {ip}, retryAt := t.retryAt - {ip})
  }

  function CachePatch(s: State, kind: Kind, patch: Patch): Outcome {
    var prev := CachedOf(s, patch.ip);
    if !Useful(kind, patch) then Outcome(s.(cache := s.cache[patch.ip := prev]), [])
    else
      var entry := if kind.GeoKind? then prev.(geo := if prev.geo.None? then patch.geo else prev.geo)
                   else prev.(host := if prev.host == "" then patch.host else prev.host);
      Outcome(WithTable(s, kind, ForgetAttempts(TableOf(s, kind), patch.ip)).(cache := s.cache[patch.ip := entry]),
              [Succeeded(kind, patch.ip)])
  }

  predicate NeedsRetry(kind: Kind, patch: Patch, cfg: Config) {
    if kind.GeoKind? then cfg.hasGeoSource && patch.geo.None? else cfg.rdns && patch.host == ""
  }

  /** parses says whether the address text parses as an IP. */
  function RetryLookup(s: State, kind: Kind, patch: Patch, parses: bool, cfg: Config, gen: nat, clock: Clock): Outcome {
    if !NeedsRetry(kind, patch, cfg) || !parses then Outcome(s, [])
    else
      var cached := CachedOf(s, patch.ip);
      if kind.HostKind? then LaunchHost(s, patch.ip, cached.host, cfg, gen, clock.b)
      else if !cfg.dn42 || !cfg.rdns || cached.host != "" then
        LaunchGeo(s, patch.ip, cached.host, cached.geo, cfg, gen, clock.b, true)
      else
        var (t, exhausted) := RetriesExhausted(s.host, patch.ip, clock.a);
        LaunchGeo(s.(host := t), patch.ip, cached.host, cached.geo, cfg, gen, clock.b, exhausted)
  }

  /** With DN42 the geo lookup waits for the host lookup to end. */
  function LaunchGeoAfterHost(s: State, kind: Kind, ip: string, parses: bool, cfg: Config, gen: nat, clock: Clock): Outcome {
    var cached := CachedOf(s, ip);
    if kind.GeoKind? || !cfg.dn42 || !cfg.rdns || !cfg.hasGeoSource || cached.geo.Some? then Outcome(s, [])
    else if cached.host != "" then
      if parses then LaunchGeo(s, ip, cached.host, cached.geo, cfg, gen, clock.d, true) else Outcome(s, [])
    else
      var (t, exhausted) := RetriesExhausted(s.host, ip, clock.c);
      if exhausted && parses then LaunchGeo(s.(host := t), ip, cached.host, cached.geo, cfg, gen, clock.d, true)
      else Outcome(s.(host := t), [])
  }

  function ClearInFlight(s: State, kind: Kind, ip: string): State {
    WithTable(s, kind, TableOf(s, kind).(inFlight := TableOf(s, kind).inFlight - {ip}))
  }

  /** A lookup of the current generation came back. */
  function ProcessResult(s: State, kind: Kind, patch: Patch, parses: bool, cfg: Config, gen: nat, clock: Clock): Outcome {
    if patch.ip == "" then Outcome(s, [])
    else
      var one := CachePatch(ClearInFlight(s, kind, patch.ip), kind, patch);
      var two := RetryLookup(one.s, kind, patch, parses, cfg, gen, clock);
      var three := LaunchGeoAfterHost(two.s, kind, patch.ip, parses, cfg, gen, clock);
      Then(one, Then(two, three))
  }

  // ----- Runs -----

  datatype Lookup = Lookup(kind: Kind, ip: string, gen: nat)

  /** The tables, the lookups that are running, and what has happened. */
  datatype World = World(s: State, gen: nat, running: multiset<Lookup>, log: seq<LogEntry>, now: int)

  datatype Input =
    | Seen(ip: string, host: string, geo: Option<Geo>, clock: Clock)
    | Returned(kind: Kind, patch: Patch, gen: nat, parses: bool, clock: Clock)
    | Abandoned(lookup: Lookup)
    | Reset

  function LookupsOf(log: seq<LogEntry>): multiset<Lookup> {
    if log == [] then multiset{}
    else
      var e := log[|log| - 1];
      LookupsOf(log[..|log| - 1]) + if e.Launched? then multiset{Lookup(e.kind, e.ip, e.gen)} else multiset{}
  }

  function Apply(w: World, o: Outcome, now: int): World {
    World(o.s, w.gen, w.running + LookupsOf(o.log), w.log + o.log, now)
  }

  ghost predicate Ticks(now: int, c: Clock) {
    now <= c.a <= c.b <= c.c <= c.d
  }

  /** What the environment may do: the clock is monotone, a result belongs to a
      running lookup, and only lookups of past generations are abandoned. */
  ghost predicate Enabled(w: World, i: Input) {
    match i
    case Seen(_, _, _, clock) => Ticks(w.now, clock)
    case Returned(kind, patch, gen, _, clock) => Ticks(w.now, clock) && Lookup(kind, patch.ip, gen) in w.running
    case Abandoned(l) => l in w.running && l.gen < w.gen
    case Reset => true
  }

  function Step(w: World, cfg: Config, i: Input): World {
    match i
    case Seen(ip, host, geo, clock) => Apply(w, LaunchLookups(w.s, ip, host, geo, cfg, w.gen, clock), clock.d)
    case Returned(kind, patch, gen, parses, clock) =>
      var w1 := w.(running := w.running - multiset{Lookup(kind, patch.ip, gen)});
      if gen != w.gen then w1.(now := clock.d)
      else Apply(w1, ProcessResult(w.s, kind, patch, parses, cfg, gen, clock), clock.d)
    case Abandoned(l) => w.(running := w.running - multiset{l})
    case Reset => w.(s := EMPTY, gen := w.gen + 1, log := w.log + [WasReset])
  }

  ghost predicate ValidRun(w: World, cfg: Config, inputs: seq<Input>)
    decreases |inputs|
  {
    inputs == [] || (Enabled(w, inputs[0]) && ValidRun(Step(w, cfg, inputs[0]), cfg, inputs[1..]))
  }

  function Run(w: World, cfg: Config, inputs: seq<Input>): World
    decreases |inputs|
  {
    if inputs == [] then w else Run(Step(w, cfg, inputs[0]), cfg, inputs[1..])
  }

  const START := World(EMPTY, 0, multiset{}, [], 0)

  /** The launch times of one kind and IP since its last success or reset. */
  function Since(log: seq<LogEntry>, kind: Kind, ip: string): seq<int> {
    if log == [] then []
    else
      var e := log[|log| - 1];
      var before := Since(log[..|log| - 1], kind, ip);
      match e
      case Launched(k, i, _, at) => if k == kind && i == ip then before + [at] else before
      case Succeeded(k, i) => if k == kind && i == ip then [] else before
      case WasReset => []
  }

  // ----- The invariant of one kind and IP -----

  ghost predicate Sorted(ts: seq<int>, now: int) {
    (forall i, j :: 0 <= i < j < |ts| ==> ts[i] <= ts[j]) && forall i :: 0 <= i < |ts| ==> ts[i] <= now
  }

  /** Five launches in a row span at least the cooldown. */
  ghost predicate FiveSpanCooldown(ts: seq<int>) {
    forall i :: 0 <= i && i + 4 < |ts| ==> ts[i + 4] - ts[i] >= COOLDOWN
  }

  /** attempts counts the launches since the last cooldown. */
  ghost predicate Counted(t: Table, ip: string, ts: seq<int>, now: int) {
    var a := AttemptsOf(t, ip);
    && a <= MAX_RETRIES + 1 && a <= |ts|
    && (a < |ts| ==> ts[|ts| - a - 1] + COOLDOWN <= now)
    && (0 < a < |ts| ==> ts[|ts| - a - 1] + COOLDOWN <= ts[|ts| - a])
    && (ip in t.retryAt ==> a == MAX_RETRIES + 1 && ts[|ts| - 1] + COOLDOWN <= t.retryAt[ip])
  }

  ghost predicate KeyOk(t: Table, ip: string, ts: seq<int>, now: int) {
    Sorted(ts, now) && FiveSpanCooldown(ts) && Counted(t, ip, ts, now)
  }

  lemma KeyOkLater(t: Table, ip: string, ts: seq<int>, now: int, later: int)
    requires KeyOk(t, ip, ts, now) && now <= later
    ensures KeyOk(t, ip, ts, later)
  {
  }

  lemma AskingKeepsKey(t: Table, ip: string, now: int, other: string, ts: seq<int>)
    requires KeyOk(t, other, ts, now)
    ensures KeyOk(RetriesExhausted(t, ip, now).0, other, ts, now)
  {
  }

  lemma StartKeepsKey(t: Table, ip: string, gen: nat, now: int, ts: seq<int>)
    requires KeyOk(t, ip, ts, now) && AttemptsOf(t, ip) <= MAX_RETRIES && ip !in t.retryAt
    ensures KeyOk(StartLookup(t, ip, gen), ip, ts + [now], now)
  {
    var a, n, more := AttemptsOf(t, ip) + 1, |ts|, ts + [now];
    if n >= 4 {
      assert more[n - a] <= more[n - a + 1] - COOLDOWN;
      assert more[n - 4] <= more[n - a];
    }
  }

  lemma NotExhaustedMayStart(t: Table, ip: string, now: int)
    requires AttemptsOf(t, ip) <= MAX_RETRIES + 1
    ensures var (t', exhausted) := RetriesExhausted(t, ip, now);
      !exhausted ==> AttemptsOf(t', ip) <= MAX_RETRIES && ip !in t'.retryAt
  {
  }

  // ----- The invariant of the whole -----

  /** A lookup of the current generation runs exactly for the IPs in flight. */
  ghost predicate FlightOk(t: Table, kind: Kind, ip: string, gen: nat, running: multiset<Lookup>) {
    && running[Lookup(kind, ip, gen)] == (if ip in t.inFlight then 1 else 0)
    && (ip in t.inFlight ==> t.inFlight[ip] == gen && ip != "")
    && forall g :: g > gen ==> running[Lookup(kind, ip, g)] == 0
  }

  ghost predicate EntryOk(s: State, kind: Kind, ip: string, gen: nat, running: multiset<Lookup>, log: seq<LogEntry>, now: int) {
    KeyOk(TableOf(s, kind), ip, Since(log, kind, ip), now) && FlightOk(TableOf(s, kind), kind, ip, gen, running)
  }

  ghost predicate StateOk(s: State, gen: nat, running: multiset<Lookup>, log: seq<LogEntry>, now: int) {
    forall kind, ip :: EntryOk(s, kind, ip, gen, running, log, now)
  }

  ghost predicate WorldOk(w: World) {
    StateOk(w.s, w.gen, w.running, w.log, w.now)
  }

  /** The outcome keeps the invariant at a later time. */
  ghost predicate Keeps(o: Outcome, gen: nat, running: multiset<Lookup>, log: seq<LogEntry>, now: int) {
    StateOk(o.s, gen, running + LookupsOf(o.log), log + o.log, now)
  }

  lemma NothingLogged(s: State, gen: nat, running: multiset<Lookup>, log: seq<LogEntry>, now: int)
    requires StateOk(s, gen, running, log, now)
    ensures Keeps(Outcome(s, []), gen, running, log, now)
  {
    assert log + [] == log;
    assert running + LookupsOf([]) == running;
  }

  lemma StateOkLater(s: State, gen: nat, running: multiset<Lookup>, log: seq<LogEntry>, now: int, later: int)
    requires StateOk(s, gen, running, log, now) && now <= later
    ensures StateOk(s, gen, running, log, later)
  {
    forall kind, ip ensures EntryOk(s, kind, ip, gen, running, log, later) {
      assert EntryOk(s, kind, ip, gen, running, log, now);
      KeyOkLater(TableOf(s, kind), ip, Since(log, kind, ip), now, later);
    }
  }

  lemma AskingOk(s: State, kind: Kind, ip: string, gen: nat, running: multiset<Lookup>, log: seq<LogEntry>, now: int)
    requires StateOk(s, gen, running, log, now)
    ensures StateOk(WithTable(s, kind, RetriesExhausted(TableOf(s, kind), ip, now).0), gen, running, log, now)
  {
    hide KeyOk;
    var s' := WithTable(s, kind, RetriesExhausted(TableOf(s, kind), ip, now).0);
    forall k, i ensures EntryOk(s', k, i, gen, running, log, now) {
      assert EntryOk(s, k, i, gen, running, log, now);
      AskingKeepsKey(TableOf(s, k), ip, now, i, Since(log, k, i));
    }
  }

  lemma StartOk(s: State, kind: Kind, ip: string, gen: nat, running: multiset<Lookup>, log: seq<LogEntry>, now: int)
    requires StateOk(s, gen, running, log, now)
    requires AttemptsOf(TableOf(s, kind), ip) <= MAX_RETRIES && ip !in TableOf(s, kind).retryAt
    requires ip !in TableOf(s, kind).inFlight && ip != ""
    ensures Keeps(Outcome(WithTable(s, kind, StartLookup(TableOf(s, kind), ip, gen)), [Launched(kind, ip, gen, now)]),
                  gen, running, log, now)
  {
    hide KeyOk;
    var e := Launched(kind, ip, gen, now);
    var s' := WithTable(s, kind, StartLookup(TableOf(s, kind), ip, gen));
    OneLookup(e);
    forall k, i ensures EntryOk(s', k, i, gen, running + LookupsOf([e]), log + [e], now) {
      assert EntryOk(s, k, i, gen, running, log, now);
      assert (log + [e])[..|log|] == log;
      if k == kind && i == ip {
        StartKeepsKey(TableOf(s, k), ip, gen, now, Since(log, k, i));
      } else if k == kind {
        OthersKeepKey(TableOf(s, k), StartLookup(TableOf(s, k), ip, gen), ip, i, Since(log, k, i), now);
      }
    }
  }

  lemma OneLookup(e: LogEntry)
    ensures LookupsOf([e]) == if e.Launched? then multiset{Lookup(e.kind, e.ip, e.gen)} else multiset{}
  {
    assert [e][..0] == [];
  }

  /** Only the entries of one IP differ. */
  lemma OthersKeepKey(t: Table, t': Table, ip: string, other: string, ts: seq<int>, now: int)
    requires other != ip && KeyOk(t, other, ts, now)
    requires AttemptsOf(t', other) == AttemptsOf(t, other)
    requires other in t'.retryAt ==> other in t.retryAt && t'.retryAt[other] == t.retryAt[other]
    ensures KeyOk(t', other, ts, now)
  {
  }

  lemma LaunchGeoOk(s: State, ip: string, host: string, geo: Option<Geo>, cfg: Config, gen: nat, now: int, allow: bool,
                    running: multiset<Lookup>, log: seq<LogEntry>)
    requires StateOk(s, gen, running, log, now) && ip != ""
    ensures Keeps(LaunchGeo(s, ip, host, geo, cfg, gen, now, allow), gen, running, log, now)
  {
    hide StateOk, Keeps, RetriesExhausted;
    NothingLogged(s, gen, running, log, now);
    var (t, exhausted) := RetriesExhausted(s.geo, ip, now);
    var asked := s.(geo := t);
    AskingOk(s, GeoKind, ip, gen, running, log, now);
    NothingLogged(asked, gen, running, log, now);
    AttemptsBounded(s, GeoKind, ip, gen, running, log, now);
    NotExhaustedMayStart(s.geo, ip, now);
    AskingKeepsFlights(s.geo, ip, now);
    if !exhausted && ip !in s.geo.inFlight {
      StartOk(asked, GeoKind, ip, gen, running, log, now);
    }
  }

  lemma LaunchHostOk(s: State, ip: string, host: string, cfg: Config, gen: nat, now: int,
                     running: multiset<Lookup>, log: seq<LogEntry>)
    requires StateOk(s, gen, running, log, now) && ip != ""
    ensures Keeps(LaunchHost(s, ip, host, cfg, gen, now), gen, running, log, now)
  {
    hide StateOk, Keeps, RetriesExhausted;
    NothingLogged(s, gen, running, log, now);
    var (t, exhausted) := RetriesExhausted(s.host, ip, now);
    var asked := s.(host := t);
    AskingOk(s, HostKind, ip, gen, running, log, now);
    NothingLogged(asked, gen, running, log, now);
    AttemptsBounded(s, HostKind, ip, gen, running, log, now);
    NotExhaustedMayStart(s.host, ip, now);
    AskingKeepsFlights(s.host, ip, now);
    if !exhausted && ip !in s.host.inFlight {
      StartOk(asked, HostKind, ip, gen, running, log, now);
    }
  }

  lemma AskingKeepsFlights(t: Table, ip: string, now: int)
    ensures RetriesExhausted(t, ip, now).0.inFlight == t.inFlight
  {
  }

  lemma AttemptsBounded(s: State, kind: Kind, ip: string, gen: nat, running: multiset<Lookup>, log: seq<LogEntry>, now: int)
    requires StateOk(s, gen, running, log, now)
    ensures AttemptsOf(TableOf(s, kind), ip) <= MAX_RETRIES + 1
    ensures ip in TableOf(s, kind).retryAt ==> AttemptsOf(TableOf(s, kind), ip) == MAX_RETRIES + 1
  {
    assert EntryOk(s, kind, ip, gen, running, log, now);
  }

  // ----- Composition of outcomes -----

  lemma {:induction false} LookupsConcat(a: seq<LogEntry>, b: seq<LogEntry>)
    ensures LookupsOf(a + b) == LookupsOf(a) + LookupsOf(b)
  {
    if b == [] {
      assert a + b == a;
    } else {
      LookupsConcat(a, b[..|b| - 1]);
      assert (a + b)[..|a + b| - 1] == a + b[..|b| - 1];
    }
  }

  /** If the second outcome keeps the invariant after the first, both do. */
  lemma ThenKeeps(first: Outcome, second: Outcome, gen: nat, running: multiset<Lookup>, log: seq<LogEntry>, now: int)
    requires Keeps(second, gen, running + LookupsOf(first.log), log + first.log, now)
    ensures Keeps(Then(first, second), gen, running, log, now)
  {
    LookupsConcat(first.log, second.log);
    assert log + (first.log + second.log) == (log + first.log) + second.log;
    assert running + LookupsOf(first.log + second.log) == (running + LookupsOf(first.log)) + LookupsOf(second.log);
  }

  lemma KeepsLater(o: Outcome, gen: nat, running: multiset<Lookup>, log: seq<LogEntry>, now: int, later: int)
    requires Keeps(o, gen, running, log, now) && now <= later
    ensures Keeps(o, gen, running, log, later)
  {
    StateOkLater(o.s, gen, running + LookupsOf(o.log), log + o.log, now, later);
  }

  lemma LaunchLookupsOk(s: State, ip: string, host: string, geo: Option<Geo>, cfg: Config, gen: nat, clock: Clock,
                        running: multiset<Lookup>, log: seq<LogEntry>, now: int)
    requires StateOk(s, gen, running, log, now) && Ticks(now, clock)
    ensures Keeps(LaunchLookups(s, ip, host, geo, cfg, gen, clock), gen, running, log, clock.d)
  {
    hide StateOk, LaunchGeo, LaunchHost;
    StateOkLater(s, gen, running, log, now, clock.a);
    StateOkLater(s, gen, running, log, now, clock.d);
    NothingLogged(s, gen, running, log, clock.d);
    if ip == "" { return; }
    var first := LaunchGeo(s, ip, host, geo, cfg, gen, clock.a, false);
    LaunchGeoOk(s, ip, host, geo, cfg, gen, clock.a, false, running, log);
    var running1, log1 := running + LookupsOf(first.log), log + first.log;
    StateOkLater(first.s, gen, running1, log1, clock.a, clock.b);
    var second := LaunchHost(first.s, ip, host, cfg, gen, clock.b);
    LaunchHostOk(first.s, ip, host, cfg, gen, clock.b, running1, log1);
    KeepsLater(second, gen, running1, log1, clock.b, clock.d);
    ThenKeeps(first, second, gen, running, log, clock.d);
  }

  /** Clearing the in-flight mark when the lookup ends. */
  lemma ClearOk(s: State, kind: Kind, ip: string, gen: nat, running: multiset<Lookup>, log: seq<LogEntry>, now: int)
    requires StateOk(s, gen, running, log, now) && Lookup(kind, ip, gen) in running
    ensures StateOk(ClearInFlight(s, kind, ip), gen, running - multiset{Lookup(kind, ip, gen)}, log, now)
  {
    hide KeyOk;
    var s' := ClearInFlight(s, kind, ip);
    forall k, i ensures EntryOk(s', k, i, gen, running - multiset{Lookup(kind, ip, gen)}, log, now) {
      assert EntryOk(s, k, i, gen, running, log, now);
      SameAttempts(TableOf(s, k), TableOf(s', k), i, Since(log, k, i), now);
    }
  }

  lemma SameAttempts(t: Table, t': Table, ip: string, ts: seq<int>, now: int)
    requires KeyOk(t, ip, ts, now) && t'.attempts == t.attempts && t'.retryAt == t.retryAt
    ensures KeyOk(t', ip, ts, now)
  {
  }

  lemma CachePatchOk(s: State, kind: Kind, patch: Patch, gen: nat, running: multiset<Lookup>, log: seq<LogEntry>, now: int)
    requires StateOk(s, gen, running, log, now)
    ensures Keeps(CachePatch(s, kind, patch), gen, running, log, now)
  {
    hide KeyOk;
    var o := CachePatch(s, kind, patch);
    if Useful(kind, patch) {
      var e := Succeeded(kind, patch.ip);
      OneLookup(e);
      forall k, i ensures EntryOk(o.s, k, i, gen, running + LookupsOf([e]), log + [e], now) {
        assert EntryOk(s, k, i, gen, running, log, now);
        assert (log + [e])[..|log|] == log;
        if k == kind && i == patch.ip {
          ForgottenOk(TableOf(s, k), i, now);
        } else if k == kind {
          OthersKeepKey(TableOf(s, k), ForgetAttempts(TableOf(s, k), patch.ip), patch.ip, i, Since(log, k, i), now);
        }
      }
    } else {
      forall k, i ensures EntryOk(o.s, k, i, gen, running, log, now) {
        assert EntryOk(s, k, i, gen, running, log, now);
      }
      NothingLogged(o.s, gen, running, log, now);
    }
  }

  lemma ForgottenOk(t: Table, ip: string, now: int)
    ensures KeyOk(ForgetAttempts(t, ip), ip, [], now)
  {
  }

  lemma RetryLookupOk(s: State, kind: Kind, patch: Patch, parses: bool, cfg: Config, gen: nat, clock: Clock,
                      running: multiset<Lookup>, log: seq<LogEntry>, now: int)
    requires StateOk(s, gen, running, log, now) && Ticks(now, clock) && patch.ip != ""
    ensures Keeps(RetryLookup(s, kind, patch, parses, cfg, gen, clock), gen, running, log, clock.b)
  {
    hide StateOk, Keeps, LaunchGeo, LaunchHost, RetriesExhausted;
    var cached := CachedOf(s, patch.ip);
    StateOkLater(s, gen, running, log, now, clock.a);
    StateOkLater(s, gen, running, log, clock.a, clock.b);
    NothingLogged(s, gen, running, log, clock.b);
    var (t, exhausted) := RetriesExhausted(s.host, patch.ip, clock.a);
    AskingOk(s, HostKind, patch.ip, gen, running, log, clock.a);
    StateOkLater(s.(host := t), gen, running, log, clock.a, clock.b);
    LaunchHostOk(s, patch.ip, cached.host, cfg, gen, clock.b, running, log);
    LaunchGeoOk(s, patch.ip, cached.host, cached.geo, cfg, gen, clock.b, true, running, log);
    LaunchGeoOk(s.(host := t), patch.ip, cached.host, cached.geo, cfg, gen, clock.b, exhausted, running, log);
  }

  lemma LaunchGeoAfterHostOk(s: State, kind: Kind, ip: string, parses: bool, cfg: Config, gen: nat, clock: Clock,
                             running: multiset<Lookup>, log: seq<LogEntry>, now: int)
    requires StateOk(s, gen, running, log, now) && now <= clock.c <= clock.d && ip != ""
    ensures Keeps(LaunchGeoAfterHost(s, kind, ip, parses, cfg, gen, clock), gen, running, log, clock.d)
  {
    hide StateOk, Keeps, LaunchGeo, RetriesExhausted;
    var cached := CachedOf(s, ip);
    StateOkLater(s, gen, running, log, now, clock.c);
    StateOkLater(s, gen, running, log, clock.c, clock.d);
    NothingLogged(s, gen, running, log, clock.d);
    LaunchGeoOk(s, ip, cached.host, cached.geo, cfg, gen, clock.d, true, running, log);
    var (t, exhausted) := RetriesExhausted(s.host, ip, clock.c);
    AskingOk(s, HostKind, ip, gen, running, log, clock.c);
    StateOkLater(s.(host := t), gen, running, log, clock.c, clock.d);
    NothingLogged(s.(host := t), gen, running, log, clock.d);
    LaunchGeoOk(s.(host := t), ip, cached.host, cached.geo, cfg, gen, clock.d, true, running, log);
  }

  lemma ProcessResultOk(s: State, kind: Kind, patch: Patch, parses: bool, cfg: Config, gen: nat, clock: Clock,
                        running: multiset<Lookup>, log: seq<LogEntry>, now: int)
    requires StateOk(s, gen, running, log, now) && Ticks(now, clock)
    requires patch.ip != "" && Lookup(kind, patch.ip, gen) in running
    ensures Keeps(ProcessResult(s, kind, patch, parses, cfg, gen, clock),
                  gen, running - multiset{Lookup(kind, patch.ip, gen)}, log, clock.d)
  {
    hide StateOk, ClearInFlight, CachePatch, RetryLookup, LaunchGeoAfterHost;
    var rest := running - multiset{Lookup(kind, patch.ip, gen)};
    ClearOk(s, kind, patch.ip, gen, running, log, now);
    var one := CachePatch(ClearInFlight(s, kind, patch.ip), kind, patch);
    CachePatchOk(ClearInFlight(s, kind, patch.ip), kind, patch, gen, rest, log, now);
    var running1, log1 := rest + LookupsOf(one.log), log + one.log;
    var two := RetryLookup(one.s, kind, patch, parses, cfg, gen, clock);
    RetryLookupOk(one.s, kind, patch, parses, cfg, gen, clock, running1, log1, now);
    var running2, log2 := running1 + LookupsOf(two.log), log1 + two.log;
    var three := LaunchGeoAfterHost(two.s, kind, patch.ip, parses, cfg, gen, clock);
    LaunchGeoAfterHostOk(two.s, kind, patch.ip, parses, cfg, gen, clock, running2, log2, clock.b);
    ThenKeeps(two, three, gen, running1, log1, clock.d);
    ThenKeeps(one, Then(two, three), gen, rest, log, clock.d);
  }

  // ----- Every run -----

  lemma StepKeepsWorld(w: World, cfg: Config, i: Input)
    requires WorldOk(w) && Enabled(w, i)
    ensures WorldOk(Step(w, cfg, i))
  {
    hide StateOk, LaunchLookups, ProcessResult;
    match i
    case Seen(ip, host, geo, clock) =>
      LaunchLookupsOk(w.s, ip, host, geo, cfg, w.gen, clock, w.running, w.log, w.now);
    case Returned(kind, patch, gen, parses, clock) =>
      if gen != w.gen {
        StaleEnds(w, Lookup(kind, patch.ip, gen));
        StateOkLater(w.s, w.gen, w.running - multiset{Lookup(kind, patch.ip, gen)}, w.log, w.now, clock.d);
      } else {
        RunningHasIp(w, kind, patch.ip);
        ProcessResultOk(w.s, kind, patch, parses, cfg, gen, clock, w.running, w.log, w.now);
      }
    case Abandoned(l) =>
      StaleEnds(w, l);
    case Reset =>
      ResetOk(w);
  }

  lemma RunningHasIp(w: World, kind: Kind, ip: string)
    requires WorldOk(w) && Lookup(kind, ip, w.gen) in w.running
    ensures ip != ""
  {
    assert EntryOk(w.s, kind, ip, w.gen, w.running, w.log, w.now);
  }

  lemma StaleEnds(w: World, l: Lookup)
    requires WorldOk(w) && l.gen != w.gen
    ensures WorldOk(w.(running := w.running - multiset{l}))
  {
    hide KeyOk;
    forall k, i ensures EntryOk(w.s, k, i, w.gen, w.running - multiset{l}, w.log, w.now) {
      assert EntryOk(w.s, k, i, w.gen, w.running, w.log, w.now);
    }
  }

  lemma ResetOk(w: World)
    requires WorldOk(w)
    ensures WorldOk(w.(s := EMPTY, gen := w.gen + 1, log := w.log + [WasReset]))
  {
    var after := w.(s := EMPTY, gen := w.gen + 1, log := w.log + [WasReset]);
    assert after.log[..|w.log|] == w.log;
    forall k, i ensures EntryOk(after.s, k, i, after.gen, after.running, after.log, after.now) {
      assert EntryOk(w.s, k, i, w.gen, w.running, w.log, w.now);
    }
  }

  lemma StartIsOk()
    ensures WorldOk(START)
  {
    forall k, i ensures EntryOk(START.s, k, i, 0, multiset{}, [], 0) {
    }
  }

  lemma {:induction false} RunKeepsWorld(w: World, cfg: Config, inputs: seq<Input>)
    requires WorldOk(w) && ValidRun(w, cfg, inputs)
    ensures WorldOk(Run(w, cfg, inputs))
    decreases |inputs|
  {
    hide WorldOk, Step;
    if inputs != [] {
      StepKeepsWorld(w, cfg, inputs[0]);
      RunKeepsWorld(Step(w, cfg, inputs[0]), cfg, inputs[1..]);
    }
  }

  /** In every run, for every kind and IP: one lookup at most runs in the
      current generation, at most four launches are counted, a deadline is kept
      only after the fourth, and any five launches without a success or reset
      between them span the cooldown. */
  lemma LookupDiscipline(cfg: Config, inputs: seq<Input>, kind: Kind, ip: string)
    requires ValidRun(START, cfg, inputs)
    ensures var w := Run(START, cfg, inputs);
      var t, ts := TableOf(w.s, kind), Since(w.log, kind, ip);
      && w.running[Lookup(kind, ip, w.gen)] == (if ip in t.inFlight then 1 else 0)
      && AttemptsOf(t, ip) <= 4
      && (ip in t.retryAt ==> AttemptsOf(t, ip) == 4)
      && FiveSpanCooldown(ts)
  {
    StartIsOk();
    RunKeepsWorld(START, cfg, inputs);
    var w := Run(START, cfg, inputs);
    assert EntryOk(w.s, kind, ip, w.gen, w.running, w.log, w.now);
  }
}
