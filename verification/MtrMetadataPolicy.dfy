/** The metadata lookups of one address, told for that address alone: what is
    known of it, what is being looked up, how often that was tried in vain, and
    until when it rests.  The tables of the scheduler behave, for each address,
    exactly like this, whatever happens to other addresses. */
module MtrMetadataPolicy {
  import opened Text
  import opened MtrAccum
  import opened MtrMetadata

  /** One kind of lookup: under way, launches without success since the last rest,
      and the end of the rest. */
  datatype Tries = Tries(busy: bool, count: nat, until: Option<int>)

  datatype Known = Known(host: string, geo: Option<Geo>, geoTries: Tries, hostTries: Tries)

  const NO_TRIES := Tries(false, 0, None)
  const STRANGER := Known("", None, NO_TRIES, NO_TRIES)

  /** What follows, and which lookups are launched on the way, and when. */
  datatype Next = Next(k: Known, launched: seq<(Kind, int)>)

  /** Four launches in vain, and it is time for a rest. */
  predicate Tired(t: Tries) {
    t.count >= 4
  }

  predicate Resting(t: Tries, now: int) {
    Tired(t) && (t.until.None? || now < t.until.value)
  }

  /** Whoever asks a tired one first fixes the end of its rest, 30 seconds later;
      whoever asks after that end finds it as new. */
  function Asked(t: Tries, now: int): Tries {
    if !Tired(t) then t.(until := None)
    else if t.until.None? then t.(until := Some(now + 30_000_000_000))
    else if now < t.until.value then t
    else Tries(t.busy, 0, None)
  }

  function Started(t: Tries): Tries {
    Tries(true, t.count + 1, t.until)
  }

  function TryGeo(k: Known, cfg: Config, now: int, may: bool): Next {
    if k.geoTries.busy then Next(k, [])
    else if Resting(k.geoTries, now) || !may then Next(k.(geoTries := Asked(k.geoTries, now)), [])
    else Next(k.(geoTries := Started(Asked(k.geoTries, now))), [(GeoKind, now)])
  }

  function TryHost(k: Known, now: int): Next {
    if k.hostTries.busy then Next(k, [])
    else if Resting(k.hostTries, now) then Next(k.(hostTries := Asked(k.hostTries, now)), [])
    else Next(k.(hostTries := Started(Asked(k.hostTries, now))), [(HostKind, now)])
  }

  function Both(first: Next, second: Next): Next {
    Next(second.k, first.launched + second.launched)
  }

  /** A DN42 location is asked for by name, so it waits for the name. */
  predicate WaitsForName(cfg: Config, host: string) {
    cfg.dn42 && cfg.rdns && host == ""
  }

  /** A reply of the address was seen with this host and location: what is missing
      is looked up. */
  function OnSeen(k: Known, host: string, geo: Option<Geo>, cfg: Config, clock: Clock): Next {
    var first := if cfg.hasGeoSource && geo.None?
                 then TryGeo(k, cfg, clock.a, !WaitsForName(cfg, if host != "" then host else k.host))
                 else Next(k, []);
    Both(first, if cfg.rdns && host == "" then TryHost(first.k, clock.b) else Next(first.k, []))
  }

  /** What a lookup brought is kept unless something is known already; a success
      ends the count. */
  function Learned(k: Known, kind: Kind, host: string, geo: Option<Geo>): Known {
    if kind.GeoKind? then
      if geo.None? then k.(geoTries := k.geoTries.(busy := false))
      else k.(geo := if k.geo.None? then geo else k.geo, geoTries := NO_TRIES)
    else
      if host == "" then k.(hostTries := k.hostTries.(busy := false))
      else k.(host := if k.host == "" then host else k.host, hostTries := NO_TRIES)
  }

  /** A lookup that brought nothing is tried again at once. */
  function Again(k: Known, kind: Kind, host: string, geo: Option<Geo>, cfg: Config, clock: Clock): Next {
    if kind.HostKind? then
      if cfg.rdns && host == "" && k.host == "" then TryHost(k, clock.b) else Next(k, [])
    else if !cfg.hasGeoSource || geo.Some? then Next(k, [])
    else
      var alone := Resting(k.hostTries, clock.a);
      var k1 := if WaitsForName(cfg, k.host) then k.(hostTries := Asked(k.hostTries, clock.a)) else k;
      if k.geo.Some? then Next(k1, []) else TryGeo(k1, cfg, clock.b, !WaitsForName(cfg, k.host) || alone)
  }

  /** With DN42 the location follows the name, or its failure. */
  function Follow(k: Known, kind: Kind, parses: bool, cfg: Config, clock: Clock): Next {
    if kind.GeoKind? || !cfg.dn42 || !cfg.rdns || !cfg.hasGeoSource || k.geo.Some? then Next(k, [])
    else if k.host != "" then (if parses then TryGeo(k, cfg, clock.d, true) else Next(k, []))
    else
      var k1 := k.(hostTries := Asked(k.hostTries, clock.c));
      if Resting(k.hostTries, clock.c) && parses then TryGeo(k1, cfg, clock.d, true) else Next(k1, [])
  }

  /** A lookup of the address came back. */
  function OnReturned(k: Known, kind: Kind, host: string, geo: Option<Geo>, parses: bool, cfg: Config, clock: Clock): Next {
    var k1 := Learned(k, kind, host, geo);
    var two := if parses then Again(k1, kind, host, geo, cfg, clock) else Next(k1, []);
    Both(two, Follow(two.k, kind, parses, cfg, clock))
  }

  // ----- The tables, one address at a time -----

  function TriesIn(t: Table, ip: string): Tries {
    Tries(ip in t.inFlight, AttemptsOf(t, ip), if ip in t.retryAt then Some(t.retryAt[ip]) else None)
  }

  function KnownIn(s: State, ip: string): Known {
    Known(CachedOf(s, ip).host, CachedOf(s, ip).geo, TriesIn(s.geo, ip), TriesIn(s.host, ip))
  }

  /** The launches of the log that are for the address. */
  function LaunchedFor(log: seq<LogEntry>, ip: string): seq<(Kind, int)> {
    if log == [] then []
    else
      var e := log[|log| - 1];
      LaunchedFor(log[..|log| - 1], ip) + if e.Launched? && e.ip == ip then [(e.kind, e.at)] else []
  }

  lemma {:induction false} LaunchedForBoth(a: seq<LogEntry>, b: seq<LogEntry>, ip: string)
    ensures LaunchedFor(a + b, ip) == LaunchedFor(a, ip) + LaunchedFor(b, ip)
  {
    if b == [] {
      assert a + b == a;
    } else {
      LaunchedForBoth(a, b[..|b| - 1], ip);
      assert (a + b)[..|a + b| - 1] == a + b[..|b| - 1];
    }
  }

  function NextIn(o: Outcome, ip: string): Next {
    Next(KnownIn(o.s, ip), LaunchedFor(o.log, ip))
  }

  lemma AskedIn(t: Table, ip: string, now: int, other: string)
    ensures var r := RetriesExhausted(t, ip, now);
      && TriesIn(r.0, other) == (if other == ip then Asked(TriesIn(t, ip), now) else TriesIn(t, other))
      && r.1 == Resting(TriesIn(t, ip), now)
  {
  }

  lemma StartedIn(t: Table, ip: string, gen: nat, other: string)
    ensures TriesIn(StartLookup(t, ip, gen), other) == if other == ip then Started(TriesIn(t, ip)) else TriesIn(t, other)
  {
  }

  lemma OneLaunch(kind: Kind, ip: string, gen: nat, now: int, other: string)
    ensures LaunchedFor([Launched(kind, ip, gen, now)], other) == if other == ip then [(kind, now)] else []
    ensures LaunchedFor([], other) == []
  {
    var e := [Launched(kind, ip, gen, now)];
    assert e[..0] == [];
  }

  lemma GeoTried(s: State, ip: string, host: string, geo: Option<Geo>, cfg: Config, gen: nat, now: int, allow: bool, other: string)
    ensures var may := allow || !WaitsForName(cfg, if host != "" then host else CachedOf(s, ip).host);
      NextIn(LaunchGeo(s, ip, host, geo, cfg, gen, now, allow), other) ==
        if other == ip && cfg.hasGeoSource && geo.None? then TryGeo(KnownIn(s, ip), cfg, now, may)
        else Next(KnownIn(s, other), [])
  {
    hide RetriesExhausted, StartLookup, Asked, Started, TriesIn, Resting;
    AskedIn(s.geo, ip, now, other);
    StartedIn(RetriesExhausted(s.geo, ip, now).0, ip, gen, other);
    AskedIn(s.geo, ip, now, ip);
    OneLaunch(GeoKind, ip, gen, now, other);
    BusyIn(s.geo, ip);
  }

  lemma BusyIn(t: Table, ip: string)
    ensures TriesIn(t, ip).busy <==> ip in t.inFlight
  {
  }

  lemma HostTried(s: State, ip: string, host: string, cfg: Config, gen: nat, now: int, other: string)
    ensures NextIn(LaunchHost(s, ip, host, cfg, gen, now), other) ==
      if other == ip && cfg.rdns && host == "" then TryHost(KnownIn(s, ip), now) else Next(KnownIn(s, other), [])
  {
    hide RetriesExhausted, StartLookup, Asked, Started, TriesIn, Resting;
    AskedIn(s.host, ip, now, other);
    StartedIn(RetriesExhausted(s.host, ip, now).0, ip, gen, other);
    AskedIn(s.host, ip, now, ip);
    OneLaunch(HostKind, ip, gen, now, other);
    BusyIn(s.host, ip);
  }

  lemma ThenIn(first: Outcome, second: Outcome, ip: string)
    ensures NextIn(Then(first, second), ip) == Both(NextIn(first, ip), NextIn(second, ip))
  {
    LaunchedForBoth(first.log, second.log, ip);
  }

  lemma SeenIn(s: State, ip: string, host: string, geo: Option<Geo>, cfg: Config, gen: nat, clock: Clock, other: string)
    requires other != ""
    ensures NextIn(LaunchLookups(s, ip, host, geo, cfg, gen, clock), other) ==
      if other == ip then OnSeen(KnownIn(s, ip), host, geo, cfg, clock) else Next(KnownIn(s, other), [])
  {
    hide LaunchGeo, LaunchHost, TryGeo, TryHost, WaitsForName;
    NothingLaunched(other);
    if ip != "" {
      var first := LaunchGeo(s, ip, host, geo, cfg, gen, clock.a, false);
      GeoTried(s, ip, host, geo, cfg, gen, clock.a, false, other);
      HostTried(first.s, ip, host, cfg, gen, clock.b, other);
      ThenIn(first, LaunchHost(first.s, ip, host, cfg, gen, clock.b), other);
    }
  }

  lemma NothingLaunched(ip: string)
    ensures LaunchedFor([], ip) == []
  {
  }

  lemma LearnedIn(s: State, kind: Kind, patch: Patch, other: string)
    ensures NextIn(CachePatch(ClearInFlight(s, kind, patch.ip), kind, patch), other) ==
      Next(if other == patch.ip then Learned(KnownIn(s, other), kind, patch.host, patch.geo) else KnownIn(s, other), [])
  {
    SuccessLaunchesNothing(kind, patch.ip, other);
    var s' := CachePatch(ClearInFlight(s, kind, patch.ip), kind, patch).s;
    if other == patch.ip {
      var k := Learned(KnownIn(s, other), kind, patch.host, patch.geo);
      assert TriesIn(s'.geo, other) == k.geoTries;
      assert TriesIn(s'.host, other) == k.hostTries;
      assert CachedOf(s', other) == Cached(k.host, k.geo);
    } else {
      assert TriesIn(s'.geo, other) == TriesIn(s.geo, other);
      assert TriesIn(s'.host, other) == TriesIn(s.host, other);
      assert CachedOf(s', other) == CachedOf(s, other);
    }
  }

  lemma SuccessLaunchesNothing(kind: Kind, ip: string, other: string)
    ensures LaunchedFor([Succeeded(kind, ip)], other) == [] && LaunchedFor([], other) == []
  {
    var none: seq<LogEntry> := [];
    assert [Succeeded(kind, ip)][..0] == none;
  }

  lemma AgainIn(s: State, kind: Kind, patch: Patch, parses: bool, cfg: Config, gen: nat, clock: Clock, other: string)
    ensures NextIn(RetryLookup(s, kind, patch, parses, cfg, gen, clock), other) ==
      if other == patch.ip && parses then Again(KnownIn(s, other), kind, patch.host, patch.geo, cfg, clock)
      else Next(KnownIn(s, other), [])
  {
    hide LaunchGeo, LaunchHost, TryGeo, TryHost, RetriesExhausted, Asked, TriesIn, Resting;
    NothingLaunched(other);
    if NeedsRetry(kind, patch, cfg) && parses {
      var cached := CachedOf(s, patch.ip);
      if kind.HostKind? {
        HostTried(s, patch.ip, cached.host, cfg, gen, clock.b, other);
      } else if !WaitsForName(cfg, cached.host) {
        GeoTried(s, patch.ip, cached.host, cached.geo, cfg, gen, clock.b, true, other);
      } else {
        var r := RetriesExhausted(s.host, patch.ip, clock.a);
        AskedIn(s.host, patch.ip, clock.a, other);
        AskedIn(s.host, patch.ip, clock.a, patch.ip);
        GeoTried(s.(host := r.0), patch.ip, cached.host, cached.geo, cfg, gen, clock.b, r.1, other);
      }
    }
  }

  lemma FollowIn(s: State, kind: Kind, ip: string, parses: bool, cfg: Config, gen: nat, clock: Clock, other: string)
    ensures NextIn(LaunchGeoAfterHost(s, kind, ip, parses, cfg, gen, clock), other) ==
      if other == ip then Follow(KnownIn(s, other), kind, parses, cfg, clock) else Next(KnownIn(s, other), [])
  {
    hide LaunchGeo, TryGeo, RetriesExhausted, Asked, TriesIn, Resting;
    NothingLaunched(other);
    var cached := CachedOf(s, ip);
    if !kind.GeoKind? && cfg.dn42 && cfg.rdns && cfg.hasGeoSource && cached.geo.None? {
      if cached.host != "" {
        GeoTried(s, ip, cached.host, cached.geo, cfg, gen, clock.d, true, other);
      } else {
        var r := RetriesExhausted(s.host, ip, clock.c);
        AskedIn(s.host, ip, clock.c, other);
        AskedIn(s.host, ip, clock.c, ip);
        GeoTried(s.(host := r.0), ip, cached.host, cached.geo, cfg, gen, clock.d, true, other);
      }
    }
  }

  /** A lookup that comes back changes what is known of its own address, as told
      above, and of no other. */
  lemma ReturnedIn(s: State, kind: Kind, patch: Patch, parses: bool, cfg: Config, gen: nat, clock: Clock, other: string)
    requires other != ""
    ensures NextIn(ProcessResult(s, kind, patch, parses, cfg, gen, clock), other) ==
      if other == patch.ip then OnReturned(KnownIn(s, other), kind, patch.host, patch.geo, parses, cfg, clock)
      else Next(KnownIn(s, other), [])
  {
    hide CachePatch, RetryLookup, LaunchGeoAfterHost, ClearInFlight, Again, Follow, Learned;
    NothingLaunched(other);
    if patch.ip != "" {
      var one := CachePatch(ClearInFlight(s, kind, patch.ip), kind, patch);
      var two := RetryLookup(one.s, kind, patch, parses, cfg, gen, clock);
      var three := LaunchGeoAfterHost(two.s, kind, patch.ip, parses, cfg, gen, clock);
      LearnedIn(s, kind, patch, other);
      AgainIn(one.s, kind, patch, parses, cfg, gen, clock, other);
      FollowIn(two.s, kind, patch.ip, parses, cfg, gen, clock, other);
      ThenIn(two, three, other);
      ThenIn(one, Then(two, three), other);
    }
  }
}
