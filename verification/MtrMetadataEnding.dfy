/** Retries of lookups are bounded: without DN42 every lookup that returns brings
    the end of the lookups nearer, whether it found something or not. */
module MtrMetadataEnding {
  import opened Text
  import opened MtrAccum
  import opened MtrRows
  import opened MtrMetadata

  /** How often a lookup in flight may still return. */
  function ReturnsLeft(t: Table, ip: string): nat {
    if AttemptsOf(t, ip) <= MAX_RETRIES + 1 then MAX_RETRIES + 2 - AttemptsOf(t, ip) else 0
  }

  function Weights(t: Table): map<string, nat> {
    map ip | ip in t.inFlight :: ReturnsLeft(t, ip)
  }

  /** How often all lookups in flight may still return. */
  ghost function Potential(s: State): nat {
    Total(Weights(s.geo)) + Total(Weights(s.host))
  }

  /** No lookup in flight has a deadline for its next try. */
  ghost predicate Calm(t: Table) {
    forall ip :: ip in t.inFlight ==> ip !in t.retryAt
  }

  ghost predicate CalmState(s: State) {
    Calm(s.geo) && Calm(s.host)
  }

  /** Tables that differ for one IP only. */
  ghost predicate SameBut(t: Table, t': Table, ip: string) {
    forall other :: other != ip ==>
      && (other in t'.inFlight <==> other in t.inFlight)
      && (other in t'.retryAt ==> other in t.retryAt)
      && AttemptsOf(t', other) == AttemptsOf(t, other)
  }

  lemma OneIpDiffers(t: Table, t': Table, ip: string)
    requires SameBut(t, t', ip)
    ensures Total(Weights(t')) + At(Weights(t), ip) == Total(Weights(t)) + At(Weights(t'), ip)
    ensures Calm(t) && (ip in t'.inFlight ==> ip !in t'.retryAt) ==> Calm(t')
  {
    TotalWithout(Weights(t), ip);
    TotalWithout(Weights(t'), ip);
    assert Weights(t) - {ip} == Weights(t') - {ip};
  }

  /** Asking whether the retries are used up, and starting a lookup if they are not. */
  function AskedAndStarted(t: Table, ip: string, gen: nat, now: int, start: bool): Table {
    var (asked, exhausted) := RetriesExhausted(t, ip, now);
    if exhausted || !start then asked else StartLookup(asked, ip, gen)
  }

  lemma StartingCosts(t: Table, ip: string, gen: nat, now: int, start: bool)
    requires ip !in t.inFlight && Calm(t) && AttemptsOf(t, ip) <= MAX_RETRIES + 1
    ensures var t' := AskedAndStarted(t, ip, gen, now, start);
      && Calm(t') && Total(Weights(t')) <= Total(Weights(t)) + MAX_RETRIES + 1
      && (ip !in t.retryAt ==> Total(Weights(t')) + AttemptsOf(t, ip) <= Total(Weights(t)) + MAX_RETRIES + 1)
  {
    var t' := AskedAndStarted(t, ip, gen, now, start);
    OneIpDiffers(t, t', ip);
  }

  lemma ClearingPays(t: Table, ip: string)
    requires ip in t.inFlight && AttemptsOf(t, ip) <= MAX_RETRIES + 1
    ensures var t' := t.(inFlight := t.inFlight - {ip});
      && Total(Weights(t')) + ReturnsLeft(t, ip) == Total(Weights(t))
      && (Calm(t) ==> Calm(t') && ip !in t'.retryAt)
  {
    OneIpDiffers(t, t.(inFlight := t.inFlight - {ip}), ip);
  }

  lemma ForgettingIsFree(t: Table, ip: string)
    requires ip !in t.inFlight
    ensures Total(Weights(ForgetAttempts(t, ip))) == Total(Weights(t)) && (Calm(t) ==> Calm(ForgetAttempts(t, ip)))
  {
    OneIpDiffers(t, ForgetAttempts(t, ip), ip);
  }

  /** Both kinds of launch ask and start, or leave the tables alone. */
  lemma LaunchesAskAndStart(s: State, ip: string, host: string, geo: Option<Geo>, cfg: Config, gen: nat, now: int, allow: bool)
    ensures var s' := LaunchGeo(s, ip, host, geo, cfg, gen, now, allow).s;
      s' == s || (ip !in s.geo.inFlight && exists start :: s' == s.(geo := AskedAndStarted(s.geo, ip, gen, now, start)))
    ensures var s' := LaunchHost(s, ip, host, cfg, gen, now).s;
      s' == s || (ip !in s.host.inFlight && s' == s.(host := AskedAndStarted(s.host, ip, gen, now, true)))
  {
    hide RetriesExhausted, StartLookup;
    var name := if host != "" then host else CachedOf(s, ip).host;
    var start := !(cfg.dn42 && cfg.rdns && name == "" && !allow);
    var s' := LaunchGeo(s, ip, host, geo, cfg, gen, now, allow).s;
    assert s' == s || s' == s.(geo := AskedAndStarted(s.geo, ip, gen, now, start));
  }

  lemma GeoLaunchCosts(s: State, ip: string, host: string, geo: Option<Geo>, cfg: Config, gen: nat, now: int, allow: bool)
    requires CalmState(s) && AttemptsOf(s.geo, ip) <= MAX_RETRIES + 1
    ensures var s' := LaunchGeo(s, ip, host, geo, cfg, gen, now, allow).s;
      && CalmState(s') && s'.host == s.host && s'.cache == s.cache && Potential(s') <= Potential(s) + MAX_RETRIES + 1
      && (ip !in s.geo.inFlight && ip !in s.geo.retryAt ==>
            Potential(s') + AttemptsOf(s.geo, ip) <= Potential(s) + MAX_RETRIES + 1)
  {
    hide RetriesExhausted, StartLookup, LaunchGeo, LaunchHost, Calm, Total, Weights, AskedAndStarted;
    LaunchesAskAndStart(s, ip, host, geo, cfg, gen, now, allow);
    var s' := LaunchGeo(s, ip, host, geo, cfg, gen, now, allow).s;
    if s' != s {
      var start :| s' == s.(geo := AskedAndStarted(s.geo, ip, gen, now, start));
      StartingCosts(s.geo, ip, gen, now, start);
    }
  }

  lemma HostLaunchCosts(s: State, ip: string, host: string, cfg: Config, gen: nat, now: int)
    requires CalmState(s) && AttemptsOf(s.host, ip) <= MAX_RETRIES + 1
    ensures var s' := LaunchHost(s, ip, host, cfg, gen, now).s;
      && CalmState(s') && s'.geo == s.geo && s'.cache == s.cache && Potential(s') <= Potential(s) + MAX_RETRIES + 1
      && (ip !in s.host.inFlight && ip !in s.host.retryAt ==>
            Potential(s') + AttemptsOf(s.host, ip) <= Potential(s) + MAX_RETRIES + 1)
  {
    hide RetriesExhausted, StartLookup, LaunchGeo, LaunchHost, Calm, Total, Weights, AskedAndStarted;
    LaunchesAskAndStart(s, ip, host, None, cfg, gen, now, true);
    if LaunchHost(s, ip, host, cfg, gen, now).s != s {
      StartingCosts(s.host, ip, gen, now, true);
    }
  }

  /** A result that is seen starts at most one lookup of each kind. */
  lemma SeenCosts(s: State, ip: string, host: string, geo: Option<Geo>, cfg: Config, gen: nat, clock: Clock)
    requires CalmState(s) && AttemptsOf(s.geo, ip) <= MAX_RETRIES + 1 && AttemptsOf(s.host, ip) <= MAX_RETRIES + 1
    ensures var s' := LaunchLookups(s, ip, host, geo, cfg, gen, clock).s;
      CalmState(s') && Potential(s') <= Potential(s) + 2 * (MAX_RETRIES + 1)
  {
    hide LaunchGeo, LaunchHost, CalmState, Potential;
    if ip != "" {
      GeoLaunchCosts(s, ip, host, geo, cfg, gen, clock.a, false);
      HostLaunchCosts(LaunchGeo(s, ip, host, geo, cfg, gen, clock.a, false).s, ip, host, cfg, gen, clock.b);
    }
  }

  /** The lookup is no longer in flight, and its result is in the cache. */
  lemma CachingPays(s: State, kind: Kind, patch: Patch)
    requires CalmState(s) && patch.ip in TableOf(s, kind).inFlight && AttemptsOf(TableOf(s, kind), patch.ip) <= MAX_RETRIES + 1
    ensures var one := CachePatch(ClearInFlight(s, kind, patch.ip), kind, patch).s;
      && CalmState(one) && patch.ip !in TableOf(one, kind).inFlight && patch.ip !in TableOf(one, kind).retryAt
      && Potential(one) + ReturnsLeft(TableOf(s, kind), patch.ip) == Potential(s)
      && (!Useful(kind, patch) ==> AttemptsOf(TableOf(one, kind), patch.ip) == AttemptsOf(TableOf(s, kind), patch.ip))
  {
    hide Total, Weights, Calm;
    var t := TableOf(s, kind);
    ClearingPays(t, patch.ip);
    ForgettingIsFree(t.(inFlight := t.inFlight - {patch.ip}), patch.ip);
  }

  /** Without DN42 a returned lookup is either over or in flight with one attempt
      more; in both cases less is left, and no deadline is pending. */
  lemma ReturnPays(s: State, kind: Kind, patch: Patch, parses: bool, cfg: Config, gen: nat, clock: Clock)
    requires !cfg.dn42 && CalmState(s) && patch.ip != "" && patch.ip in TableOf(s, kind).inFlight
    requires AttemptsOf(TableOf(s, kind), patch.ip) <= MAX_RETRIES + 1
    ensures var s' := ProcessResult(s, kind, patch, parses, cfg, gen, clock).s;
      CalmState(s') && Potential(s') < Potential(s)
  {
    hide CachePatch, ClearInFlight, LaunchGeo, LaunchHost, CalmState, Potential;
    CachingPays(s, kind, patch);
    var one := CachePatch(ClearInFlight(s, kind, patch.ip), kind, patch).s;
    if !Useful(kind, patch) {
      var cached := CachedOf(one, patch.ip);
      if kind.GeoKind? {
        GeoLaunchCosts(one, patch.ip, cached.host, cached.geo, cfg, gen, clock.b, true);
      } else {
        HostLaunchCosts(one, patch.ip, cached.host, cfg, gen, clock.b);
      }
    }
  }
}
