/** The metadata maps of the scheduler as they are kept and changed in place.
    Every method is proved against its function in MtrMetadata. */
module MtrMetadataTables {
  import opened Text
  import opened MtrAccum
  import Meta = MtrMetadata

  /** In-flight marks, attempt counts and retry deadlines of one kind. */
  class LookupTable {
    var inFlight: map<string, nat>
    var attempts: map<string, nat>
    var retryAt: map<string, int>

    function Val(): Meta.Table
      reads this
    {
      Meta.Table(inFlight, attempts, retryAt)
    }

    constructor ()
      ensures Val() == Meta.EMPTY_TABLE
    {
      inFlight, attempts, retryAt := map[], map[], map[];
    }

    method Clear()
      modifies this
      ensures Val() == Meta.EMPTY_TABLE
    {
      inFlight, attempts, retryAt := map[], map[], map[];
    }

    method RetriesExhausted(ip: string, now: int) returns (exhausted: bool)
      modifies this
      ensures (Val(), exhausted) == Meta.RetriesExhausted(old(Val()), ip, now)
    {
      var count := if ip in attempts then attempts[ip] else 0;
      if count < Meta.MAX_RETRIES + 1 {
        retryAt := retryAt - {ip};
        return false;
      }
      if ip in retryAt {
        if now < retryAt[ip] {
          return true;
        }
        attempts := attempts - {ip};
        retryAt := retryAt - {ip};
        return false;
      }
      retryAt := retryAt[ip := now + Meta.COOLDOWN];
      return true;
    }

    method Start(ip: string, gen: nat)
      modifies this
      ensures Val() == Meta.StartLookup(old(Val()), ip, gen)
    {
      inFlight := inFlight[ip := gen];
      attempts := attempts[ip := (if ip in attempts then attempts[ip] else 0) + 1];
    }

    method Forget(ip: string)
      modifies this
      ensures Val() == Meta.ForgetAttempts(old(Val()), ip)
    {
      attempts := attempts - {ip};
      retryAt := retryAt - {ip};
    }

    method ClearInFlight(ip: string)
      modifies this
      ensures Val() == old(Val()).(inFlight := old(inFlight) - {ip})
    {
      inFlight := inFlight - {ip};
    }
  }

  class Metadata {
    const geo: LookupTable
    const host: LookupTable
    var cache: map<string, Meta.Cached>
    /** What the methods below have launched and what has succeeded. */
    ghost var log: seq<Meta.LogEntry>

    ghost predicate Valid() {
      geo != host
    }

    function Val(): Meta.State
      reads this, geo, host
    {
      Meta.State(geo.Val(), host.Val(), cache)
    }

    constructor ()
      ensures Valid() && fresh(geo) && fresh(host) && Val() == Meta.EMPTY && log == []
    {
      geo := new LookupTable();
      host := new LookupTable();
      cache, log := map[], [];
    }

    method Clear()
      requires Valid()
      modifies this, geo, host
      ensures Val() == Meta.EMPTY && log == old(log) + [Meta.WasReset]
    {
      geo.Clear();
      host.Clear();
      cache := map[];
      log := log + [Meta.WasReset];
    }

    method LaunchGeo(ip: string, name: string, known: Option<Geo>, cfg: Meta.Config, gen: nat, now: int, allowIpOnly: bool)
      requires Valid()
      modifies this, geo
      ensures var o := Meta.LaunchGeo(old(Val()), ip, name, known, cfg, gen, now, allowIpOnly);
        Val() == o.s && log == old(log) + o.log
    {
      assert log + [] == log;
      if !cfg.hasGeoSource || known.Some? { return; }
      if ip in geo.inFlight { return; }
      var exhausted := geo.RetriesExhausted(ip, now);
      if exhausted { return; }
      var full := name;
      if full == "" && ip in cache {
        full := cache[ip].host;
      }
      if cfg.dn42 && cfg.rdns && full == "" && !allowIpOnly { return; }
      geo.Start(ip, gen);
      log := log + [Meta.Launched(Meta.GeoKind, ip, gen, now)];
    }

    method LaunchHost(ip: string, name: string, cfg: Meta.Config, gen: nat, now: int)
      requires Valid()
      modifies this, host
      ensures var o := Meta.LaunchHost(old(Val()), ip, name, cfg, gen, now);
        Val() == o.s && log == old(log) + o.log
    {
      assert log + [] == log;
      if !cfg.rdns || name != "" { return; }
      if ip in host.inFlight { return; }
      var exhausted := host.RetriesExhausted(ip, now);
      if exhausted { return; }
      host.Start(ip, gen);
      log := log + [Meta.Launched(Meta.HostKind, ip, gen, now)];
    }

    method LaunchLookups(ip: string, name: string, known: Option<Geo>, cfg: Meta.Config, gen: nat, clock: Meta.Clock)
      requires Valid()
      modifies this, geo, host
      ensures var o := Meta.LaunchLookups(old(Val()), ip, name, known, cfg, gen, clock);
        Val() == o.s && log == old(log) + o.log
    {
      hide Meta.LaunchGeo, Meta.LaunchHost;
      assert log + [] == log;
      if ip == "" { return; }
      ghost var before := log;
      LaunchGeo(ip, name, known, cfg, gen, clock.a, false);
      ghost var first := log;
      LaunchHost(ip, name, cfg, gen, clock.b);
      assert log == before + (first[|before|..] + log[|first|..]);
    }

    method CachePatch(kind: Meta.Kind, patch: Meta.Patch)
      requires Valid()
      modifies this, geo, host
      ensures var o := Meta.CachePatch(old(Val()), kind, patch);
        Val() == o.s && log == old(log) + o.log
    {
      assert log + [] == log;
      var cached := if patch.ip in cache then cache[patch.ip] else Meta.Cached("", None);
      match kind {
        case GeoKind =>
          if patch.geo.Some? {
            geo.Forget(patch.ip);
            if cached.geo.None? {
              cached := cached.(geo := patch.geo);
            }
            log := log + [Meta.Succeeded(kind, patch.ip)];
          }
        case HostKind =>
          if patch.host != "" {
            host.Forget(patch.ip);
            if cached.host == "" {
              cached := cached.(host := patch.host);
            }
            log := log + [Meta.Succeeded(kind, patch.ip)];
          }
      }
      cache := cache[patch.ip := cached];
    }

    method RetryLookup(kind: Meta.Kind, patch: Meta.Patch, parses: bool, cfg: Meta.Config, gen: nat, clock: Meta.Clock)
      requires Valid()
      modifies this, geo, host
      ensures var o := Meta.RetryLookup(old(Val()), kind, patch, parses, cfg, gen, clock);
        Val() == o.s && log == old(log) + o.log
    {
      hide Meta.LaunchGeo, Meta.LaunchHost, Meta.RetriesExhausted;
      assert log + [] == log;
      if !Meta.NeedsRetry(kind, patch, cfg) || !parses { return; }
      var cached := if patch.ip in cache then cache[patch.ip] else Meta.Cached("", None);
      match kind {
        case GeoKind =>
          var allow := !cfg.dn42 || !cfg.rdns || cached.host != "";
          if !allow {
            allow := host.RetriesExhausted(patch.ip, clock.a);
          }
          LaunchGeo(patch.ip, cached.host, cached.geo, cfg, gen, clock.b, allow);
        case HostKind =>
          LaunchHost(patch.ip, cached.host, cfg, gen, clock.b);
      }
    }

    method LaunchGeoAfterHost(kind: Meta.Kind, ip: string, parses: bool, cfg: Meta.Config, gen: nat, clock: Meta.Clock)
      requires Valid()
      modifies this, geo, host
      ensures var o := Meta.LaunchGeoAfterHost(old(Val()), kind, ip, parses, cfg, gen, clock);
        Val() == o.s && log == old(log) + o.log
    {
      hide Meta.LaunchGeo, Meta.RetriesExhausted;
      assert log + [] == log;
      if kind != Meta.HostKind { return; }
      if !cfg.dn42 || !cfg.rdns || !cfg.hasGeoSource { return; }
      var cached := if ip in cache then cache[ip] else Meta.Cached("", None);
      if cached.geo.Some? { return; }
      if cached.host == "" {
        var exhausted := host.RetriesExhausted(ip, clock.c);
        if !exhausted { return; }
      }
      if !parses { return; }
      LaunchGeo(ip, cached.host, cached.geo, cfg, gen, clock.d, true);
    }

    method ProcessResult(kind: Meta.Kind, patch: Meta.Patch, parses: bool, cfg: Meta.Config, gen: nat, clock: Meta.Clock)
      requires Valid() && patch.ip != ""
      modifies this, geo, host
      ensures var o := Meta.ProcessResult(old(Val()), kind, patch, parses, cfg, gen, clock);
        Val() == o.s && log == old(log) + o.log
    {
      hide Meta.CachePatch, Meta.RetryLookup, Meta.LaunchGeoAfterHost;
      ghost var before := log;
      match kind {
        case GeoKind => geo.ClearInFlight(patch.ip);
        case HostKind => host.ClearInFlight(patch.ip);
      }
      ghost var one := Meta.CachePatch(Meta.ClearInFlight(old(Val()), kind, patch.ip), kind, patch);
      assert Val() == Meta.ClearInFlight(old(Val()), kind, patch.ip);
      CachePatch(kind, patch);
      ghost var two := Meta.RetryLookup(one.s, kind, patch, parses, cfg, gen, clock);
      RetryLookup(kind, patch, parses, cfg, gen, clock);
      ghost var three := Meta.LaunchGeoAfterHost(two.s, kind, patch.ip, parses, cfg, gen, clock);
      LaunchGeoAfterHost(kind, patch.ip, parses, cfg, gen, clock);
      Regroup(before, one.log, two.log, three.log);
    }
  }

  lemma Regroup<T>(a: seq<T>, b: seq<T>, c: seq<T>, d: seq<T>)
    ensures ((a + b) + c) + d == a + (b + (c + d))
  {
  }
}
