/** What the rows of the aggregate show, told from the messages of a run alone:
    a replay collects the answers of one TTL and what is known of one address,
    and in every run the rows and the callbacks say exactly that. */
module MtrSchedulerRows {
  import opened Text
  import opened MtrAccum
  import opened MtrRows
  import opened MtrDirectStats
  import opened MtrScheduler
  import opened MtrSchedulerProofs
  import opened MtrSchedulerFinals
  import Meta = MtrMetadata

  // ----- The replay -----

  const NOBODY := Meta.Cached("", None)

  /** A probe without an answer. */
  const SILENCE := Attempt(false, "", "", 0, None, [])

  /** For one TTL: the counted results of this generation in order, the failed
      probes since the last of them, and whether its rows were cleared because
      it was final.  For one address: what lookups found, and what is known of
      it at this TTL. */
  datatype Told = Told(gen: nat, final: int, errs: nat, answers: seq<Attempt>, cleared: bool, found: Meta.Cached,
                       name: Meta.Cached)

  const NOTHING_TOLD := Told(0, -1, 0, [], false, NOBODY, NOBODY)

  /** Host and location of an answer: its own, else what a lookup in the background
      found before; when no location is known and none is looked up in the
      background, both as a lookup on the spot finds them. */
  function WhatIsKnown(cfg: Config, r: ProbeResult, found: Meta.Cached, fill: Fill): Meta.Cached {
    var host := if r.host != "" then r.host else found.host;
    var geo := if r.geo.Some? then r.geo else found.geo;
    var background := cfg.asyncMetadata && (cfg.meta.hasGeoSource || (cfg.meta.rdns && host == ""));
    if cfg.fillGeo && geo.None? && !background then Meta.Cached(fill.host, fill.geo) else Meta.Cached(host, geo)
  }

  /** The latest host and location that are not empty. */
  function Renamed(name: Meta.Cached, latest: Meta.Cached): Meta.Cached {
    Meta.Cached(if Trim(latest.host) != "" then Trim(latest.host) else name.host,
                if latest.geo.Some? then latest.geo else name.geo)
  }

  /** Late metadata fills what is empty. */
  function Filled(name: Meta.Cached, host: string, geo: Option<Geo>): Meta.Cached {
    Meta.Cached(if name.host == "" then host else name.host, if name.geo.None? then geo else name.geo)
  }

  function HearAnswer(cfg: Config, t: int, addr: string, told: Told, ttl: int, r: ProbeResult, fill: Fill): Told {
    var lower := r.addr == cfg.dst && (told.final == -1 || ttl < told.final);
    var told1 := told.(final := if lower then ttl else told.final, cleared := told.cleared || (lower && t == told.final));
    if ttl != t then told1
    else
      told1.(errs := 0, answers := told.answers + [Attempt(r.success, r.addr, r.host, r.rtt, r.geo, r.mpls)],
             name := if r.addr == addr then Renamed(told.name, WhatIsKnown(cfg, r, told.found, fill)) else told.name)
  }

  function HearFailure(cfg: Config, told: Told): Told {
    if told.errs + 1 < cfg.maxConsecErrs then told.(errs := told.errs + 1)
    else told.(errs := 0, answers := told.answers + [SILENCE])
  }

  function HearLookup(addr: string, told: Told, kind: Meta.Kind, patch: Meta.Patch): Told {
    told.(found := if patch.ip != addr then told.found
                   else if kind.GeoKind? then Filled(told.found, "", patch.geo)
                   else Filled(told.found, patch.host, None),
          name := if Trim(patch.ip) != addr || CountFrom(told.answers, addr) == 0 then told.name
                  else Filled(told.name, Trim(patch.host), patch.geo))
  }

  /** What one message adds. */
  function Hear(cfg: Config, t: int, addr: string, told: Told, i: Input): Told {
    match i
    case ProbeDone(cp, cancelled, fill, _, _, _, _) =>
      if cp.gen != told.gen || (told.final != -1 && cp.ttl > told.final) then told
      else if !cp.failed then HearAnswer(cfg, t, addr, told, cp.ttl, cp.result, fill)
      else if cp.ttl != t || cancelled then told
      else HearFailure(cfg, told)
    case LookupDone(kind, patch, gen, _, _) => if gen != told.gen then told else HearLookup(addr, told, kind, patch)
    case LookupDropped(_) => told
    case Tick(reset, _, _, _) => if reset then NOTHING_TOLD.(gen := told.gen + 1) else told
  }

  function HearAll(cfg: Config, t: int, addr: string, told: Told, inputs: seq<Input>): Told
    decreases |inputs|
  {
    if inputs == [] then told else HearAll(cfg, t, addr, Hear(cfg, t, addr, told, inputs[0]), inputs[1..])
  }

  // ----- The answers of one address -----

  function From(xs: seq<Attempt>, addr: string): (r: seq<Attempt>)
    ensures |r| == CountFrom(xs, addr)
  {
    if xs == [] then []
    else From(xs[..|xs| - 1], addr) + if xs[|xs| - 1].ip == addr then [xs[|xs| - 1]] else []
  }

  /** Who does not answer tells neither host nor location. */
  ghost predicate Quiet(a: Attempt) {
    (a.ip != "" ==> IsAddress(a.ip)) && (a.ip == "" ==> !a.success && a.host == "" && a.geo.None?)
  }

  ghost predicate AllQuiet(xs: seq<Attempt>) {
    forall i :: 0 <= i < |xs| ==> Quiet(xs[i])
  }

  // ----- The rows of one TTL -----

  ghost predicate Anonymous(u: Accum) {
    u.m.received == 0 && u.ip == "" && u.host == "" && u.geo.None?
  }

  ghost predicate RowOfAddress(acc: Accum, t: int, addr: string, xs: seq<Attempt>, name: Meta.Cached) {
    && acc.m == Measure(Rtts(From(xs, addr))) && acc.ttl == t && acc.ip == addr
    && acc.host == name.host && acc.geo == name.geo
  }

  /** An address has a row exactly when it answered, made of its answers. */
  ghost predicate AddressRow(rows: Rows, t: int, addr: string, xs: seq<Attempt>, name: Meta.Cached) {
    && (UnknownKey in rows ==> Anonymous(rows[UnknownKey]))
    && (IpKey(addr) in rows <==> CountFrom(xs, addr) > 0)
    && (IpKey(addr) in rows ==> RowOfAddress(rows[IpKey(addr)], t, addr, xs, name))
    && (IpKey(addr) !in rows ==> name == NOBODY)
  }

  ghost predicate Labelled(rows: Rows, labels: set<string>) {
    forall k :: k in rows ==> rows[k].mpls == labels
  }

  ghost predicate OnlyRow(rows: Rows, t: int, addr: string, xs: seq<Attempt>) {
    && Tracks(rows, t, addr, CountFrom(xs, addr) > 0, |xs|, Rtts(xs))
    && Labelled(rows, AllLabels(xs))
  }

  ghost predicate RowsSay(rows: Rows, t: int, addr: string, xs: seq<Attempt>, name: Meta.Cached) {
    AllQuiet(xs) ==> AddressRow(rows, t, addr, xs, name) && (OnlyFrom(xs, addr) ==> OnlyRow(rows, t, addr, xs))
  }

  // ----- One more attempt -----

  lemma OneAttemptGroups(a: Attempt)
    ensures Groups([a]) == map[AttemptKey(a) := IncludeAttempt(NewGroup(Trim(a.host), Trim(a.ip)), a)]
  {
    hide IncludeAttempt, NewGroup, AttemptKey;
    assert [a][..0] == [];
    assert Groups([a][..0]) == map[];
  }

  /** The rows with one more attempt, before the unknown row is merged. */
  function WithAttempt(rows: Rows, ttl: int, a: Attempt): Rows {
    var key := AttemptKey(a);
    rows[key := MergeGroup(RowFor(rows, ttl, key), IncludeAttempt(NewGroup(Trim(a.host), Trim(a.ip)), a))]
  }

  lemma MergeOneGroup(rows: Rows, ttl: int, key: Key, g: Group)
    ensures MergeGroups(rows, ttl, map[key := g]) == rows[key := MergeGroup(RowFor(rows, ttl, key), g)]
  {
    hide MergeGroup, RowFor;
    var groups := map[key := g];
    var merged, put := MergeGroups(rows, ttl, groups), rows[key := MergeGroup(RowFor(rows, ttl, key), g)];
    assert groups.Keys == {key};
    assert merged.Keys == put.Keys;
  }

  lemma UpdateWithAttempt(rows: Rows, ttl: int, a: Attempt)
    ensures UpdateRows(rows, ttl, [a]) == MergeUnknown(WithAttempt(rows, ttl, a))
  {
    hide MergeUnknown, MergeGroups, Groups, IncludeAttempt, NewGroup, AttemptKey, MergeGroup, RowFor, Trim;
    OneAttemptGroups(a);
    var key, g := AttemptKey(a), IncludeAttempt(NewGroup(Trim(a.host), Trim(a.ip)), a);
    MergeOneGroup(rows, ttl, key, g);
    assert MergeGroups(rows, ttl, Groups([a])) == WithAttempt(rows, ttl, a);
  }

  lemma MergeUnknownAt(rows: Rows, k: Key)
    ensures k in MergeUnknown(rows) && k != UnknownKey ==>
      k in rows && MergeUnknown(rows)[k] == if MergesUnknown(rows) then MergeAccum(rows[k], rows[UnknownKey]) else rows[k]
    ensures UnknownKey in MergeUnknown(rows) ==> MergeUnknown(rows) == rows
  {
    hide MergeAccum;
    if MergesUnknown(rows) && k in MergeUnknown(rows) {
      assert k in Known(rows);
    }
  }

  lemma MergeAnonymous(acc: Accum, u: Accum)
    requires Anonymous(u)
    ensures MergeAccum(acc, u) == acc.(sent := acc.sent + u.sent, mpls := acc.mpls + u.mpls)
  {
  }

  lemma QuietKey(a: Attempt)
    requires Quiet(a)
    ensures AttemptKey(a) == if a.ip == "" then UnknownKey else IpKey(a.ip)
    ensures Trim(a.ip) == a.ip && (a.ip == "" ==> Trim(a.host) == "")
  {
    if a.ip == "" {
      assert Trim("") == "";
    } else {
      AddressKey(a);
    }
  }

  /** One attempt merged into its row. */
  lemma MergeOneAttempt(acc: Accum, a: Attempt)
    ensures var g := IncludeAttempt(NewGroup(Trim(a.host), Trim(a.ip)), a);
      MergeGroup(acc, g) == Accum(acc.ttl, acc.key,
                                  if Trim(a.host) != "" then Trim(a.host) else acc.host,
                                  if Trim(a.ip) != "" then Trim(a.ip) else acc.ip,
                                  acc.sent + 1, AddGroupMoments(acc.m, if a.success then AddRtt(NO_MOMENTS, RttMs(a.rtt)) else NO_MOMENTS),
                                  if a.geo.Some? then a.geo else acc.geo, acc.mpls + Labels(a.mpls))
  {
    hide AddRtt, AddGroupMoments, Labels, Trim, RttMs;
  }

  lemma OneMeasured(rs: seq<real>, r: real)
    requires r < MAX_FLOAT64
    ensures AddGroupMoments(Measure(rs), AddRtt(NO_MOMENTS, r)) == Measure(rs + [r])
  {
    hide AddGroupMoments, AddRtt;
    var none: seq<real> := [];
    assert [r][..0] == none && Measure(none) == NO_MOMENTS;
    assert Measure([r]) == AddRtt(NO_MOMENTS, r);
    MeasureConcat(rs, [r]);
  }

  lemma OneMoreAnswer(xs: seq<Attempt>, a: Attempt, addr: string)
    ensures From(xs + [a], addr) == From(xs, addr) + if a.ip == addr then [a] else []
    ensures CountFrom(xs + [a], addr) == CountFrom(xs, addr) + if a.ip == addr then 1 else 0
    ensures Rtts(xs + [a]) == Rtts(xs) + if a.success then [RttMs(a.rtt)] else []
  {
    hide RttMs;
    assert (xs + [a])[..|xs|] == xs;
  }

  /** The row of the address that answers. */
  lemma AnswerRow(rows: Rows, t: int, addr: string, xs: seq<Attempt>, name: Meta.Cached, a: Attempt)
    requires IsAddress(addr) && Quiet(a) && a.ip == addr && AddressRow(rows, t, addr, xs, name)
    ensures var acc := WithAttempt(rows, t, a)[IpKey(addr)];
      RowOfAddress(acc, t, addr, xs + [a], Renamed(name, Meta.Cached(a.host, a.geo)))
  {
    hide Measure, Rtts, From, Labels, AddRtt, AddGroupMoments, Trim, IncludeAttempt, NewGroup, AttemptKey, MergeGroup, RttMs,
      IsAddress;
    QuietKey(a);
    var row := RowFor(rows, t, IpKey(addr));
    MergeOneAttempt(row, a);
    var earlier := From(xs, addr);
    OneMoreAnswer(xs, a, addr);
    OneMoreAnswer(earlier, a, addr);
    assert row.m == Measure(Rtts(earlier)) by { StartsMeasured(xs, addr); }
    if a.success {
      BelowTheSentinel(a);
      OneMeasured(Rtts(earlier), RttMs(a.rtt));
    } else {
      AddNoMoments(row.m);
      var rs := Rtts(earlier);
      assert rs + [] == rs;
    }
    AddressNotEmpty(addr);
  }

  lemma AddressNotEmpty(addr: string)
    requires IsAddress(addr)
    ensures addr != "" && Trim(addr) == addr
  {
  }

  lemma AddNoMoments(m: Moments)
    ensures AddGroupMoments(m, NO_MOMENTS) == m
  {
  }

  lemma BelowTheSentinel(a: Attempt)
    ensures RttMs(a.rtt) < MAX_FLOAT64
  {
  }

  lemma StartsMeasured(xs: seq<Attempt>, addr: string)
    ensures CountFrom(xs, addr) == 0 ==> From(xs, addr) == [] && Measure(Rtts(From(xs, addr))) == NO_MOMENTS
  {
    if CountFrom(xs, addr) == 0 {
      assert From(xs, addr) == [];
    }
  }

  lemma AddressRowStep(rows: Rows, t: int, addr: string, xs: seq<Attempt>, name: Meta.Cached, a: Attempt)
    requires IsAddress(addr) && Quiet(a) && AddressRow(rows, t, addr, xs, name)
    ensures AddressRow(UpdateRows(rows, t, [a]), t, addr, xs + [a],
                       if a.ip == addr then Renamed(name, Meta.Cached(a.host, a.geo)) else name)
  {
    hide UpdateRows, MergeUnknown, Measure, Rtts, From, WithAttempt, MergesUnknown, MergeAccum, Renamed, IsAddress, AttemptKey;
    UpdateWithAttempt(rows, t, a);
    var more := WithAttempt(rows, t, a);
    OneMoreAnswer(xs, a, addr);
    AddressNotEmpty(addr);
    MoreRows(rows, t, a);
    if a.ip == addr {
      AnswerRow(rows, t, addr, xs, name, a);
    } else {
      assert From(xs + [a], addr) == From(xs, addr);
    }
    MergeUnknownAt(more, IpKey(addr));
    MergeUnknownKeepsKnown(more, IpKey(addr));
    if IpKey(addr) in more && UnknownKey in more {
      MergeAnonymous(more[IpKey(addr)], more[UnknownKey]);
    }
    if MergesUnknown(more) {
      OnlyUnknownMerges(more);
    }
  }

  lemma OnlyUnknownMerges(rows: Rows)
    requires MergesUnknown(rows)
    ensures UnknownKey in rows
  {
  }

  ghost predicate Touches(rows: Rows, more: Rows, key: Key) {
    && more.Keys == rows.Keys + {key}
    && (forall k :: k in rows && k != key ==> more[k] == rows[k])
    && (UnknownKey in more ==> Anonymous(more[UnknownKey]))
  }

  /** Which rows one attempt touches. */
  lemma MoreRows(rows: Rows, t: int, a: Attempt)
    requires Quiet(a) && (UnknownKey in rows ==> Anonymous(rows[UnknownKey]))
    ensures Touches(rows, WithAttempt(rows, t, a), if a.ip == "" then UnknownKey else IpKey(a.ip))
  {
    hide Trim, IncludeAttempt, NewGroup, AttemptKey, MergeGroup, AddRtt, AddGroupMoments, Labels, RttMs, IsAddress, Anonymous,
      Quiet, RowFor, Touches;
    QuietKey(a);
    if a.ip == "" {
      StartsAnonymous(rows, t);
      SilentAttempt(RowFor(rows, t, UnknownKey), a);
    }
    var g := IncludeAttempt(NewGroup(Trim(a.host), Trim(a.ip)), a);
    PutRow(rows, AttemptKey(a), MergeGroup(RowFor(rows, t, AttemptKey(a)), g));
  }

  lemma StartsAnonymous(rows: Rows, t: int)
    requires UnknownKey in rows ==> Anonymous(rows[UnknownKey])
    ensures Anonymous(RowFor(rows, t, UnknownKey))
  {
  }

  lemma PutRow(rows: Rows, key: Key, acc: Accum)
    requires UnknownKey in rows ==> Anonymous(rows[UnknownKey])
    requires key == UnknownKey ==> Anonymous(acc)
    ensures Touches(rows, rows[key := acc], key)
  {
  }

  lemma SilentAttempt(acc: Accum, a: Attempt)
    requires Quiet(a) && a.ip == "" && Anonymous(acc)
    ensures Anonymous(MergeGroup(acc, IncludeAttempt(NewGroup(Trim(a.host), Trim(a.ip)), a)))
  {
    hide Trim, IncludeAttempt, NewGroup, MergeGroup, Labels, IsAddress;
    QuietKey(a);
    MergeOneAttempt(acc, a);
  }

  /** With one responder the single row carries every label. */
  lemma LabelledStep(rows: Rows, t: int, addr: string, labels: set<string>, heard: bool, n: nat, rs: seq<real>, a: Attempt)
    requires IsAddress(addr) && Quiet(a) && FromOrSilent(a, addr) && Tracks(rows, t, addr, heard, n, rs)
    requires Labelled(rows, labels) && (n == 0 ==> labels == {} && rows == map[])
    ensures Labelled(UpdateRows(rows, t, [a]), labels + Labels(a.mpls))
  {
    hide UpdateRows, Trim, IncludeAttempt, NewGroup, AttemptKey, MergeGroup, AddRtt, AddGroupMoments, Labels, RttMs, IsAddress,
      AccumMeasures, MergeUnknown, MergesUnknown, Known;
    UpdateWithAttempt(rows, t, a);
    QuietKey(a);
    AddressNotEmpty(addr);
    var key := AttemptKey(a);
    MergeOneAttempt(RowFor(rows, t, key), a);
    var more := WithAttempt(rows, t, a);
    var labelled := more[key].mpls;
    assert labelled == (if key in rows then labels else {}) + Labels(a.mpls);
    forall k | k in MergeUnknown(more) ensures MergeUnknown(more)[k].mpls == labels + Labels(a.mpls) {
      MergeUnknownAt(more, k);
      TwoRowsMerge(more, addr);
    }
  }

  /** An unknown row next to the row of the only address is merged. */
  lemma TwoRowsMerge(rows: Rows, addr: string)
    requires forall k :: k in rows ==> k == IpKey(addr) || k == UnknownKey
    ensures MergesUnknown(rows) <==> IpKey(addr) in rows && UnknownKey in rows
    ensures MergesUnknown(rows) ==> UnknownKey !in MergeUnknown(rows)
  {
    assert Known(rows) == if IpKey(addr) in rows then {IpKey(addr)} else {};
  }

  lemma {:induction false} NothingMissed(xs: seq<Attempt>, a: Attempt, addr: string)
    ensures AllQuiet(xs + [a]) <==> AllQuiet(xs) && Quiet(a)
    ensures OnlyFrom(xs + [a], addr) <==> OnlyFrom(xs, addr) && FromOrSilent(a, addr)
  {
    hide Quiet, FromOrSilent;
    var all := xs + [a];
    assert forall i :: 0 <= i < |xs| ==> all[i] == xs[i];
    assert all[|xs|] == a;
    if AllQuiet(xs) && Quiet(a) {
      forall i | 0 <= i < |all| ensures Quiet(all[i]) {
        if i < |xs| { assert all[i] == xs[i]; }
      }
    }
    if AllQuiet(all) {
      forall i | 0 <= i < |xs| ensures Quiet(xs[i]) { assert all[i] == xs[i]; }
      assert Quiet(all[|xs|]);
    }
    if OnlyFrom(xs, addr) && FromOrSilent(a, addr) {
      forall i | 0 <= i < |all| ensures FromOrSilent(all[i], addr) {
        if i < |xs| { assert all[i] == xs[i]; }
      }
    }
    if OnlyFrom(all, addr) {
      forall i | 0 <= i < |xs| ensures FromOrSilent(xs[i], addr) { assert all[i] == xs[i]; }
      assert FromOrSilent(all[|xs|], addr);
    }
  }

  lemma OnlyRowStep(rows: Rows, t: int, addr: string, xs: seq<Attempt>, a: Attempt)
    requires IsAddress(addr) && Quiet(a) && FromOrSilent(a, addr) && OnlyRow(rows, t, addr, xs)
    ensures OnlyRow(UpdateRows(rows, t, [a]), t, addr, xs + [a])
  {
    hide UpdateRows, IsAddress, Quiet, FromOrSilent, Labelled, Tracks, AllLabels, Rtts;
    assert OnlyFrom([a], addr);
    TracksBatch(rows, t, addr, CountFrom(xs, addr) > 0, |xs|, Rtts(xs), [a]);
    CountConcat(xs, [a], addr);
    RttsConcat(xs, [a]);
    OneMoreLabels(xs, a);
    NoneTracked(rows, t, addr, xs);
    LabelledStep(rows, t, addr, AllLabels(xs), CountFrom(xs, addr) > 0, |xs|, Rtts(xs), a);
  }

  lemma NoneTracked(rows: Rows, t: int, addr: string, xs: seq<Attempt>)
    requires Tracks(rows, t, addr, CountFrom(xs, addr) > 0, |xs|, Rtts(xs))
    ensures xs == [] ==> rows == map[] && AllLabels(xs) == {}
  {
  }

  /** What was recorded may carry more metadata than the answer itself. */
  ghost predicate Enriches(a: Attempt, x: Attempt) {
    && a.success == x.success && a.ip == x.ip && a.rtt == x.rtt && a.mpls == x.mpls
    && (x.ip == "" ==> a.host == x.host && a.geo == x.geo)
  }

  lemma AsGoodAs(xs: seq<Attempt>, a: Attempt, x: Attempt, addr: string)
    requires Enriches(a, x) && IsAddress(addr)
    ensures From(xs + [a], addr) == From(xs, addr) + if x.ip == addr then [a] else []
    ensures CountFrom(xs + [a], addr) == CountFrom(xs + [x], addr)
    ensures Rtts(xs + [a]) == Rtts(xs + [x]) && Rtts(From(xs + [a], addr)) == Rtts(From(xs + [x], addr))
    ensures AllLabels(xs + [a]) == AllLabels(xs + [x])
    ensures Quiet(a) <==> Quiet(x)
    ensures FromOrSilent(a, addr) <==> FromOrSilent(x, addr)
  {
    hide Rtts, AllLabels, RttMs, Labels;
    AddressNotEmpty(addr);
    OneMoreAnswer(xs, a, addr);
    OneMoreAnswer(xs, x, addr);
    OneMoreAnswer(From(xs, addr), a, addr);
    OneMoreAnswer(From(xs, addr), x, addr);
    OneMoreLabels(xs, a);
    OneMoreLabels(xs, x);
  }

  /** The rows with one more recorded attempt say what the answers say. */
  lemma RowsSayMore(rows: Rows, t: int, addr: string, xs: seq<Attempt>, name: Meta.Cached, a: Attempt, x: Attempt)
    requires IsAddress(addr) && RowsSay(rows, t, addr, xs, name) && Enriches(a, x)
    ensures RowsSay(UpdateRows(rows, t, [a]), t, addr, xs + [x],
                    if x.ip == addr then Renamed(name, Meta.Cached(a.host, a.geo)) else name)
  {
    hide UpdateRows, IsAddress, Quiet, FromOrSilent, AllLabels, Rtts, From, CountFrom, AllQuiet, OnlyFrom, Measure, Tracks,
      Labelled, Renamed, Anonymous;
    NothingMissed(xs, x, addr);
    AsGoodAs(xs, a, x, addr);
    if AllQuiet(xs + [x]) {
      AddressRowStep(rows, t, addr, xs, name, a);
      if OnlyFrom(xs + [x], addr) {
        OnlyRowStep(rows, t, addr, xs, a);
      }
    }
  }

  // ----- Late metadata -----

  lemma PatchedRowsSay(view: View, t: int, addr: string, xs: seq<Attempt>, name: Meta.Cached, ip: string, host: string,
                       geo: Option<Geo>)
    requires IsAddress(addr) && RowsSay(RowsAt(view, t), t, addr, xs, name)
    ensures RowsSay(RowsAt(PatchMetadata(view, ip, host, geo), t), t, addr, xs,
                    if Trim(ip) != addr || CountFrom(xs, addr) == 0 then name else Filled(name, Trim(host), geo))
  {
    hide PatchMetadata, IsAddress, AllLabels, Rtts, From, CountFrom, AllQuiet, OnlyFrom, Measure, Trim, Tracks, Labelled;
    var rows, rows' := RowsAt(view, t), RowsAt(PatchMetadata(view, ip, host, geo), t);
    AddressNotEmpty(addr);
    EmptyText();
    if AllQuiet(xs) {
      PatchesItsRows(view, ip, host, geo, t, IpKey(addr));
      PatchesItsRows(view, ip, host, geo, t, UnknownKey);
      if OnlyFrom(xs, addr) {
        PatchedTracks(view, t, addr, CountFrom(xs, addr) > 0, |xs|, Rtts(xs), ip, host, geo);
        PatchedLabelled(view, t, AllLabels(xs), ip, host, geo);
      }
    }
  }

  lemma EmptyText()
    ensures Trim("") == ""
  {
  }

  lemma PatchedTracks(view: View, t: int, addr: string, heard: bool, n: nat, rs: seq<real>, ip: string, host: string,
                      geo: Option<Geo>)
    requires Tracks(RowsAt(view, t), t, addr, heard, n, rs)
    ensures Tracks(RowsAt(PatchMetadata(view, ip, host, geo), t), t, addr, heard, n, rs)
  {
    hide PatchMetadata, Trim, Measure;
    forall k: Key ensures k in RowsAt(PatchMetadata(view, ip, host, geo), t) <==> k in RowsAt(view, t) {
      PatchesItsRows(view, ip, host, geo, t, k);
    }
    PatchesItsRows(view, ip, host, geo, t, IpKey(addr));
    PatchesItsRows(view, ip, host, geo, t, UnknownKey);
  }

  lemma PatchedLabelled(view: View, t: int, labels: set<string>, ip: string, host: string, geo: Option<Geo>)
    requires Labelled(RowsAt(view, t), labels)
    ensures Labelled(RowsAt(PatchMetadata(view, ip, host, geo), t), labels)
  {
    hide PatchMetadata, Trim;
    var rows' := RowsAt(PatchMetadata(view, ip, host, geo), t);
    forall k | k in rows' ensures rows'[k].mpls == labels {
      PatchesItsRows(view, ip, host, geo, t, k);
    }
  }

  // ----- The cache -----

  lemma LaunchesKeepCache(s: Meta.State, ip: string, host: string, geo: Option<Geo>, cfg: Meta.Config, gen: nat, clock: Meta.Clock)
    ensures Meta.LaunchLookups(s, ip, host, geo, cfg, gen, clock).s.cache == s.cache
  {
    hide Meta.RetriesExhausted, Meta.StartLookup;
  }

  lemma RetryKeepsCache(s: Meta.State, kind: Meta.Kind, patch: Meta.Patch, parses: bool, cfg: Meta.Config, gen: nat,
                        clock: Meta.Clock)
    ensures Meta.RetryLookup(s, kind, patch, parses, cfg, gen, clock).s.cache == s.cache
    ensures Meta.LaunchGeoAfterHost(s, kind, patch.ip, parses, cfg, gen, clock).s.cache == s.cache
  {
    hide Meta.RetriesExhausted, Meta.StartLookup;
  }

  /** A lookup that came back adds to what was found of its address, once. */
  lemma ResultCached(s: Meta.State, kind: Meta.Kind, patch: Meta.Patch, parses: bool, cfg: Meta.Config, gen: nat,
                     clock: Meta.Clock, addr: string)
    requires addr != ""
    ensures Meta.CachedOf(Meta.ProcessResult(s, kind, patch, parses, cfg, gen, clock).s, addr) ==
      if patch.ip != addr then Meta.CachedOf(s, addr)
      else if kind.GeoKind? then Filled(Meta.CachedOf(s, addr), "", patch.geo)
      else Filled(Meta.CachedOf(s, addr), patch.host, None)
  {
    hide Meta.RetryLookup, Meta.LaunchGeoAfterHost;
    if patch.ip != "" {
      var one := Meta.CachePatch(Meta.ClearInFlight(s, kind, patch.ip), kind, patch);
      var two := Meta.RetryLookup(one.s, kind, patch, parses, cfg, gen, clock);
      RetryKeepsCache(one.s, kind, patch, parses, cfg, gen, clock);
      RetryKeepsCache(two.s, kind, patch, parses, cfg, gen, clock);
    }
  }

  // ----- State and replay -----

  function Successes(xs: seq<Attempt>): seq<bool> {
    seq(|xs|, i requires 0 <= i < |xs| => xs[i].success)
  }

  /** What the callbacks for a TTL of one generation report. */
  function Reported(events: seq<ProbeEvent>, t: int, gen: nat): seq<bool> {
    if events == [] then []
    else
      var e := events[|events| - 1];
      Reported(events[..|events| - 1], t, gen) + if e.ttl == t && e.gen == gen then [e.success] else []
  }

  ghost predicate CountersAgree(s: Sched, t: int, told: Told) {
    && 0 <= t < |s.states| && s.generation == told.gen && s.knownFinal == told.final
    && s.states[t].completed == |told.answers| && s.states[t].consecutiveErrs == told.errs
  }

  ghost predicate RowsAgree(agg: View, t: int, addr: string, told: Told) {
    if told.cleared then t !in agg && told.final != -1 && told.final < t
    else RowsSay(RowsAt(agg, t), t, addr, told.answers, told.name)
  }

  ghost predicate Agrees(s: Sched, events: seq<ProbeEvent>, t: int, addr: string, told: Told) {
    && CountersAgree(s, t, told)
    && RowsAgree(s.agg, t, addr, told)
    && Meta.CachedOf(s.meta, addr) == told.found
    && Reported(events, t, told.gen) == Successes(told.answers)
  }

  /** What scheduling and the leaving of a probe do not touch. */
  ghost predicate SameReport(s: Sched, s': Sched, t: int) {
    && |s'.states| == |s.states| && s'.generation == s.generation && s'.knownFinal == s.knownFinal
    && s'.agg == s.agg && s'.meta.cache == s.meta.cache
    && (0 <= t < |s.states| ==> s'.states[t].completed == s.states[t].completed &&
                                s'.states[t].consecutiveErrs == s.states[t].consecutiveErrs)
  }

  lemma SameReportAgrees(s: Sched, s': Sched, events: seq<ProbeEvent>, t: int, addr: string, told: Told)
    requires Agrees(s, events, t, addr, told) && SameReport(s, s', t)
    ensures Agrees(s', events, t, addr, told)
  {
    hide RowsAgree, Reported, Successes;
  }

  lemma ScheduleSameReport(s: Sched, cfg: Config, ttl: int, now: int, at: seq<int>, t: int)
    requires 0 <= ttl && cfg.maxHops < |s.states|
    ensures SameReport(s, ScheduleFrom(s, cfg, ttl, now, at).s, t)
    decreases cfg.maxHops - ttl
  {
  }

  lemma OneMoreReport(events: seq<ProbeEvent>, e: ProbeEvent, t: int, gen: nat, xs: seq<Attempt>, x: Attempt)
    requires Reported(events, t, gen) == Successes(xs) && e.ttl == t && e.gen == gen && e.success == x.success
    ensures Reported(events + [e], t, gen) == Successes(xs + [x])
  {
    assert (events + [e])[..|events|] == events;
  }

  lemma OtherReport(events: seq<ProbeEvent>, more: seq<ProbeEvent>, t: int, gen: nat)
    requires |more| <= 1 && forall i :: 0 <= i < |more| ==> more[i].ttl != t
    ensures Reported(events + more, t, gen) == Reported(events, t, gen)
  {
    if more == [] {
      assert events + more == events;
    } else {
      assert (events + more)[..|events + more| - 1] == events;
    }
  }

  lemma {:induction false} NoReportYet(events: seq<ProbeEvent>, t: int, gen: nat)
    requires forall i :: 0 <= i < |events| ==> events[i].gen < gen
    ensures Reported(events, t, gen) == []
  {
    if events != [] {
      NoReportYet(events[..|events| - 1], t, gen);
    }
  }

  // ----- One result -----

  lemma FailureHeard(s: Sched, cfg: Config, events: seq<ProbeEvent>, ttl: int, cancelled: bool, t: int, addr: string, told: Told)
    requires Agrees(s, events, t, addr, told) && IsAddress(addr)
    requires 0 <= ttl < |s.states| && cfg.beginHop >= 0 && cfg.maxHops < |s.states|
    requires told.final == -1 || ttl <= told.final
    ensures var p := ProcessError(s, cfg, ttl, cancelled);
      Agrees(p.s, events + p.events, t, addr, if ttl != t || cancelled then told else HearFailure(cfg, told))
  {
    hide ComputeIteration, UpdateRows, RowsSay, Reported, Successes, IsAddress;
    var p := ProcessError(s, cfg, ttl, cancelled);
    assert events + [] == events;
    if ttl != t {
      OtherReport(events, p.events, t, told.gen);
    } else if !cancelled && told.errs + 1 >= cfg.maxConsecErrs {
      OneMoreReport(events, p.events[0], t, told.gen, told.answers, SILENCE);
      SilenceRecorded(RowsAt(s.agg, t), t, addr, told.answers, told.name, !told.cleared);
    }
  }

  lemma SilenceRecorded(rows: Rows, t: int, addr: string, xs: seq<Attempt>, name: Meta.Cached, there: bool)
    requires IsAddress(addr) && (there ==> RowsSay(rows, t, addr, xs, name))
    ensures there ==> RowsSay(UpdateRows(rows, t, [TIMEOUT]), t, addr, xs + [SILENCE], name)
  {
    hide RowsSay, UpdateRows, IsAddress, Renamed, Trim;
    AddressNotEmpty(addr);
    assert Enriches(TIMEOUT, SILENCE);
    if there {
      RowsSayMore(rows, t, addr, xs, name, TIMEOUT, SILENCE);
    }
  }

  lemma DetectHeard(s: Sched, cfg: Config, events: seq<ProbeEvent>, ttl: int, r: ProbeResult, t: int, addr: string, told: Told)
    requires Agrees(s, events, t, addr, told) && (r.success <==> r.addr != "") && cfg.dst != "" && t >= 0 && ttl >= 0
    requires s.knownFinal == -1 || s.knownFinal >= 0
    ensures var lower := r.addr == cfg.dst && (told.final == -1 || ttl < told.final);
      Agrees(DetectDestination(s, cfg, ttl, r), events, t, addr,
             told.(final := if lower then ttl else told.final, cleared := told.cleared || (lower && t == told.final)))
  {
    hide RowsSay, Reported, Successes;
  }

  lemma AnswerKnown(cfg: Config, meta: Meta.State, r0: ProbeResult, fill: Fill)
    requires r0.success <==> r0.addr != ""
    ensures var r := ApplyCache(meta, r0); var a := AttemptOf(cfg, r, fill);
      && r.success == r0.success
      && Enriches(a, Attempt(r0.success, r0.addr, r0.host, r0.rtt, r0.geo, r0.mpls))
      && (r0.addr != "" ==> Meta.Cached(a.host, a.geo) == WhatIsKnown(cfg, r0, Meta.CachedOf(meta, r0.addr), fill))
  {
  }

  lemma CountHeard(s: Sched, cfg: Config, events: seq<ProbeEvent>, ttl: int, r0: ProbeResult, fill: Fill, clock: Meta.Clock,
                   t: int, addr: string, told: Told)
    requires Agrees(s, events, t, addr, told) && IsAddress(addr) && (r0.success <==> r0.addr != "")
    requires 0 <= ttl < |s.states| && cfg.beginHop >= 0 && cfg.maxHops < |s.states|
    requires told.final == -1 || ttl <= told.final
    ensures var p := CountResult(s, cfg, ttl, r0, fill, clock);
      Agrees(p.s, events + p.events, t, addr,
             if ttl != t then told
             else told.(errs := 0, answers := told.answers + [Attempt(r0.success, r0.addr, r0.host, r0.rtt, r0.geo, r0.mpls)],
                        name := if r0.addr == addr then Renamed(told.name, WhatIsKnown(cfg, r0, told.found, fill)) else told.name))
  {
    hide ComputeIteration, UpdateRows, RowsSay, Reported, Successes, IsAddress, ApplyCache, AttemptOf, FetchAsync,
      WhatIsKnown, Renamed, Meta.LaunchLookups, Enriches;
    var p := CountResult(s, cfg, ttl, r0, fill, clock);
    var r := ApplyCache(s.meta, r0);
    var a := AttemptOf(cfg, r, fill);
    AddressNotEmpty(addr);
    AnswerKnown(cfg, s.meta, r0, fill);
    LaunchesKeepCache(s.meta, r.addr, r.host, r.geo, cfg.meta, s.generation, clock);
    SameCache(p.s.meta, s.meta, addr);
    if ttl != t {
      OtherReport(events, p.events, t, told.gen);
    } else {
      var x := Attempt(r0.success, r0.addr, r0.host, r0.rtt, r0.geo, r0.mpls);
      OneMoreReport(events, p.events[0], t, told.gen, told.answers, x);
      if !told.cleared {
        RowsSayMore(RowsAt(s.agg, t), t, addr, told.answers, told.name, a, x);
      }
    }
  }

  lemma SameCache(a: Meta.State, b: Meta.State, addr: string)
    requires a.cache == b.cache
    ensures Meta.CachedOf(a, addr) == Meta.CachedOf(b, addr)
  {
  }

  lemma SuccessHeard(s: Sched, cfg: Config, events: seq<ProbeEvent>, ttl: int, r: ProbeResult, fill: Fill, clock: Meta.Clock,
                     t: int, addr: string, told: Told)
    requires Agrees(s, events, t, addr, told) && IsAddress(addr) && (r.success <==> r.addr != "") && cfg.dst != ""
    requires 0 <= ttl < |s.states| && cfg.beginHop >= 0 && cfg.maxHops < |s.states| && s.knownFinal >= -1
    requires told.final == -1 || ttl <= told.final
    requires |DetectDestination(s, cfg, ttl, r).states| == |s.states| && !BudgetReached(DetectDestination(s, cfg, ttl, r), cfg, ttl)
    ensures var p := ProcessSuccess(s, cfg, ttl, r, fill, clock);
      Agrees(p.s, events + p.events, t, addr, HearAnswer(cfg, t, addr, told, ttl, r, fill))
  {
    hide Agrees, CountResult, DetectDestination, BudgetReached, IsAddress, WhatIsKnown, Renamed;
    assert t >= 0 && s.knownFinal == told.final by { AgreesBasics(s, events, t, addr, told); }
    DetectHeard(s, cfg, events, ttl, r, t, addr, told);
    var lower := r.addr == cfg.dst && (told.final == -1 || ttl < told.final);
    var told1 := told.(final := if lower then ttl else told.final, cleared := told.cleared || (lower && t == told.final));
    CountHeard(DetectDestination(s, cfg, ttl, r), cfg, events, ttl, r, fill, clock, t, addr, told1);
  }

  lemma AgreesBasics(s: Sched, events: seq<ProbeEvent>, t: int, addr: string, told: Told)
    requires Agrees(s, events, t, addr, told)
    ensures 0 <= t < |s.states| && s.generation == told.gen && s.knownFinal == told.final
  {
  }

  lemma ResultHeard(w: World, cfg: Config, i: Input, t: int, addr: string, told: Told)
    requires Inv(w, cfg) && Enabled(w, i) && i.ProbeDone? && ValidConfig(cfg) && Shaped(w.s, cfg)
    requires Agrees(w.s, w.events, t, addr, told) && IsAddress(addr)
    ensures var w1 := AfterResult(w, cfg, i); Agrees(w1.s, w1.events, t, addr, Hear(cfg, t, addr, told, i))
  {
    hide Inv, Contract, IsAddress, ProcessError, ProcessSuccess, Agrees, HearAnswer, HearFailure, Popped;
    var cp, s := i.cp, w.s;
    AgreesBasics(s, w.events, t, addr, told);
    assert w.events + [] == w.events;
    if cp.gen != s.generation {
      SameReportAgrees(s, s.(inFlight := s.inFlight - 1), w.events, t, addr, told);
    } else {
      ResultInRange(w, cfg, i);
      var s2 := Popped(s, cp.ttl);
      PoppedSameReport(s, cp.ttl, t);
      SameReportAgrees(s, s2, w.events, t, addr, told);
      PoppedIsPopped(s, cp.ttl);
      if !s.states[cp.ttl].disabled {
        if cp.failed {
          FailureHeard(s2, cfg, w.events, cp.ttl, i.cancelled, t, addr, told);
        } else {
          NotUsedUp(w, cfg, i);
          DetectKeepsLength(s2, cfg, cp.ttl, cp.result);
          SuccessHeard(s2, cfg, w.events, cp.ttl, cp.result, i.fill, i.clock, t, addr, told);
        }
      }
    }
  }

  lemma PoppedIsPopped(s: Sched, ttl: int)
    requires 0 <= ttl < |s.states|
    ensures Popped(s, ttl) ==
      SetHop(s.(inFlight := s.inFlight - 1), ttl, s.states[ttl].(inFlightCount := s.states[ttl].inFlightCount - 1))
  {
  }

  lemma PoppedSameReport(s: Sched, ttl: int, t: int)
    requires 0 <= ttl < |s.states|
    ensures SameReport(s, Popped(s, ttl), t) && Popped(s, ttl).states[ttl].disabled == s.states[ttl].disabled
  {
  }

  lemma DetectKeepsLength(s: Sched, cfg: Config, ttl: int, r: ProbeResult)
    ensures |DetectDestination(s, cfg, ttl, r).states| == |s.states|
  {
  }

  /** A result of this generation is for a TTL in range, disabled exactly above
      the final one. */
  lemma ResultInRange(w: World, cfg: Config, i: Input)
    requires Inv(w, cfg) && Enabled(w, i) && i.ProbeDone? && i.cp.gen == w.s.generation
    ensures cfg.beginHop <= i.cp.ttl <= cfg.maxHops && Shaped(w.s, cfg) && ValidConfig(cfg)
    ensures w.s.states[i.cp.ttl].disabled <==> w.s.knownFinal != -1 && i.cp.ttl > w.s.knownFinal
    ensures (i.cp.result.success <==> i.cp.result.addr != "") && cfg.dst != "" && w.s.knownFinal >= -1
  {
    hide SentSum, Probes, CountersOk, RowsOk, Trim;
    assert HopOk(w.s, cfg, w.out, w.events, w.s.knownFinal, i.cp.ttl);
  }

  // ----- Every step and every run -----

  lemma LookupHeard(w: World, cfg: Config, i: Input, t: int, addr: string, told: Told)
    requires i.LookupDone? && Agrees(w.s, w.events, t, addr, told) && IsAddress(addr)
    ensures Agrees(ProcessMetadata(w.s, cfg, i.kind, i.patch, i.gen, i.parses, i.mclock).s, w.events, t, addr,
                   Hear(cfg, t, addr, told, i))
  {
    hide RowsSay, Reported, Successes, IsAddress, Meta.ProcessResult, PatchMetadata, Trim, CountFrom;
    AddressNotEmpty(addr);
    EmptyText();
    if i.gen == w.s.generation && i.patch.ip != "" {
      ResultCached(w.s.meta, i.kind, i.patch, i.parses, cfg.meta, i.gen, i.mclock, addr);
      PatchKeepsSums(w.s.agg, i.patch.ip, i.patch.host, i.patch.geo, t);
      if !told.cleared {
        PatchedRowsSay(w.s.agg, t, addr, told.answers, told.name, i.patch.ip, i.patch.host, i.patch.geo);
      }
    }
  }

  lemma NothingSaid(t: int, addr: string)
    ensures RowsSay(map[], t, addr, [], NOBODY)
  {
  }

  lemma ResetHeard(w: World, cfg: Config, t: int, addr: string, told: Told)
    requires Inv(w, cfg) && Agrees(w.s, w.events, t, addr, told)
    ensures Agrees(HandleReset(w.s), w.events, t, addr, NOTHING_TOLD.(gen := told.gen + 1))
  {
    hide RowsSay, Reported, HopsOk, IsAddress, TokensOk;
    NothingSaid(t, addr);
    NoReportYet(w.events, t, told.gen + 1);
  }

  lemma ReadyHeard(w: World, cfg: Config, paused: bool, time: int, at: seq<int>, t: int, addr: string, told: Told)
    requires 0 <= cfg.beginHop && cfg.maxHops < |w.s.states| && Agrees(w.s, w.events, t, addr, told)
    ensures var w' := ThenSchedule(w, cfg, paused, time, at); Agrees(w'.s, w'.events, t, addr, told)
  {
    hide Agrees, ScheduleFrom;
    if !paused {
      ScheduleSameReport(w.s, cfg, cfg.beginHop, time, at, t);
      SameReportAgrees(w.s, ScheduleFrom(w.s, cfg, cfg.beginHop, time, at).s, w.events, t, addr, told);
    }
  }

  lemma StepHeard(w: World, cfg: Config, i: Input, t: int, addr: string, told: Told)
    requires Inv(w, cfg) && Enabled(w, i) && ValidConfig(cfg) && Shaped(w.s, cfg)
    requires Agrees(w.s, w.events, t, addr, told) && IsAddress(addr)
    ensures var w' := Step(w, cfg, i); Agrees(w'.s, w'.events, t, addr, Hear(cfg, t, addr, told, i))
  {
    hide Inv, Agrees, ThenSchedule, ProcessResult, ProcessMetadata, IsDone, Contract, IsAddress, HandleReset, HearAnswer,
      HearFailure, HearLookup;
    match i
    case ProbeDone(cp, cancelled, fill, clock, paused, time, at) =>
      ResultHeard(w, cfg, i, t, addr, told);
      ProcessingKeepsShape(w.s, cfg, cp, cancelled, fill, clock);
      ReadyHeard(AfterResult(w, cfg, i), cfg, paused, time, at, t, addr, Hear(cfg, t, addr, told, i));
    case LookupDone(kind, patch, gen, parses, clock) => LookupHeard(w, cfg, i, t, addr, told);
    case LookupDropped(l) =>
    case Tick(reset, paused, time, at) =>
      if reset {
        ResetHeard(w, cfg, t, addr, told);
        ResetLength(w.s);
        ReadyHeard(w.(s := HandleReset(w.s), log := w.log + [Meta.WasReset]), cfg, paused, time, at, t, addr,
                   NOTHING_TOLD.(gen := told.gen + 1));
      } else {
        ReadyHeard(w, cfg, paused, time, at, t, addr, told);
      }
  }

  lemma ResetLength(s: Sched)
    ensures |HandleReset(s).states| == |s.states|
  {
  }

  lemma {:induction false} RunHeard(w: World, cfg: Config, inputs: seq<Input>, t: int, addr: string, told: Told)
    requires Inv(w, cfg) && ValidConfig(cfg) && Shaped(w.s, cfg) && ValidRun(w, cfg, inputs)
    requires Agrees(w.s, w.events, t, addr, told) && IsAddress(addr)
    ensures var w' := Run(w, cfg, inputs); Agrees(w'.s, w'.events, t, addr, HearAll(cfg, t, addr, told, inputs))
    decreases |inputs|
  {
    hide Inv, Step, Enabled, Agrees, ValidConfig, Hear, IsAddress;
    if inputs != [] {
      StepKeeps(w, cfg, inputs[0]);
      StepHeard(w, cfg, inputs[0], t, addr, told);
      RunHeard(Step(w, cfg, inputs[0]), cfg, inputs[1..], t, addr, Hear(cfg, t, addr, told, inputs[0]));
    }
  }

  lemma BeginHeard(cfg: Config, paused: bool, time: int, at: seq<int>, t: int, addr: string)
    requires ValidConfig(cfg) && cfg.beginHop <= t <= cfg.maxHops
    ensures var w := Begin(cfg, paused, time, at); Agrees(w.s, w.events, t, addr, NOTHING_TOLD)
  {
    hide RowsSay, ThenSchedule, IsAddress;
    var w := World(Initial(cfg), multiset{}, [], multiset{}, [], 0, false);
    NothingSaid(t, addr);
    assert Agrees(w.s, w.events, t, addr, NOTHING_TOLD);
    ReadyHeard(w, cfg, paused, time, at, t, addr, NOTHING_TOLD);
  }

  // ----- What the rows show -----

  /** A displayed row shows these answers; sent and loss apart, which may count
      silent probes too. */
  ghost predicate ShowsAnswers(row: HopStat, t: int, addr: string, xs: seq<Attempt>) {
    var rs := Rtts(xs);
    && row.ttl == t && row.ip == addr
    && row.received == |rs|
    && row.last == LastOf(rs)
    && row.avg == Average(rs)
    && IsLeastPositive(row.best, rs)
    && IsGreatest(row.wrst, rs)
    && row.variance == DirectVariance(rs)
  }

  lemma RowShows(acc: Accum, t: int, addr: string, xs: seq<Attempt>, name: Meta.Cached)
    requires RowOfAddress(acc, t, addr, xs, name)
    ensures ShowsAnswers(BuildStat(acc), t, addr, From(xs, addr))
    ensures BuildStat(acc).host == name.host && BuildStat(acc).geo == name.geo
  {
    hide Measure, Rtts, Average, DirectVariance, IsLeastPositive, IsGreatest, Variance, Mean;
    var own := From(xs, addr);
    RowOfMeasures(acc.(sent := |own|), t, addr, own);
  }

  /** Over any run, whoever answers: the counters of a TTL and the callbacks for
      it tell its counted results one by one; unless its rows were cleared, an
      address has a row exactly when it answered, and the row shows the RTTs,
      the host and the location that the messages brought for that address. */
  lemma RowsShowAnswers(cfg: Config, paused: bool, time: int, at: seq<int>, inputs: seq<Input>, t: int, addr: string)
    requires ValidConfig(cfg) && Shaped(Begin(cfg, paused, time, at).s, cfg) && IsAddress(addr)
    requires ValidRun(Begin(cfg, paused, time, at), cfg, inputs) && cfg.beginHop <= t <= cfg.maxHops
    ensures var w, told := Run(Begin(cfg, paused, time, at), cfg, inputs), HearAll(cfg, t, addr, NOTHING_TOLD, inputs);
      && CountersAgree(w.s, t, told)
      && Reported(w.events, t, told.gen) == Successes(told.answers)
      && (told.cleared ==> t !in w.s.agg && told.final != -1 && told.final < t)
      && (!told.cleared && AllQuiet(told.answers) ==>
            var rows := RowsAt(w.s.agg, t);
            && (IpKey(addr) in rows <==> CountFrom(told.answers, addr) > 0)
            && (IpKey(addr) in rows ==>
                  var row := BuildStat(rows[IpKey(addr)]);
                  ShowsAnswers(row, t, addr, From(told.answers, addr)) && Meta.Cached(row.host, row.geo) == told.name))
  {
    hide Inv, ValidRun, Run, HearAll, IsAddress, Begin, ValidConfig, From, AllQuiet, OnlyFrom, OnlyRow, ShowsAnswers, RowOfAddress;
    RunAgrees(cfg, paused, time, at, inputs, t, addr);
    var w, told := Run(Begin(cfg, paused, time, at), cfg, inputs), HearAll(cfg, t, addr, NOTHING_TOLD, inputs);
    if !told.cleared && AllQuiet(told.answers) && IpKey(addr) in RowsAt(w.s.agg, t) {
      RowShows(RowsAt(w.s.agg, t)[IpKey(addr)], t, addr, told.answers, told.name);
    }
  }

  lemma RunAgrees(cfg: Config, paused: bool, time: int, at: seq<int>, inputs: seq<Input>, t: int, addr: string)
    requires ValidConfig(cfg) && Shaped(Begin(cfg, paused, time, at).s, cfg) && IsAddress(addr)
    requires ValidRun(Begin(cfg, paused, time, at), cfg, inputs) && cfg.beginHop <= t <= cfg.maxHops
    ensures var w := Run(Begin(cfg, paused, time, at), cfg, inputs);
      Agrees(w.s, w.events, t, addr, HearAll(cfg, t, addr, NOTHING_TOLD, inputs))
  {
    hide Inv, ValidRun, Run, HearAll, IsAddress, Begin, Agrees;
    BeginOk(cfg, paused, time, at);
    BeginHeard(cfg, paused, time, at, t, addr);
    RunHeard(Begin(cfg, paused, time, at), cfg, inputs, t, addr, NOTHING_TOLD);
  }

  /** Over any run, when one address alone answers a TTL: the TTL has one row,
      and every column of it is what the answers of this generation say,
      silent and synthetic ones included. */
  lemma OnlyResponderShown(cfg: Config, paused: bool, time: int, at: seq<int>, inputs: seq<Input>, t: int, addr: string)
    requires ValidConfig(cfg) && Shaped(Begin(cfg, paused, time, at).s, cfg) && IsAddress(addr)
    requires ValidRun(Begin(cfg, paused, time, at), cfg, inputs) && cfg.beginHop <= t <= cfg.maxHops
    requires var told := HearAll(cfg, t, addr, NOTHING_TOLD, inputs);
      && !told.cleared && AllQuiet(told.answers) && OnlyFrom(told.answers, addr) && CountFrom(told.answers, addr) > 0
    ensures var told := HearAll(cfg, t, addr, NOTHING_TOLD, inputs);
      var rows := RowsAt(Run(Begin(cfg, paused, time, at), cfg, inputs).s.agg, t);
      && rows.Keys == {IpKey(addr)}
      && var row := BuildStat(rows[IpKey(addr)]);
      && RowIsDirect(row, t, addr, told.answers)
      && row.host == told.name.host && row.geo == told.name.geo
      && (forall l :: l in row.mpls <==>
            exists i, j :: 0 <= i < |told.answers| && 0 <= j < |told.answers[i].mpls| &&
                           l == Trim(told.answers[i].mpls[j]) && l != "")
  {
    hide Inv, ValidRun, Run, HearAll, IsAddress, Begin, ValidConfig, From, OnlyFrom, Rtts, RowIsDirect, Trim, AllQuiet,
      RowOfAddress, AllLabels, Measure;
    RunAgrees(cfg, paused, time, at, inputs, t, addr);
    var told := HearAll(cfg, t, addr, NOTHING_TOLD, inputs);
    var rows := RowsAt(Run(Begin(cfg, paused, time, at), cfg, inputs).s.agg, t);
    assert OnlyRow(rows, t, addr, told.answers);
    var acc := rows[IpKey(addr)];
    assert rows.Keys == {IpKey(addr)};
    RowOfMeasures(acc, t, addr, told.answers);
    RowShows(acc, t, addr, told.answers, told.name);
    LabelsAreThose(told.answers);
  }

  lemma LabelsAreThose(xs: seq<Attempt>)
    ensures forall l :: l in AllLabels(xs) <==>
      exists i, j :: 0 <= i < |xs| && 0 <= j < |xs[i].mpls| && l == Trim(xs[i].mpls[j]) && l != ""
  {
    hide Trim;
    forall l | l in AllLabels(xs)
      ensures exists i, j :: 0 <= i < |xs| && 0 <= j < |xs[i].mpls| && l == Trim(xs[i].mpls[j]) && l != ""
    {
      var x, k :| x in xs && k in x.mpls && Trim(k) != "" && l == Trim(k);
      var i :| 0 <= i < |xs| && xs[i] == x;
      var j :| 0 <= j < |xs[i].mpls| && xs[i].mpls[j] == k;
    }
  }
}
