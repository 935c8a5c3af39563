/** What grouping, merging and migrating make of the attempts behind each row,
    whoever answered: counts, RTTs and labels are those of all of them together,
    names are those known first or last, and rows know their TTL. */
module MtrMerging {
  import opened Text
  import opened MtrAccum
  import opened MtrRows
  import opened MtrDirectStats

  /** The attempts that belong to a key, in order. */
  function OfKey(xs: seq<Attempt>, key: Key): seq<Attempt> {
    if xs == [] then []
    else
      var a := xs[|xs| - 1];
      OfKey(xs[..|xs| - 1], key) + if AttemptKey(a) == key then [a] else []
  }

  function FirstGeo(xs: seq<Attempt>): Option<Geo> {
    if xs == [] then None
    else if xs[0].geo.Some? then xs[0].geo
    else FirstGeo(xs[1..])
  }

  ghost predicate GroupShows(g: Group, xs: seq<Attempt>) {
    && xs != [] && g.host == Trim(xs[0].host) && g.ip == Trim(xs[0].ip)
    && g.count == |xs| && g.m == Measure(Rtts(xs)) && g.mpls == AllLabels(xs) && g.geo == FirstGeo(xs)
  }

  lemma {:induction false} FirstGeoOneMore(xs: seq<Attempt>, a: Attempt)
    ensures FirstGeo(xs + [a]) == if FirstGeo(xs).Some? then FirstGeo(xs) else a.geo
  {
    if xs == [] {
      assert [a][1..] == [];
    } else {
      FirstGeoOneMore(xs[1..], a);
      assert (xs + [a])[1..] == xs[1..] + [a];
    }
  }

  lemma IncludeShows(g: Group, xs: seq<Attempt>, a: Attempt)
    requires if xs == [] then g == NewGroup(Trim(a.host), Trim(a.ip)) else GroupShows(g, xs)
    ensures GroupShows(IncludeAttempt(g, a), xs + [a])
  {
    hide RttMs, Labels, Trim, AllLabels;
    IncludeMeasures(g, |xs|, Rtts(xs), a);
    assert (xs + [a])[..|xs|] == xs;
    OneMoreLabels(xs, a);
    FirstGeoOneMore(xs, a);
    if xs == [] {
      NoLabels();
    }
  }

  lemma NoLabels()
    ensures AllLabels([]) == {} && Rtts([]) == [] && FirstGeo([]) == None
  {
  }

  /** Each key that occurs has one group, made of its attempts. */
  lemma {:induction false} GroupsAreOfTheirAttempts(xs: seq<Attempt>, key: Key)
    ensures key in Groups(xs) <==> OfKey(xs, key) != []
    ensures key in Groups(xs) ==> GroupShows(Groups(xs)[key], OfKey(xs, key))
  {
    hide GroupShows, IncludeAttempt, AttemptKey, NewGroup, Trim;
    if xs != [] {
      var init, a := xs[..|xs| - 1], xs[|xs| - 1];
      GroupsAreOfTheirAttempts(init, key);
      if AttemptKey(a) == key {
        IncludeShows(GroupFor(Groups(init), a), OfKey(init, key), a);
      } else {
        assert OfKey(init, key) + [] == OfKey(init, key);
      }
    }
  }

  // ----- Rows -----

  /** Counts, RTTs and labels of the row are those of the attempts. */
  ghost predicate RowShows(acc: Accum, xs: seq<Attempt>) {
    acc.sent == |xs| && acc.m == Measure(Rtts(xs)) && acc.mpls == AllLabels(xs)
  }

  function Later<T(==)>(first: T, second: T, none: T): T {
    if second != none then second else first
  }

  lemma LabelsConcat(xs: seq<Attempt>, ys: seq<Attempt>)
    ensures AllLabels(xs + ys) == AllLabels(xs) + AllLabels(ys)
  {
    hide Trim;
    forall l | l in AllLabels(xs) + AllLabels(ys) ensures l in AllLabels(xs + ys) {
      if l in AllLabels(xs) {
        var x, k :| x in xs && k in x.mpls && Trim(k) != "" && l == Trim(k);
        assert x in xs + ys;
      } else {
        var y, k :| y in ys && k in y.mpls && Trim(k) != "" && l == Trim(k);
        assert y in xs + ys;
      }
    }
  }

  lemma MeasuresMerge(a: seq<real>, b: seq<real>)
    requires BelowSentinel(a) && BelowSentinel(b)
    ensures AddAccumMoments(Measure(a), Measure(b)) == Measure(a + b)
  {
    MeasureBounded(a);
    MeasureBounded(b);
    MeasureConcat(a, b);
  }

  /** A batch of attempts added to a row: it shows all of them, and the host,
      address and location are those of the batch where it has them. */
  lemma GroupIsAdded(acc: Accum, xs: seq<Attempt>, g: Group, ys: seq<Attempt>)
    requires RowShows(acc, xs) && GroupShows(g, ys)
    ensures var r := MergeGroup(acc, g);
      && RowShows(r, xs + ys) && r.ttl == acc.ttl && r.key == acc.key
      && r.ip == Later(acc.ip, Trim(ys[0].ip), "") && r.host == Later(acc.host, Trim(ys[0].host), "")
      && r.geo == Later(acc.geo, FirstGeo(ys), None)
  {
    hide AddGroupMoments, AllLabels, Trim, FirstGeo;
    RttsBelowSentinel(ys);
    MeasureConcat(Rtts(xs), Rtts(ys));
    RttsConcat(xs, ys);
    LabelsConcat(xs, ys);
  }

  /** One row merged into another: the result shows the attempts of both, and
      keeps its own host, address and location where it has them. */
  lemma RowIsAdded(dst: Accum, xs: seq<Attempt>, src: Accum, ys: seq<Attempt>)
    requires RowShows(dst, xs) && RowShows(src, ys)
    ensures var r := MergeAccum(dst, src);
      && RowShows(r, xs + ys) && r.ttl == dst.ttl && r.key == dst.key
      && r.ip == Later(src.ip, dst.ip, "") && r.host == Later(src.host, dst.host, "")
      && r.geo == Later(src.geo, dst.geo, None)
  {
    hide AddAccumMoments, AllLabels;
    RttsBelowSentinel(xs);
    RttsBelowSentinel(ys);
    MeasuresMerge(Rtts(xs), Rtts(ys));
    RttsConcat(xs, ys);
    LabelsConcat(xs, ys);
  }

  // ----- Whole TTLs -----

  /** The attempts behind the rows of a TTL, key by key. */
  ghost predicate RowsShow(rows: Rows, ttl: int, of: map<Key, seq<Attempt>>) {
    && rows.Keys == of.Keys
    && forall k :: k in rows ==> RowShows(rows[k], of[k]) && rows[k].ttl == ttl && rows[k].key == k
  }

  function Behind(of: map<Key, seq<Attempt>>, k: Key): seq<Attempt> {
    if k in of then of[k] else []
  }

  lemma NothingBehind()
    ensures forall ttl, key :: RowShows(NewAccum(ttl, key), [])
  {
    NoLabels();
  }

  /** The batch joins the attempts behind the rows. */
  function Joined(of: map<Key, seq<Attempt>>, xs: seq<Attempt>): map<Key, seq<Attempt>> {
    map k | k in of.Keys + Groups(xs).Keys :: Behind(of, k) + OfKey(xs, k)
  }

  lemma BatchShows(rows: Rows, ttl: int, of: map<Key, seq<Attempt>>, xs: seq<Attempt>)
    requires RowsShow(rows, ttl, of)
    ensures RowsShow(MergeGroups(rows, ttl, Groups(xs)), ttl, Joined(of, xs))
  {
    hide RowShows, Groups, OfKey, MergeGroup, GroupShows, NewAccum;
    var after := MergeGroups(rows, ttl, Groups(xs));
    assert after.Keys == Joined(of, xs).Keys;
    forall k | k in after
      ensures RowShows(after[k], Joined(of, xs)[k]) && after[k].ttl == ttl && after[k].key == k
    {
      BatchShowsAt(rows, ttl, of, xs, k);
    }
  }

  lemma BatchShowsAt(rows: Rows, ttl: int, of: map<Key, seq<Attempt>>, xs: seq<Attempt>, k: Key)
    requires RowsShow(rows, ttl, of) && k in MergeGroups(rows, ttl, Groups(xs))
    ensures var r, ys := MergeGroups(rows, ttl, Groups(xs))[k], Joined(of, xs)[k];
      RowShows(r, ys) && r.ttl == ttl && r.key == k
  {
    hide RowShows, Groups, OfKey, MergeGroup, GroupShows;
    GroupsAreOfTheirAttempts(xs, k);
    NothingBehind();
    if k in Groups(xs) {
      GroupIsAdded(RowFor(rows, ttl, k), Behind(of, k), Groups(xs)[k], OfKey(xs, k));
    } else {
      assert Behind(of, k) + OfKey(xs, k) == of[k];
    }
  }

  /** The attempts of unknown origin go to the only known key. */
  ghost predicate Attributes(of: map<Key, seq<Attempt>>, after: map<Key, seq<Attempt>>) {
    if UnknownKey in of && |of.Keys - {UnknownKey}| == 1 then
      exists k :: k in of && k != UnknownKey && after == map[k := of[k] + of[UnknownKey]]
    else after == of
  }

  lemma UnknownShows(rows: Rows, ttl: int, of: map<Key, seq<Attempt>>) returns (after: map<Key, seq<Attempt>>)
    requires RowsShow(rows, ttl, of)
    ensures Attributes(of, after) && RowsShow(MergeUnknown(rows), ttl, after)
  {
    hide RowShows, MergeAccum;
    after := of;
    assert Known(rows) == of.Keys - {UnknownKey};
    if MergesUnknown(rows) {
      var k := TheKnown(rows);
      assert k in Known(rows);
      after := map[k := of[k] + of[UnknownKey]];
      RowIsAdded(rows[k], of[k], rows[UnknownKey], of[UnknownKey]);
    }
  }

  /** After an update every row of the TTL shows the attempts of its key, old and
      new, together with those of unknown origin if it is the only known one. */
  lemma UpdateShows(rows: Rows, ttl: int, of: map<Key, seq<Attempt>>, xs: seq<Attempt>)
    returns (after: map<Key, seq<Attempt>>)
    requires RowsShow(rows, ttl, of) && xs != []
    ensures Attributes(Joined(of, xs), after) && RowsShow(UpdateRows(rows, ttl, xs), ttl, after)
  {
    hide RowsShow, MergeGroups, MergeUnknown, Joined, Attributes;
    BatchShows(rows, ttl, of, xs);
    after := UnknownShows(MergeGroups(rows, ttl, Groups(xs)), ttl, Joined(of, xs));
  }

  function Gathered(from: map<Key, seq<Attempt>>, to: map<Key, seq<Attempt>>): map<Key, seq<Attempt>> {
    map k | k in from.Keys + to.Keys :: Behind(to, k) + Behind(from, k)
  }

  lemma MigratedShows(f: Rows, t: Rows, fromTtl: int, toTtl: int, from: map<Key, seq<Attempt>>, to: map<Key, seq<Attempt>>)
    requires RowsShow(f, fromTtl, from) && RowsShow(t, toTtl, to)
    ensures RowsShow(MigratedRows(f, t, toTtl, 0), toTtl, Gathered(from, to))
  {
    hide RowShows, MergeAccum, Cap, Moved;
    CapOff();
    var rows, all := MigratedRows(f, t, toTtl, 0), Gathered(from, to);
    assert rows.Keys == all.Keys;
    forall k | k in all ensures RowShows(rows[k], all[k]) && rows[k].ttl == toTtl && rows[k].key == k {
      if k in f && k in t {
        RowIsAdded(t[k], to[k], f[k], from[k]);
      } else if k in f {
        assert Behind(to, k) + Behind(from, k) == from[k];
        MovedShows(f[k], from[k], toTtl);
      } else {
        assert Behind(to, k) + Behind(from, k) == to[k];
      }
    }
  }

  lemma CutAfterwards(f: Rows, t: Rows, toTtl: int, maxPerHop: int)
    ensures var plain := MigratedRows(f, t, toTtl, 0);
      MigratedRows(f, t, toTtl, maxPerHop) == map k | k in plain :: Cap(plain[k], maxPerHop)
  {
    hide MergeAccum, Cap, Moved;
    CapOff();
  }

  /** Migrating one TTL to another joins the attempts key by key under that TTL;
      each row is then cut to the budget. */
  lemma MigrationShows(view: View, fromTtl: int, toTtl: int, maxPerHop: int, from: map<Key, seq<Attempt>>,
                       to: map<Key, seq<Attempt>>)
    requires fromTtl != toTtl
    requires RowsShow(RowsAt(view, fromTtl), fromTtl, from) && RowsShow(RowsAt(view, toTtl), toTtl, to)
    ensures var plain, cut := MigrateStats(view, fromTtl, toTtl, 0), MigrateStats(view, fromTtl, toTtl, maxPerHop);
      && RowsAt(plain, fromTtl) == map[] && RowsShow(RowsAt(plain, toTtl), toTtl, Gathered(from, to))
      && (from != map[] ==>
            RowsAt(cut, toTtl) == map k | k in RowsAt(plain, toTtl) :: Cap(RowsAt(plain, toTtl)[k], maxPerHop))
  {
    hide RowShows, MigratedRows, Cap;
    var f, t := RowsAt(view, fromTtl), RowsAt(view, toTtl);
    assert f == map[] <==> f.Keys == {};
    assert from == map[] <==> from.Keys == {};
    if f == map[] {
      forall k | k in to ensures Gathered(from, to)[k] == to[k] {
        assert Behind(to, k) + Behind(from, k) == to[k];
      }
    } else {
      MigratedShows(f, t, fromTtl, toTtl, from, to);
      CutAfterwards(f, t, toTtl, maxPerHop);
    }
  }

  lemma CapOff()
    ensures forall acc: Accum :: Cap(acc, 0) == acc
  {
  }

  lemma MovedShows(acc: Accum, xs: seq<Attempt>, ttl: int)
    requires RowShows(acc, xs)
    ensures var r := Moved(acc, ttl);
      RowShows(r, xs) && r.ttl == ttl && r.key == acc.key && r.host == acc.host && r.ip == acc.ip && r.geo == acc.geo
  {
  }
}
