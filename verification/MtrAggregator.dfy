/** MTRAggregator: accumulators on the heap, reached through a nested map.
    Every method is proved against the operation of MtrRows on the view. */
module MtrAggregator {
  import opened Text
  import opened MtrAccum
  import opened MtrRows

  class HopAccum {
    var ttl: int
    const key: Key
    var host: string
    var ip: string
    var sent: nat
    var m: Moments
    var geo: Option<Geo>
    const order: nat
    var mpls: set<string>

    function Val(): Accum
      reads this
    {
      Accum(ttl, key, host, ip, sent, m, geo, mpls)
    }

    constructor (ttl: int, key: Key, order: nat)
      ensures Val() == NewAccum(ttl, key) && this.order == order
    {
      this.ttl, this.key, this.order := ttl, key, order;
      host, ip, sent, m, geo, mpls := "", "", 0, NO_MOMENTS, None, {};
    }

    constructor Copy(acc: HopAccum)
      ensures Val() == acc.Val() && order == acc.order
    {
      ttl, key, order := acc.ttl, acc.key, acc.order;
      host, ip, sent, m, geo, mpls := acc.host, acc.ip, acc.sent, acc.m, acc.geo, acc.mpls;
    }

    method AddGroup(g: Group)
      modifies this
      ensures Val() == MergeGroup(old(Val()), g)
    {
      if g.ip != "" { ip := g.ip; }
      if g.host != "" { host := g.host; }
      if g.geo.Some? { geo := g.geo; }
      sent := sent + g.count;
      if g.m.received > 0 {
        m := AddGroupMoments(m, g.m);
      }
      mpls := mpls + g.mpls;
    }

    /** src may be this accumulator itself. */
    method AddAccum(src: HopAccum)
      modifies this
      ensures Val() == MergeAccum(old(Val()), old(src.Val()))
    {
      sent := sent + src.sent;
      if src.m.received > 0 {
        m := AddAccumMoments(m, src.m);
      }
      if geo.None? && src.geo.Some? { geo := src.geo; }
      if host == "" && src.host != "" { host := src.host; }
      if ip == "" && src.ip != "" { ip := src.ip; }
      mpls := mpls + src.mpls;
    }

    method CapAt(maxPerHop: int)
      modifies this
      ensures Val() == Cap(old(Val()), maxPerHop)
    {
      if maxPerHop <= 0 { return; }
      if sent > maxPerHop { sent := maxPerHop; }
      if m.received <= sent || sent == 0 { return; }
      m := CutMoments(m, sent);
    }

    method MoveTo(toTtl: int)
      modifies this
      ensures Val() == Moved(old(Val()), toTtl)
    {
      ttl := toTtl;
    }

    method Patch(ip: string, host: string, geo: Option<Geo>) returns (changed: bool)
      modifies this
      ensures Val() == PatchAccum(old(Val()), ip, host, geo)
      ensures changed <==> Val() != old(Val())
    {
      changed := false;
      if Trim(this.ip) != ip { return; }
      if host != "" && this.host == "" {
        this.host := host;
        changed := true;
      }
      if geo.Some? && this.geo.None? {
        this.geo := geo;
        changed := true;
      }
    }
  }

  type Heap = map<int, map<Key, HopAccum>>

  /** No accumulator is reachable from two places. */
  ghost predicate Unshared(stats: Heap) {
    forall t, k, t', k' :: t in stats && k in stats[t] && t' in stats && k' in stats[t'] && stats[t][k] == stats[t'][k']
      ==> t == t' && k == k'
  }

  ghost function Objects(stats: Heap): set<HopAccum> {
    set t, k | t in stats && k in stats[t] :: stats[t][k]
  }

  ghost function ViewRows(rows: map<Key, HopAccum>): Rows
    reads set k | k in rows :: rows[k]
  {
    map k | k in rows :: rows[k].Val()
  }

  ghost function ViewOf(stats: Heap): View
    reads Objects(stats)
  {
    map t | t in stats :: ViewRows(stats[t])
  }

  ghost function HeapRows(stats: Heap, ttl: int): map<Key, HopAccum> {
    if ttl in stats then stats[ttl] else map[]
  }

  /** The view as before, except that rows may be stored for one more TTL and
      the accumulator of (ttl, key) may be new or changed. */
  ghost predicate OneRowDiffers(view: View, stats: Heap, ttl: int, key: Key)
    reads Objects(stats)
  {
    && stats.Keys == view.Keys + {ttl}
    && key in stats[ttl] && stats[ttl].Keys == RowsAt(view, ttl).Keys + {key}
    && (forall t :: t in view && t != ttl ==> ViewRows(stats[t]) == view[t])
    && (forall k :: k in RowsAt(view, ttl) && k != key ==> stats[ttl][k].Val() == RowsAt(view, ttl)[k])
  }

  lemma ViewAfterPut(view: View, stats: Heap, ttl: int, key: Key)
    requires OneRowDiffers(view, stats, ttl, key)
    ensures ViewOf(stats) == view[ttl := RowsAt(view, ttl)[key := stats[ttl][key].Val()]]
  {
    var rhs := view[ttl := RowsAt(view, ttl)[key := stats[ttl][key].Val()]];
    assert ViewRows(stats[ttl]) == rhs[ttl];
    forall t | t in rhs ensures t in stats && ViewRows(stats[t]) == rhs[t] {
      if t != ttl { assert t in view; }
    }
    assert ViewOf(stats).Keys == rhs.Keys;
  }

  lemma RowIsThere(stats: Heap, ttl: int, key: Key)
    requires key in HeapRows(stats, ttl)
    ensures OneRowDiffers(ViewOf(stats), stats, ttl, key)
    ensures stats[ttl][key].Val() == RowFor(RowsAt(ViewOf(stats), ttl), ttl, key)
  {
  }

  lemma PutFresh(stats: Heap, ttl: int, key: Key, acc: HopAccum)
    requires Unshared(stats) && acc !in Objects(stats) && key !in HeapRows(stats, ttl)
    ensures var after := stats[ttl := HeapRows(stats, ttl)[key := acc]];
      && Unshared(after) && Objects(after) == Objects(stats) + {acc}
      && OneRowDiffers(ViewOf(stats), after, ttl, key)
      && RowFor(RowsAt(ViewOf(stats), ttl), ttl, key) == NewAccum(ttl, key)
  {
    var after := stats[ttl := HeapRows(stats, ttl)[key := acc]];
    ObjectsAfterPut(stats, after, ttl, key, acc);
    forall t, k, t', k' | t in after && k in after[t] && t' in after && k' in after[t'] && after[t][k] == after[t'][k']
      ensures t == t' && k == k'
    {
      assert after[t][k] == acc || after[t][k] in Objects(stats);
    }
  }

  lemma ObjectsAfterPut(stats: Heap, after: Heap, ttl: int, key: Key, acc: HopAccum)
    requires key !in HeapRows(stats, ttl)
    requires after == stats[ttl := HeapRows(stats, ttl)[key := acc]]
    ensures Objects(after) == Objects(stats) + {acc}
  {
    forall o | o in Objects(stats) ensures o in Objects(after) {
      var t, k :| t in stats && k in stats[t] && stats[t][k] == o;
      assert after[t][k] == o;
    }
    assert after[ttl][key] == acc;
  }

  method FindSingleKnown(rows: map<Key, HopAccum>) returns (single: bool, key: Key)
    ensures single <==> |rows.Keys - {UnknownKey}| == 1
    ensures single ==> rows.Keys - {UnknownKey} == {key}
  {
    var keys := rows.Keys - {UnknownKey};
    ghost var seen := {};
    var knownCount := 0;
    key := UnknownKey;
    while keys != {}
      invariant keys + seen == rows.Keys - {UnknownKey} && keys !! seen
      invariant knownCount == |seen| <= 1
      invariant knownCount == 1 ==> seen == {key}
      decreases keys
    {
      var k :| k in keys;
      assert |keys + seen| == |keys| + |seen|;
      if knownCount == 1 {
        assert |keys| >= 1;
        return false, key;
      }
      assert seen == {};
      key := k;
      knownCount := knownCount + 1;
      seen := {k};
      keys := keys - {k};
    }
    assert seen == rows.Keys - {UnknownKey};
    single := knownCount == 1;
  }

  lemma MergesIntoKey(rows: Rows, key: Key)
    requires UnknownKey in rows && Known(rows) == {key}
    ensures MergeUnknown(rows) == map[key := MergeAccum(rows[key], rows[UnknownKey])]
  {
    assert MergesUnknown(rows) && TheKnown(rows) == key;
  }

  lemma ViewAfterJoin(view: View, stats: Heap, ttl: int, key: Key)
    requires stats.Keys == view.Keys && ttl in stats && stats[ttl].Keys == {key}
    requires forall t :: t in view && t != ttl ==> ViewRows(stats[t]) == view[t]
    ensures ViewOf(stats) == view[ttl := map[key := stats[ttl][key].Val()]]
  {
    var rhs := view[ttl := map[key := stats[ttl][key].Val()]];
    assert ViewRows(stats[ttl]) == rhs[ttl];
    forall t | t in rhs ensures t in stats && ViewRows(stats[t]) == rhs[t] {
      if t != ttl { assert t in view; }
    }
    assert ViewOf(stats).Keys == rhs.Keys;
  }

  /** Storing an empty map for a TTL, or nothing, before its rows are merged. */
  lemma EmptyTtl(stats: Heap, ttl: int)
    requires Unshared(stats) && ttl !in stats
    ensures var after := stats[ttl := map[]];
      Unshared(after) && Objects(after) == Objects(stats) && ViewOf(after) == ViewOf(stats)[ttl := map[]]
  {
    var after: Heap := stats[ttl := map[]];
    assert forall t :: t in stats ==> after[t] == stats[t];
    forall o | o in Objects(stats) ensures o in Objects(after) {
      var t, k :| t in stats && k in stats[t] && stats[t][k] == o;
      assert after[t][k] == o;
    }
    assert ViewRows(after[ttl]) == map[];
    var rhs := ViewOf(stats)[ttl := map[]];
    forall t | t in rhs ensures ViewOf(after)[t] == rhs[t] {
    }
    assert ViewOf(after) == rhs;
  }

  lemma ViewKeys(stats: Heap)
    ensures ViewOf(stats).Keys == stats.Keys
    ensures forall t :: t in stats ==> ViewOf(stats)[t] == ViewRows(stats[t])
  {
  }

  lemma OneMoreDone(groups: map<Key, Group>, keys: set<Key>, key: Key)
    requires key in keys && key in groups
    ensures key !in groups - keys
    ensures groups - (keys - {key}) == (groups - keys)[key := groups[key]]
  {
  }

  lemma MergeNothing(rows: Rows, ttl: int)
    ensures MergeGroups(rows, ttl, map[]) == rows
  {
  }

  lemma KeepsOneRow(stats: Heap, ttl: int, key: Key)
    requires Unshared(stats) && ttl in stats && key in stats[ttl]
    ensures var after := stats[ttl := map[key := stats[ttl][key]]];
      Unshared(after) && Objects(after) <= Objects(stats)
  {
    var after := stats[ttl := map[key := stats[ttl][key]]];
    forall o | o in Objects(after) ensures o in Objects(stats) {
      var t, k :| t in after && k in after[t] && after[t][k] == o;
      assert stats[t][k] == o;
    }
    assert forall t, k :: t in after && k in after[t] ==> k in stats[t] && stats[t][k] == after[t][k];
  }

  lemma UpdateNothing(view: View)
    ensures MtrRows.Update(view, []) == view
  {
    assert Probed([]) == {};
  }

  class Aggregator {
    var stats: Heap
    var nextOrder: nat

    ghost predicate Valid()
      reads this
    {
      Unshared(stats)
    }

    ghost function Repr(): set<HopAccum>
      reads this
    {
      Objects(stats)
    }

    ghost function Value(): View
      reads this, Repr()
    {
      ViewOf(stats)
    }

    constructor ()
      ensures Valid() && Value() == map[] && Repr() == {}
    {
      stats := map[];
      nextOrder := 0;
    }

    method Reset()
      modifies this
      ensures Valid() && Value() == map[] && Repr() == {} && nextOrder == 0
    {
      stats := map[];
      nextOrder := 0;
    }

    method ClearHop(ttl: int)
      requires Valid()
      modifies this
      ensures Valid() && Repr() <= old(Repr())
      ensures Value() == MtrRows.ClearHop(old(Value()), ttl)
    {
      stats := stats - {ttl};
    }

    /** The accumulator of (ttl, key), created when missing. */
    method RowOf(ttl: int, key: Key) returns (acc: HopAccum)
      requires Valid()
      modifies this
      ensures Valid() && fresh(Repr() - old(Repr()))
      ensures ttl in stats && key in stats[ttl] && acc == stats[ttl][key]
      ensures acc.Val() == RowFor(RowsAt(old(Value()), ttl), ttl, key)
      ensures OneRowDiffers(old(Value()), stats, ttl, key)
    {
      hide Unshared, OneRowDiffers, ViewRows, RowsAt, RowFor, NewAccum;
      var rows: map<Key, HopAccum> := if ttl in stats then stats[ttl] else map[];
      if key in rows {
        acc := rows[key];
        RowIsThere(stats, ttl, key);
      } else {
        ghost var view := Value();
        acc := new HopAccum(ttl, key, nextOrder);
        nextOrder := nextOrder + 1;
        assert ViewOf(stats) == view;
        PutFresh(stats, ttl, key, acc);
        stats := stats[ttl := rows[key := acc]];
      }
    }

    method MergeGroupedHop(ttl: int, key: Key, group: Group)
      requires Valid()
      modifies this, Repr()
      ensures Valid() && fresh(Repr() - old(Repr()))
      ensures Value() == PutGroup(old(Value()), ttl, key, group)
    {
      ghost var view := Value();
      var acc := RowOf(ttl, key);
      acc.AddGroup(group);
      assert OneRowDiffers(view, stats, ttl, key);
      ViewAfterPut(view, stats, ttl, key);
    }

    /** Joins the unknown row to the known one when there is exactly one. */
    method MergeUnknownIntoSingleKnown(ttl: int)
      requires Valid() && ttl in stats
      modifies this, Repr()
      ensures Valid() && Repr() <= old(Repr())
      ensures Value() == old(Value())[ttl := MergeUnknown(old(Value())[ttl])]
    {
      ghost var view := Value();
      var rows := stats[ttl];
      assert view[ttl] == ViewRows(rows) && view[ttl := view[ttl]] == view;
      assert Known(view[ttl]) == rows.Keys - {UnknownKey};
      if UnknownKey !in rows { return; }
      var single, key := FindSingleKnown(rows);
      if !single { return; }
      MergesIntoKey(view[ttl], key);
      JoinUnknown(ttl, key);
    }

    method JoinUnknown(ttl: int, key: Key)
      requires Valid() && ttl in stats && stats[ttl].Keys == {key, UnknownKey} && key != UnknownKey
      modifies this, Repr()
      ensures Valid() && Repr() <= old(Repr())
      ensures Value() == old(Value())[ttl := map[key := MergeAccum(old(Value())[ttl][key], old(Value())[ttl][UnknownKey])]]
    {
      hide MergeAccum, Unshared;
      ghost var view := Value();
      var rows := stats[ttl];
      SharesNothing(stats, ttl, ttl);
      forall t | t in stats && t != ttl
        ensures forall k, k' :: k in stats[t] && k' in rows ==> stats[t][k] != rows[k']
      {
        OthersApart(stats, t, ttl, ttl);
      }
      rows[key].AddAccum(rows[UnknownKey]);
      KeepsOneRow(stats, ttl, key);
      stats := stats[ttl := map[key := rows[key]]];
      ViewAfterJoin(view, stats, ttl, key);
    }

    method Update(hops: seq<seq<Attempt>>)
      requires Valid()
      modifies this, Repr()
      ensures Valid() && fresh(Repr() - old(Repr()))
      ensures Value() == MtrRows.Update(old(Value()), hops)
    {
      hide UpdateRows, ViewOf, Unshared, MtrRows.Update;
      ghost var view := Value();
      UpdateNothing(view);
      assert hops[..0] == [];
      for idx := 0 to |hops|
        invariant Valid() && fresh(Repr() - old(Repr()))
        invariant Value() == MtrRows.Update(view, hops[..idx])
      {
        UpdateOneMore(view, hops, idx);
        if |hops[idx]| > 0 {
          UpdateTtl(idx + 1, hops[idx]);
        }
      }
      assert hops[..|hops|] == hops;
    }

    /** Makes sure that the TTL has a map of rows. */
    method AccMapForTtl(ttl: int)
      requires Valid()
      modifies this
      ensures Valid() && Repr() == old(Repr())
      ensures Value() == old(Value())[ttl := RowsAt(old(Value()), ttl)]
    {
      hide Unshared, ViewOf;
      ViewKeys(stats);
      ghost var view := Value();
      assert ttl in stats ==> view[ttl := RowsAt(view, ttl)] == view;
      if ttl !in stats {
        EmptyTtl(stats, ttl);
        stats := stats[ttl := map[]];
      }
    }

    /** Merges every group, in whatever order the map yields them. */
    method MergeAll(ttl: int, groups: map<Key, Group>)
      requires Valid()
      modifies this, Repr()
      ensures Valid() && fresh(Repr() - old(Repr()))
      ensures Value() == old(Value())[ttl := MergeGroups(RowsAt(old(Value()), ttl), ttl, groups)]
    {
      hide Unshared, ViewOf, MergeGroups, PutGroup, RowsAt;
      ghost var view := Value();
      AccMapForTtl(ttl);
      var keys := groups.Keys;
      ghost var done: map<Key, Group> := map[];
      MergeNothing(RowsAt(view, ttl), ttl);
      assert groups - groups.Keys == map[];
      while keys != {}
        invariant Valid() && fresh(Repr() - old(Repr()))
        invariant keys <= groups.Keys && done == groups - keys
        invariant Value() == view[ttl := MergeGroups(RowsAt(view, ttl), ttl, done)]
        decreases keys
      {
        var key :| key in keys;
        OneMoreDone(groups, keys, key);
        MergeOneMore(view, ttl, done, key, groups[key]);
        MergeGroupedHop(ttl, key, groups[key]);
        done := done[key := groups[key]];
        keys := keys - {key};
      }
      assert groups - {} == groups;
    }

    method UpdateTtl(ttl: int, attempts: seq<Attempt>)
      requires Valid() && attempts != []
      modifies this, Repr()
      ensures Valid() && fresh(Repr() - old(Repr()))
      ensures Value() == old(Value())[ttl := UpdateRows(RowsAt(old(Value()), ttl), ttl, attempts)]
    {
      hide Unshared, ViewOf, MergeGroups, MergeUnknown, Groups;
      var groups := GroupAttempts(attempts);
      MergeAll(ttl, groups);
      ViewKeys(stats);
      assert ttl in Value();
      MergeUnknownIntoSingleKnown(ttl);
    }

    /** Moves the rows of one TTL to another and caps them there. */
    method MigrateStats(fromTtl: int, toTtl: int, maxPerHop: int)
      requires Valid()
      modifies this, Repr()
      ensures Valid() && Repr() <= old(Repr())
      ensures Value() == MtrRows.MigrateStats(old(Value()), fromTtl, toTtl, maxPerHop)
    {
      hide Unshared, MigratedRows, ViewOf, ViewRows;
      RowsAtHeap(stats, fromTtl);
      if fromTtl !in stats || stats[fromTtl] == map[] { return; }
      MigrateRows(fromTtl, toTtl, maxPerHop);
    }

    method MigrateRows(fromTtl: int, toTtl: int, maxPerHop: int)
      requires Valid() && fromTtl in stats && stats[fromTtl] != map[]
      modifies this, Repr()
      ensures Valid() && Repr() <= old(Repr())
      ensures Value() == MtrRows.MigrateStats(old(Value()), fromTtl, toTtl, maxPerHop)
    {
      hide Unshared, MigratedRows, Apart, Joined, ViewOf, ViewRows;
      ghost var view, before := Value(), stats;
      var from: map<Key, HopAccum> := stats[fromTtl];
      var to: map<Key, HopAccum> := if toTtl in stats then stats[toTtl] else map[];
      RowsAtHeap(stats, fromTtl);
      RowsAtHeap(stats, toTtl);
      ViewKeys(stats);
      SharesNothing(stats, fromTtl, toTtl);
      MigratedHeap(stats, fromTtl, toTtl);
      RowsAreObjects(stats, fromTtl);
      RowsAreObjects(stats, toTtl);
      var rows := MoveRows(from, to, toTtl, maxPerHop);
      stats := stats[toTtl := rows] - {fromTtl};
      forall t | t in before && t != fromTtl && t != toTtl ensures ViewRows(before[t]) == view[t] {
        OthersApart(before, t, fromTtl, toTtl);
      }
      MigratedView(view, before, fromTtl, toTtl, maxPerHop, rows);
    }

    /** A deep copy: the same value on objects of its own. */
    method Clone() returns (c: Aggregator)
      requires Valid()
      ensures fresh(c) && c.Valid() && fresh(c.Repr())
      ensures c.Value() == Value() && c.nextOrder == nextOrder
    {
      var copy := CloneHeap(stats);
      c := new Aggregator();
      c.nextOrder := nextOrder;
      c.stats := copy;
      SameView(copy, stats);
    }

    /** Fills in late metadata; changed says whether any row changed. */
    method PatchMetadataByIP(ip: string, host: string, geo: Option<Geo>) returns (changed: bool)
      requires Valid()
      modifies Repr()
      ensures Valid() && stats == old(stats)
      ensures Value() == PatchMetadata(old(Value()), ip, host, geo)
      ensures changed <==> Value() != old(Value())
    {
      hide PatchAccum, Trim;
      changed := false;
      if Trim(ip) == "" || (Trim(host) == "" && geo.None?) { return; }
      ghost var view := Value();
      changed := PatchAll(set t, k | t in stats && k in stats[t] :: stats[t][k], Trim(ip), Trim(host), geo);
      PatchedView(view, stats, Trim(ip), Trim(host), geo);
    }
  }

  method PatchAll(accs: set<HopAccum>, ip: string, host: string, geo: Option<Geo>) returns (changed: bool)
    modifies accs
    ensures forall o :: o in accs ==> o.Val() == PatchAccum(old(o.Val()), ip, host, geo)
    ensures changed <==> exists o :: o in accs && o.Val() != old(o.Val())
  {
    hide PatchAccum;
    changed := false;
    var todo := accs;
    while todo != {}
      invariant todo <= accs
      invariant forall o :: o in accs ==> o.Val() == if o in todo then old(o.Val()) else PatchAccum(old(o.Val()), ip, host, geo)
      invariant changed <==> exists o :: o in accs && o.Val() != old(o.Val())
      decreases todo
    {
      var acc :| acc in todo;
      var c := acc.Patch(ip, host, geo);
      changed := changed || c;
      todo := todo - {acc};
    }
  }

  lemma SameView(a: Heap, b: Heap)
    requires a.Keys == b.Keys && forall t :: t in a ==> ViewRows(a[t]) == ViewRows(b[t])
    ensures ViewOf(a) == ViewOf(b)
  {
    assert forall t :: t in a ==> ViewOf(a)[t] == ViewOf(b)[t];
  }

  /** If every accumulator is patched, so is the view. */
  lemma PatchedView(view: View, stats: Heap, ip: string, host: string, geo: Option<Geo>)
    requires view.Keys == stats.Keys && forall t :: t in stats ==> view[t].Keys == stats[t].Keys
    requires forall t, k :: t in stats && k in stats[t] ==> stats[t][k].Val() == PatchAccum(view[t][k], ip, host, geo)
    ensures ViewOf(stats) == map t | t in view :: PatchRows(view[t], ip, host, geo)
    ensures ViewOf(stats) != view <==> exists t, k :: t in stats && k in stats[t] && stats[t][k].Val() != view[t][k]
  {
    hide PatchAccum;
    forall t | t in stats ensures ViewRows(stats[t]) == PatchRows(view[t], ip, host, geo) {
    }
    if forall t, k :: t in stats && k in stats[t] ==> stats[t][k].Val() == view[t][k] {
      forall t | t in stats ensures ViewRows(stats[t]) == view[t] {
      }
    } else {
      var t, k :| t in stats && k in stats[t] && stats[t][k].Val() != view[t][k];
      assert ViewOf(stats)[t][k] != view[t][k];
    }
  }

  lemma Inhabited(s: set<int>)
    requires s != {}
    ensures exists n :: n in s
  {
    assert (forall n :: n !in s) ==> s == {};
  }

  /** Maps of rows that share no accumulator with each other or within. */
  ghost predicate Apart(a: map<Key, HopAccum>, b: map<Key, HopAccum>) {
    && (forall k, k' :: k in a && k' in b ==> a[k] != b[k'])
    && Injective(a) && Injective(b)
  }

  ghost predicate Injective(a: map<Key, HopAccum>) {
    forall k, k' :: k in a && k' in a && a[k] == a[k'] ==> k == k'
  }

  lemma SharesNothing(stats: Heap, t: int, t': int)
    requires Unshared(stats)
    ensures t != t' ==> Apart(HeapRows(stats, t), HeapRows(stats, t'))
    ensures Injective(HeapRows(stats, t))
  {
  }

  lemma RowsAtHeap(stats: Heap, t: int)
    ensures ViewRows(HeapRows(stats, t)) == RowsAt(ViewOf(stats), t)
    ensures RowsAt(ViewOf(stats), t) == map[] <==> HeapRows(stats, t) == map[]
  {
    var rows := HeapRows(stats, t);
    assert ViewRows(rows).Keys == rows.Keys;
  }

  lemma RowsAreObjects(stats: Heap, t: int)
    ensures HeapRows(stats, t).Values <= Objects(stats)
  {
  }

  lemma JoinedIsInjective(from: map<Key, HopAccum>, to: map<Key, HopAccum>)
    requires Apart(from, to)
    ensures Injective(Joined(from, to))
  {
  }

  lemma CapJoined(from: Rows, to: Rows, toTtl: int, maxPerHop: int)
    ensures MigratedRows(from, to, toTtl, maxPerHop).Keys == JoinedRows(from, to, toTtl).Keys
    ensures forall k :: k in JoinedRows(from, to, toTtl) ==>
              MigratedRows(from, to, toTtl, maxPerHop)[k] == Cap(JoinedRows(from, to, toTtl)[k], maxPerHop)
  {
    hide Cap, MergeAccum, Moved;
  }

  /** Merges and caps. */
  method MoveRows(from: map<Key, HopAccum>, to: map<Key, HopAccum>, toTtl: int, maxPerHop: int)
    returns (rows: map<Key, HopAccum>)
    modifies from.Values, to.Values
    ensures rows == Joined(from, to)
    ensures Apart(from, to) ==>
      ViewRows(rows) == MigratedRows(old(ViewRows(from)), old(ViewRows(to)), toTtl, maxPerHop)
  {
    hide MergeAccum, Cap, Moved, MigratedRows, JoinedRows, Apart, Injective;
    ghost var fv, tv := ViewRows(from), ViewRows(to);
    rows := MergeInto(from, to, toTtl);
    if Apart(from, to) { JoinedIsInjective(from, to); }
    CapAll(rows, maxPerHop);
    CapJoined(fv, tv, toTtl, maxPerHop);
  }

  lemma OthersApart(stats: Heap, t: int, fromTtl: int, toTtl: int)
    requires Unshared(stats) && t in stats && t != fromTtl && t != toTtl
    ensures forall k, k' :: k in stats[t] && k' in HeapRows(stats, fromTtl) ==> stats[t][k] != HeapRows(stats, fromTtl)[k']
    ensures forall k, k' :: k in stats[t] && k' in HeapRows(stats, toTtl) ==> stats[t][k] != HeapRows(stats, toTtl)[k']
  {
  }

  /** The rows of both TTLs under one TTL: where both have a key, that of to. */
  ghost function Joined(from: map<Key, HopAccum>, to: map<Key, HopAccum>): map<Key, HopAccum> {
    map k | k in from.Keys + to.Keys :: if k in to then to[k] else from[k]
  }

  lemma MigratedHeap(stats: Heap, fromTtl: int, toTtl: int)
    requires Unshared(stats)
    ensures var after := stats[toTtl := Joined(HeapRows(stats, fromTtl), HeapRows(stats, toTtl))] - {fromTtl};
      Unshared(after) && Objects(after) <= Objects(stats)
  {
    var after := stats[toTtl := Joined(HeapRows(stats, fromTtl), HeapRows(stats, toTtl))] - {fromTtl};
    forall t, k, t', k' | t in after && k in after[t] && t' in after && k' in after[t'] && after[t][k] == after[t'][k']
      ensures t == t' && k == k'
    {
      RowCameFrom(stats, fromTtl, toTtl, t, k);
      RowCameFrom(stats, fromTtl, toTtl, t', k');
    }
    forall o | o in Objects(after) ensures o in Objects(stats) {
      var t, k :| t in after && k in after[t] && after[t][k] == o;
      RowCameFrom(stats, fromTtl, toTtl, t, k);
    }
  }

  /** The TTL a row had before: its own, or fromTtl. */
  lemma RowCameFrom(stats: Heap, fromTtl: int, toTtl: int, t: int, k: Key)
    requires var after := stats[toTtl := Joined(HeapRows(stats, fromTtl), HeapRows(stats, toTtl))] - {fromTtl};
      t in after && k in after[t]
    ensures var after := stats[toTtl := Joined(HeapRows(stats, fromTtl), HeapRows(stats, toTtl))] - {fromTtl};
      exists u :: u in stats && k in stats[u] && after[t][k] == stats[u][k] && (u == t || (t == toTtl && u == fromTtl))
  {
    var after := stats[toTtl := Joined(HeapRows(stats, fromTtl), HeapRows(stats, toTtl))] - {fromTtl};
    if t == toTtl && !(toTtl in stats && k in stats[toTtl]) {
      assert fromTtl in stats && k in stats[fromTtl] && after[t][k] == stats[fromTtl][k];
    } else {
      assert t in stats && k in stats[t] && after[t][k] == stats[t][k];
    }
  }

  lemma MigratedView(view: View, before: Heap, fromTtl: int, toTtl: int, maxPerHop: int, rows: map<Key, HopAccum>)
    requires view.Keys == before.Keys && fromTtl in before && view[fromTtl] != map[]
    requires fromTtl != toTtl ==> ViewRows(rows) == MigratedRows(RowsAt(view, fromTtl), RowsAt(view, toTtl), toTtl, maxPerHop)
    requires forall t :: t in before && t != fromTtl && t != toTtl ==> ViewRows(before[t]) == view[t]
    ensures ViewOf(before[toTtl := rows] - {fromTtl}) == MtrRows.MigrateStats(view, fromTtl, toTtl, maxPerHop)
  {
    hide MigratedRows, ViewRows;
    var after := before[toTtl := rows] - {fromTtl};
    var rhs := MtrRows.MigrateStats(view, fromTtl, toTtl, maxPerHop);
    assert RowsAt(view, fromTtl) == view[fromTtl];
    forall t | t in rhs ensures t in after && ViewRows(after[t]) == rhs[t] {
    }
    assert ViewOf(after).Keys == rhs.Keys;
  }

  /** What merging gives, as values. */
  function JoinedRows(from: Rows, to: Rows, toTtl: int): Rows {
    map k | k in from.Keys + to.Keys ::
      if k !in from then to[k] else if k in to then MergeAccum(to[k], from[k]) else Moved(from[k], toTtl)
  }

  lemma JoinOneMore(from: Rows, to: Rows, toTtl: int, keys: set<Key>, key: Key)
    requires key in keys && key in from
    ensures var done := JoinedRows(from - keys, to, toTtl);
      && (key in done <==> key in to) && (key in to ==> done[key] == to[key])
      && JoinedRows(from - (keys - {key}), to, toTtl) ==
           done[key := if key in to then MergeAccum(to[key], from[key]) else Moved(from[key], toTtl)]
  {
    hide MergeAccum, Moved;
  }

  /** While from is merged into to, no accumulator stands in two rows, and those
      still to be merged stand in none. */
  lemma JoinedApart(from: map<Key, HopAccum>, to: map<Key, HopAccum>, keys: set<Key>)
    requires Apart(from, to)
    ensures Injective(from) && Injective(Joined(from - keys, to))
    ensures forall k, k' :: k in keys && k in from && k' in Joined(from - keys, to) ==>
              Joined(from - keys, to)[k'] != from[k]
  {
  }

  /** Merges every accumulator of from into that of to with the same key, or
      hands it over. */
  method MergeInto(from: map<Key, HopAccum>, to: map<Key, HopAccum>, toTtl: int) returns (rows: map<Key, HopAccum>)
    modifies from.Values, to.Values
    ensures rows == Joined(from, to)
    ensures Apart(from, to) ==> ViewRows(rows) == JoinedRows(old(ViewRows(from)), old(ViewRows(to)), toTtl)
  {
    hide Merging, Joined, JoinedRows, Apart;
    ghost var fv, tv := ViewRows(from), ViewRows(to);
    rows := to;
    var keys := from.Keys;
    NothingJoined(from, to, fv, tv, toTtl);
    while keys != {}
      invariant keys <= from.Keys
      invariant rows == Joined(from - keys, to)
      invariant Apart(from, to) ==> Merging(from, rows, keys, fv, tv, toTtl)
      decreases keys
      modifies from.Values, to.Values
    {
      var key :| key in keys;
      rows := MergeTurn(from, to, rows, keys, key, fv, tv, toTtl);
      keys := keys - {key};
    }
    AllMerged(from, rows, fv, tv, toTtl);
    assert from - {} == from;
  }

  /** The rows so far, while those of keys are still to be merged. */
  ghost predicate Merging(from: map<Key, HopAccum>, rows: map<Key, HopAccum>, keys: set<Key>, fv: Rows, tv: Rows, toTtl: int)
    reads from.Values, rows.Values
  {
    && fv.Keys == from.Keys
    && (forall k :: k in keys && k in from ==> from[k].Val() == fv[k])
    && ViewRows(rows) == JoinedRows(fv - keys, tv, toTtl)
  }

  lemma AllMerged(from: map<Key, HopAccum>, rows: map<Key, HopAccum>, fv: Rows, tv: Rows, toTtl: int)
    ensures Merging(from, rows, {}, fv, tv, toTtl) ==> ViewRows(rows) == JoinedRows(fv, tv, toTtl)
  {
    assert fv - {} == fv;
  }

  method MergeTurn(from: map<Key, HopAccum>, ghost to: map<Key, HopAccum>, rows: map<Key, HopAccum>,
                   ghost keys: set<Key>, key: Key, ghost fv: Rows, ghost tv: Rows, toTtl: int)
    returns (after: map<Key, HopAccum>)
    requires key in keys && keys <= from.Keys && rows == Joined(from - keys, to)
    requires Apart(from, to) ==> Merging(from, rows, keys, fv, tv, toTtl)
    modifies from.Values, to.Values
    ensures after == Joined(from - (keys - {key}), to)
    ensures Apart(from, to) ==> Merging(from, after, keys - {key}, fv, tv, toTtl)
  {
    hide MergeAccum, Moved, Apart, JoinedRows;
    if Apart(from, to) {
      JoinedApart(from, to, keys);
      JoinOneMore(fv, tv, toTtl, keys, key);
    }
    after := MergeOne(from, rows, key, toTtl);
    assert Joined(from - (keys - {key}), to) == after;
  }

  lemma NothingJoined(from: map<Key, HopAccum>, to: map<Key, HopAccum>, fv: Rows, tv: Rows, toTtl: int)
    requires fv == ViewRows(from) && tv == ViewRows(to)
    ensures Joined(from - from.Keys, to) == to
    ensures Merging(from, to, from.Keys, fv, tv, toTtl)
  {
    assert JoinedRows(fv - from.Keys, tv, toTtl) == tv;
  }

  /** One turn of the merging loop. */
  method MergeOne(from: map<Key, HopAccum>, rows: map<Key, HopAccum>, key: Key, toTtl: int)
    returns (after: map<Key, HopAccum>)
    requires key in from
    modifies if key in rows then rows[key] else from[key]
    ensures after == if key in rows then rows else rows[key := from[key]]
    ensures Injective(rows) && (forall k :: k in rows ==> rows[k] != from[key]) ==>
      ViewRows(after) == old(ViewRows(rows))[key :=
        if key in rows then MergeAccum(old(rows[key].Val()), old(from[key].Val())) else Moved(old(from[key].Val()), toTtl)]
  {
    hide MergeAccum, Moved;
    if key !in rows {
      from[key].MoveTo(toTtl);
      after := rows[key := from[key]];
    } else {
      rows[key].AddAccum(from[key]);
      after := rows;
    }
  }

  /** Caps every accumulator. */
  method CapAll(rows: map<Key, HopAccum>, maxPerHop: int)
    modifies rows.Values
    ensures Injective(rows) ==> forall k :: k in rows ==> rows[k].Val() == Cap(old(rows[k].Val()), maxPerHop)
  {
    hide Cap;
    var keys := rows.Keys;
    while keys != {}
      invariant keys <= rows.Keys
      invariant Injective(rows) ==> forall k :: k in rows ==>
        rows[k].Val() == if k in keys then old(rows[k].Val()) else Cap(old(rows[k].Val()), maxPerHop)
      decreases keys
      modifies rows.Values
    {
      var key :| key in keys;
      rows[key].CapAt(maxPerHop);
      keys := keys - {key};
    }
  }

  method CloneHeap(stats: Heap) returns (copy: Heap)
    ensures fresh(Objects(copy)) && Unshared(copy) && copy.Keys == stats.Keys
    ensures forall t :: t in stats ==> ViewRows(copy[t]) == ViewRows(stats[t])
  {
    copy := map[];
    var ttls := stats.Keys;
    while ttls != {}
      invariant ttls <= stats.Keys && copy.Keys == stats.Keys - ttls
      invariant fresh(Objects(copy)) && Unshared(copy)
      invariant forall t :: t in copy ==> ViewRows(copy[t]) == ViewRows(stats[t])
      decreases ttls
    {
      Inhabited(ttls);
      var ttl :| ttl in ttls;
      var rows := CloneRows(stats[ttl]);
      AddRows(copy, ttl, rows);
      copy := copy[ttl := rows];
      ttls := ttls - {ttl};
    }
  }

  method CloneRows(rows: map<Key, HopAccum>) returns (copy: map<Key, HopAccum>)
    ensures copy.Keys == rows.Keys && ViewRows(copy) == ViewRows(rows)
    ensures forall k :: k in copy ==> fresh(copy[k])
    ensures forall k, k' :: k in copy && k' in copy && copy[k] == copy[k'] ==> k == k'
  {
    copy := map[];
    var keys := rows.Keys;
    while keys != {}
      invariant keys <= rows.Keys && copy.Keys == rows.Keys - keys
      invariant forall k :: k in copy ==> fresh(copy[k]) && copy[k].Val() == rows[k].Val()
      invariant forall k, k' :: k in copy && k' in copy && copy[k] == copy[k'] ==> k == k'
      decreases keys
    {
      var k :| k in keys;
      var acc := new HopAccum.Copy(rows[k]);
      copy := copy[k := acc];
      keys := keys - {k};
    }
  }

  lemma AddRows(stats: Heap, ttl: int, rows: map<Key, HopAccum>)
    requires Unshared(stats) && ttl !in stats
    requires forall k :: k in rows ==> rows[k] !in Objects(stats)
    requires forall k, k' :: k in rows && k' in rows && rows[k] == rows[k'] ==> k == k'
    ensures Unshared(stats[ttl := rows])
    ensures Objects(stats[ttl := rows]) == Objects(stats) + set k | k in rows :: rows[k]
  {
    var after := stats[ttl := rows];
    forall o | o in Objects(stats) ensures o in Objects(after) {
      var t, k :| t in stats && k in stats[t] && stats[t][k] == o;
      assert after[t][k] == o;
    }
    forall k | k in rows ensures rows[k] in Objects(after) {
      assert after[ttl][k] == rows[k];
    }
    forall t, k, t', k' | t in after && k in after[t] && t' in after && k' in after[t'] && after[t][k] == after[t'][k']
      ensures t == t' && k == k'
    {
      if t != ttl { assert after[t][k] in Objects(stats); }
      if t' != ttl { assert after[t'][k'] in Objects(stats); }
    }
  }

  /** A preview of a partial round works on a copy: the aggregate itself keeps
      its value, whatever the preview is then used for. */
  method EmitPreview(agg: Aggregator, partial: seq<seq<Attempt>>) returns (preview: Aggregator)
    requires agg.Valid()
    ensures agg.Valid() && agg.stats == old(agg.stats) && agg.Value() == old(agg.Value())
    ensures preview.Valid() && fresh(preview) && fresh(preview.Repr())
    ensures preview.Value() == MtrRows.Update(old(agg.Value()), partial)
  {
    hide Unshared, MtrRows.Update;
    ghost var value := agg.Value();
    preview := agg.Clone();
    assert preview.Value() == value;
    preview.Update(partial);
  }
}
