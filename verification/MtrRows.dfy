/** The aggregate as a value: for every TTL, its rows by key.  The operations
    of MTRAggregator on that value, and the conservation of sent probes. */
module MtrRows {
  import opened Text
  import opened MtrAccum

  type Rows = map<Key, Accum>
  type View = map<int, Rows>

  function RowsAt(view: View, ttl: int): Rows {
    if ttl in view then view[ttl] else map[]
  }

  function RowFor(rows: Rows, ttl: int, key: Key): Accum {
    if key in rows then rows[key] else NewAccum(ttl, key)
  }

  /** Every group merged into its row.  Pointwise, hence independent of the
      order in which the groups are visited. */
  function MergeGroups(rows: Rows, ttl: int, groups: map<Key, Group>): Rows {
    map k | k in rows.Keys + groups.Keys ::
      if k in groups then MergeGroup(RowFor(rows, ttl, k), groups[k]) else rows[k]
  }

  function Known(rows: Rows): set<Key> {
    rows.Keys - {UnknownKey}
  }

  /** The unknown row joins the known one if there is exactly one known row. */
  ghost predicate MergesUnknown(rows: Rows) {
    UnknownKey in rows && |Known(rows)| == 1
  }

  lemma SingletonOnly<T>(s: set<T>, x: T)
    requires |s| == 1 && x in s
    ensures s == {x}
  {
    assert |s - {x}| == 0;
  }

  ghost function TheKnown(rows: Rows): (k: Key)
    requires |Known(rows)| == 1
    ensures Known(rows) == {k}
  {
    var k :| k in Known(rows);
    SingletonOnly(Known(rows), k);
    k
  }

  ghost function MergeUnknown(rows: Rows): Rows {
    if MergesUnknown(rows) then
      var k := TheKnown(rows);
      map[k := MergeAccum(rows[k], rows[UnknownKey])]
    else rows
  }

  ghost function UpdateRows(rows: Rows, ttl: int, attempts: seq<Attempt>): Rows {
    if attempts == [] then rows else MergeUnknown(MergeGroups(rows, ttl, Groups(attempts)))
  }

  function AttemptsAt(hops: seq<seq<Attempt>>, ttl: int): seq<Attempt> {
    if 1 <= ttl <= |hops| then hops[ttl - 1] else []
  }

  function Probed(hops: seq<seq<Attempt>>): set<int> {
    set t: int | 1 <= t <= |hops| && AttemptsAt(hops, t) != []
  }

  /** MTRAggregator.Update: hops[i] holds the attempts of TTL i + 1. */
  ghost function Update(view: View, hops: seq<seq<Attempt>>): View {
    map ttl | ttl in view.Keys + Probed(hops) :: UpdateRows(RowsAt(view, ttl), ttl, AttemptsAt(hops, ttl))
  }

  /** One group merged into its row, the row being created when missing. */
  function PutGroup(view: View, ttl: int, key: Key, group: Group): View {
    view[ttl := RowsAt(view, ttl)[key := MergeGroup(RowFor(RowsAt(view, ttl), ttl, key), group)]]
  }

  function ClearHop(view: View, ttl: int): View {
    view - {ttl}
  }

  function Moved(acc: Accum, ttl: int): Accum {
    acc.(ttl := ttl)
  }

  function MigratedRows(from: Rows, to: Rows, toTtl: int, maxPerHop: int): Rows {
    map k | k in from.Keys + to.Keys ::
      Cap(if k !in from then to[k]
          else if k in to then MergeAccum(to[k], from[k])
          else Moved(from[k], toTtl), maxPerHop)
  }

  function MigrateStats(view: View, fromTtl: int, toTtl: int, maxPerHop: int): View {
    if RowsAt(view, fromTtl) == map[] then view
    else view[toTtl := MigratedRows(RowsAt(view, fromTtl), RowsAt(view, toTtl), toTtl, maxPerHop)] - {fromTtl}
  }

  function PatchAccum(acc: Accum, ip: string, host: string, geo: Option<Geo>): Accum {
    if Trim(acc.ip) != ip then acc
    else acc.(host := if host != "" && acc.host == "" then host else acc.host,
              geo := if geo.Some? && acc.geo.None? then geo else acc.geo)
  }

  function PatchRows(rows: Rows, ip: string, host: string, geo: Option<Geo>): Rows {
    map k | k in rows :: PatchAccum(rows[k], ip, host, geo)
  }

  function PatchMetadata(view: View, ip: string, host: string, geo: Option<Geo>): View {
    if Trim(ip) == "" || (Trim(host) == "" && geo.None?) then view
    else map ttl | ttl in view :: PatchRows(view[ttl], Trim(ip), Trim(host), geo)
  }

  // ----- The loops of Update, one turn at a time -----

  /** Merging one more group into the rows merged so far. */
  lemma MergeOneMore(view: View, ttl: int, done: map<Key, Group>, key: Key, group: Group)
    requires key !in done
    ensures var rows := RowsAt(view, ttl);
      PutGroup(view[ttl := MergeGroups(rows, ttl, done)], ttl, key, group)
        == view[ttl := MergeGroups(rows, ttl, done[key := group])]
  {
    hide MergeGroup;
    var rows := RowsAt(view, ttl);
    var merged := MergeGroups(rows, ttl, done);
    assert RowFor(merged, ttl, key) == RowFor(rows, ttl, key);
    assert MergeGroups(rows, ttl, done[key := group]) == merged[key := MergeGroup(RowFor(rows, ttl, key), group)];
  }

  /** Updating with one more TTL. */
  lemma UpdateOneMore(view: View, hops: seq<seq<Attempt>>, n: nat)
    requires n < |hops|
    ensures var before := Update(view, hops[..n]);
      && RowsAt(before, n + 1) == RowsAt(view, n + 1)
      && Update(view, hops[..n + 1]) == if hops[n] == [] then before
                                        else before[n + 1 := UpdateRows(RowsAt(view, n + 1), n + 1, hops[n])]
  {
    hide UpdateRows, AttemptsAt, Probed;
    var a, b := hops[..n], hops[..n + 1];
    ProbedOneMore(hops, n);
    UpdateRowsNothing(RowsAt(view, n + 1), n + 1);
    var before, after := Update(view, a), Update(view, b);
    forall t | t in view.Keys + Probed(a) && t != n + 1 ensures after[t] == before[t] {
    }
    if hops[n] == [] {
      assert after.Keys == before.Keys;
    } else {
      assert after.Keys == before.Keys + {n + 1};
    }
  }

  lemma UpdateRowsNothing(rows: Rows, ttl: int)
    ensures UpdateRows(rows, ttl, []) == rows
  {
  }

  lemma ProbedOneMore(hops: seq<seq<Attempt>>, n: nat)
    requires n < |hops|
    ensures var a, b := hops[..n], hops[..n + 1];
      && AttemptsAt(a, n + 1) == [] && AttemptsAt(b, n + 1) == hops[n]
      && (forall t: int :: t != n + 1 ==> AttemptsAt(a, t) == AttemptsAt(b, t))
      && n + 1 !in Probed(a)
      && Probed(b) == (if hops[n] == [] then Probed(a) else Probed(a) + {n + 1})
  {
    var a, b := hops[..n], hops[..n + 1];
    forall t: int ensures t != n + 1 ==> AttemptsAt(a, t) == AttemptsAt(b, t) {
    }
    forall t: int ensures t in Probed(b) <==> t in Probed(a) || (t == n + 1 && hops[n] != []) {
    }
  }

  // ----- Sums over maps -----

  ghost function Total<K(!new)>(m: map<K, nat>): nat
    decreases |m|
  {
    if m == map[] then 0
    else
      var k :| k in m;
      m[k] + Total(m - {k})
  }

  lemma {:induction false} TotalAt<K(!new)>(m: map<K, nat>, k: K)
    requires k in m
    ensures Total(m) == m[k] + Total(m - {k})
    decreases |m|
  {
    var p :| p in m && Total(m) == m[p] + Total(m - {p});
    if p != k {
      TotalAt(m - {p}, k);
      TotalAt(m - {k}, p);
      assert m - {p} - {k} == m - {k} - {p};
    }
  }

  function At<K>(m: map<K, nat>, k: K): nat {
    if k in m then m[k] else 0
  }

  ghost predicate Adds<K(!new)>(a: map<K, nat>, b: map<K, nat>, c: map<K, nat>) {
    c.Keys == a.Keys + b.Keys && forall k :: k in c ==> c[k] == At(a, k) + At(b, k)
  }

  lemma AddsWithout<K(!new)>(a: map<K, nat>, b: map<K, nat>, c: map<K, nat>, k: K)
    requires Adds(a, b, c)
    ensures Adds(a - {k}, b - {k}, c - {k})
  {
    forall j | j in c - {k} ensures (c - {k})[j] == At(a - {k}, j) + At(b - {k}, j) {
      assert c[j] == At(a, j) + At(b, j);
    }
  }

  lemma TotalWithout<K(!new)>(m: map<K, nat>, k: K)
    ensures Total(m) == At(m, k) + Total(m - {k})
  {
    if k in m {
      TotalAt(m, k);
    } else {
      assert m - {k} == m;
    }
  }

  /** Adding maps entry by entry adds their totals. */
  lemma {:induction false} TotalAdds<K(!new)>(a: map<K, nat>, b: map<K, nat>, c: map<K, nat>)
    requires Adds(a, b, c)
    ensures Total(c) == Total(a) + Total(b)
    decreases |c|
  {
    if c == map[] {
      assert a == map[] && b == map[];
    } else {
      var k :| k in c;
      AddsWithout(a, b, c, k);
      TotalAdds(a - {k}, b - {k}, c - {k});
      TotalWithout(a, k);
      TotalWithout(b, k);
      TotalWithout(c, k);
    }
  }

  lemma TotalOfOne<K(!new)>(k: K, n: nat)
    ensures Total(map[k := n]) == n
  {
    TotalAt(map[k := n], k);
    assert map[k := n] - {k} == map[];
  }

  // ----- Sent probes are conserved -----

  function Sents(rows: Rows): map<Key, nat> {
    map k | k in rows :: rows[k].sent
  }

  ghost function SentSum(rows: Rows): nat {
    Total(Sents(rows))
  }

  function Counts(groups: map<Key, Group>): map<Key, nat> {
    map k | k in groups :: groups[k].count
  }

  /** Every attempt lies in exactly one group. */
  lemma {:induction false} GroupsCountAttempts(attempts: seq<Attempt>)
    ensures Total(Counts(Groups(attempts))) == |attempts|
  {
    if attempts == [] {
      assert Counts(Groups(attempts)) == map[];
    } else {
      var a := attempts[|attempts| - 1];
      var before := Groups(attempts[..|attempts| - 1]);
      GroupsCountAttempts(attempts[..|attempts| - 1]);
      var one := map[AttemptKey(a) := 1];
      GroupStep(before, a);
      TotalOfOne(AttemptKey(a), 1);
      TotalAdds(Counts(before), one, Counts(Groups(attempts)));
    }
  }

  lemma GroupStep(before: map<Key, Group>, a: Attempt)
    ensures Adds(Counts(before), map[AttemptKey(a) := 1],
                 Counts(before[AttemptKey(a) := IncludeAttempt(GroupFor(before, a), a)]))
  {
    var g := GroupFor(before, a);
    IncludeAttemptCounts(g, a);
    PutCount(before, AttemptKey(a), g.count, IncludeAttempt(g, a));
  }

  lemma IncludeAttemptCounts(g: Group, a: Attempt)
    ensures IncludeAttempt(g, a).count == g.count + 1
  {
  }

  lemma PutCount(before: map<Key, Group>, key: Key, n: nat, g: Group)
    requires n == At(Counts(before), key) && g.count == n + 1
    ensures Adds(Counts(before), map[key := 1], Counts(before[key := g]))
  {
  }

  lemma MergeGroupsAddsCounts(rows: Rows, ttl: int, groups: map<Key, Group>)
    ensures SentSum(MergeGroups(rows, ttl, groups)) == SentSum(rows) + Total(Counts(groups))
  {
    TotalAdds(Sents(rows), Counts(groups), Sents(MergeGroups(rows, ttl, groups)));
  }

  lemma MergeUnknownKeepsSum(rows: Rows)
    ensures SentSum(MergeUnknown(rows)) == SentSum(rows)
  {
    if MergesUnknown(rows) {
      var k := TheKnown(rows);
      var sents := Sents(rows);
      TotalAt(sents, UnknownKey);
      TotalAt(sents - {UnknownKey}, k);
      assert (sents - {UnknownKey}) - {k} == map[];
      TotalOfOne(k, rows[k].sent + rows[UnknownKey].sent);
      assert Sents(MergeUnknown(rows)) == map[k := rows[k].sent + rows[UnknownKey].sent];
    }
  }

  /** Every attempt is counted in exactly one row, whichever rows are merged. */
  lemma UpdateRowsAddsAttempts(rows: Rows, ttl: int, attempts: seq<Attempt>)
    ensures SentSum(UpdateRows(rows, ttl, attempts)) == SentSum(rows) + |attempts|
  {
    if attempts != [] {
      GroupsCountAttempts(attempts);
      MergeGroupsAddsCounts(rows, ttl, Groups(attempts));
      MergeUnknownKeepsSum(MergeGroups(rows, ttl, Groups(attempts)));
    }
  }

  /** Late metadata never touches a count. */
  lemma PatchKeepsSums(view: View, ip: string, host: string, geo: Option<Geo>, ttl: int)
    ensures PatchMetadata(view, ip, host, geo).Keys == view.Keys
    ensures RowsAt(PatchMetadata(view, ip, host, geo), ttl).Keys == RowsAt(view, ttl).Keys
    ensures SentSum(RowsAt(PatchMetadata(view, ip, host, geo), ttl)) == SentSum(RowsAt(view, ttl))
  {
    if ttl in view {
      PatchRowsKeepsSents(view[ttl], Trim(ip), Trim(host), geo);
    }
  }

  lemma PatchRowsKeepsSents(rows: Rows, ip: string, host: string, geo: Option<Geo>)
    ensures Sents(PatchRows(rows, ip, host, geo)) == Sents(rows)
  {
    hide PatchAccum, Trim;
    forall k | k in rows ensures PatchAccum(rows[k], ip, host, geo).sent == rows[k].sent {
      PatchAccumKeepsSent(rows[k], ip, host, geo);
    }
  }

  lemma PatchAccumKeepsSent(acc: Accum, ip: string, host: string, geo: Option<Geo>)
    ensures PatchAccum(acc, ip, host, geo).sent == acc.sent
  {
  }

  /** Late metadata fills the empty host and location of every row of exactly
      that address, and leaves every other row alone. */
  lemma PatchesItsRows(view: View, ip: string, host: string, geo: Option<Geo>, ttl: int, k: Key)
    ensures k in RowsAt(PatchMetadata(view, ip, host, geo), ttl) <==> k in RowsAt(view, ttl)
    ensures k in RowsAt(view, ttl) ==>
      var acc, acc' := RowsAt(view, ttl)[k], RowsAt(PatchMetadata(view, ip, host, geo), ttl)[k];
      acc' == if Trim(ip) == "" || Trim(acc.ip) != Trim(ip) then acc
              else acc.(host := if acc.host == "" then Trim(host) else acc.host,
                        geo := if acc.geo.None? then geo else acc.geo)
  {
    hide Trim, PatchAccum;
    if k in RowsAt(view, ttl) {
      PatchedAccum(RowsAt(view, ttl)[k], Trim(ip), Trim(host), geo);
    }
  }

  lemma PatchedAccum(acc: Accum, ip: string, host: string, geo: Option<Geo>)
    ensures PatchAccum(acc, ip, host, geo) ==
      if Trim(acc.ip) != ip then acc
      else acc.(host := if acc.host == "" then host else acc.host, geo := if acc.geo.None? then geo else acc.geo)
  {
    hide Trim;
  }

  /** Uncapped migration moves every sent probe of fromTtl to toTtl exactly
      when the two differ or there is nothing to move: migrating a TTL onto
      itself deletes its rows. */
  lemma MigrateConserves(view: View, fromTtl: int, toTtl: int)
    ensures var after := MigrateStats(view, fromTtl, toTtl, 0);
      var moved, there := SentSum(RowsAt(view, fromTtl)), SentSum(RowsAt(view, toTtl));
      && (SentSum(RowsAt(after, toTtl)) == (if fromTtl == toTtl then there else there + moved)
          <==> fromTtl != toTtl || moved == 0)
      && SentSum(RowsAt(after, fromTtl)) == 0
      && (forall ttl :: ttl != fromTtl && ttl != toTtl ==> RowsAt(after, ttl) == RowsAt(view, ttl))
  {
    var f, t := RowsAt(view, fromTtl), RowsAt(view, toTtl);
    if fromTtl != toTtl {
      if f == map[] {
      } else {
        MigratedSum(f, t, toTtl);
      }
    }
  }

  lemma MigratedSum(from: Rows, to: Rows, toTtl: int)
    ensures SentSum(MigratedRows(from, to, toTtl, 0)) == SentSum(from) + SentSum(to)
  {
    TotalAdds(Sents(from), Sents(to), Sents(MigratedRows(from, to, toTtl, 0)));
  }
}
