// compute_dependency_layout: longest-path columns, one horizontal band per connected component.

module Layout {
  import opened Collections
  import opened Graph
  import opened TopoSort
  import opened Canvas
  import opened StableSort
  import opened UnionFind

  datatype Dims = Dims(marginX: int, marginY: int, colW: int, rowH: int, gap: int)

  const DEFAULTS := Dims(120, 120, 340, 220, 180)

  type Positions = map<int, (int, int)>

  // The keys of NodeMap(nodes), in the order of their first entries.
  function IdOrder(nodes: seq<Node>): seq<int> {
    if nodes == [] then []
    else
      var front, last := nodes[..|nodes| - 1], nodes[|nodes| - 1];
      IdOrder(front) + if last.id in NodeMap(front) then [] else [last.id]
  }

  lemma {:induction false} IdOrderLists(nodes: seq<Node>)
    ensures Lists(IdOrder(nodes), NodeMap(nodes).Keys)
  {
    if nodes != [] { IdOrderLists(nodes[..|nodes| - 1]); }
  }

  // Where an id stands in a list.
  ghost function Standing(s: seq<int>): int -> int {
    i => if i in s then IndexOf(s, i) else 0
  }

  lemma StandingIncreases(s: seq<int>)
    requires Distinct(s)
    ensures Increasing(s, Standing(s))
  {
    forall i | 0 <= i < |s| ensures Standing(s)(s[i]) == i {
      IndexIs(s, i);
    }
  }

  // The rank that breaks ties: the place of an id's first entry in the node list.
  ghost function FirstEntry(nodes: seq<Node>): int -> int {
    Standing(Ids(nodes))
  }

  lemma EntryStays(ids: seq<int>, more: seq<int>, i: int)
    requires i in ids
    ensures Standing(ids + more)(i) == Standing(ids)(i) < |ids|
  {
    IndexIsFirst(ids + more, i, IndexOf(ids, i));
    IndexIsFirst(ids, i, IndexOf(ids + more, i));
  }

  lemma NewEntry(ids: seq<int>, i: int)
    requires i !in ids
    ensures Standing(ids + [i])(i) == |ids|
  {
    IndexIsFirst(ids + [i], i, |ids|);
  }

  lemma {:induction false} IdOrderIncreases(nodes: seq<Node>)
    ensures Increasing(IdOrder(nodes), FirstEntry(nodes))
  {
    if nodes != [] {
      var front, last := nodes[..|nodes| - 1], nodes[|nodes| - 1];
      IdOrderIncreases(front);
      IdOrderLists(front);
      EntriesAreIds(front);
      forall i | i in IdOrder(front)
        ensures FirstEntry(nodes)(i) == FirstEntry(front)(i) < |front|
      {
        assert i in NodeMap(front).Keys;
        EntryStays(Ids(front), [last.id], i);
      }
      if last.id !in NodeMap(front) { NewEntry(Ids(front), last.id); }
    }
  }

  lemma {:induction false} EntriesAreIds(nodes: seq<Node>)
    ensures forall i :: i in Ids(nodes) <==> i in NodeMap(nodes)
  {
    if nodes != [] { EntriesAreIds(nodes[..|nodes| - 1]); }
  }

  // ---------- Columns ----------

  // The sources of the input edges into t, self-loops and unknown ends dropped, one entry per edge.
  ghost function Feeders(ins: seq<Edge>, ids: set<int>, t: int): seq<int> {
    if ins == [] then []
    else
      var e := ins[|ins| - 1];
      Feeders(ins[..|ins| - 1], ids, t)
        + if e.target == t && e.source in ids && t in ids && e.source != t then [e.source] else []
  }

  lemma {:induction false} FeedersAreSources(ins: seq<Edge>, ids: set<int>, t: int)
    ensures forall u :: u in Feeders(ins, ids, t) <==> u != t && (u, t) in Induced(ArcsOf(ins), ids)
  {
    if ins != [] {
      FeedersAreSources(ins[..|ins| - 1], ids, t);
      assert ins == ins[..|ins| - 1] + [ins[|ins| - 1]];
    }
  }

  function UpsOf(upstream: map<int, seq<int>>, t: int): seq<int> {
    if t in upstream then upstream[t] else []
  }

  method CollectUpstream(ins: seq<Edge>, ids: set<int>) returns (upstream: map<int, seq<int>>)
    ensures forall t :: UpsOf(upstream, t) == Feeders(ins, ids, t)
  {
    upstream := map[];
    for k := 0 to |ins|
      invariant forall t :: UpsOf(upstream, t) == Feeders(ins[..k], ids, t)
    {
      var s, t := ins[k].source, ins[k].target;
      assert ins[..k + 1][..k] == ins[..k];
      if s in ids && t in ids && s != t {
        upstream := upstream[t := UpsOf(upstream, t) + [s]];
      }
    }
    assert ins[..|ins|] == ins;
  }

  // One more than the largest layer among the ups that have one, 0 without any.
  function NextLayer(ups: seq<int>, layer: map<int, nat>): (r: nat)
    ensures forall u :: u in ups && u in layer ==> layer[u] < r
    ensures r == 0 || exists u :: u in ups && u in layer && layer[u] + 1 == r
  {
    if ups == [] then 0
    else
      var last := ups[|ups| - 1];
      var r := NextLayer(ups[..|ups| - 1], layer);
      assert ups == ups[..|ups| - 1] + [last];
      if last in layer && layer[last] >= r then layer[last] + 1 else r
  }

  // On the ids without a cycle behind them the layer is the length of the longest path into the id.
  ghost predicate LongestPath(arcs: Arcs, layer: map<int, nat>) {
    && (forall s, t :: (s, t) in arcs && t in layer && Grounded(arcs, t) ==> s in layer && layer[s] < layer[t])
    && (forall t {:trigger StepsUp(arcs, layer, t)} :: t in layer && layer[t] > 0 ==> StepsUp(arcs, layer, t))
  }

  ghost predicate StepsUp(arcs: Arcs, layer: map<int, nat>, t: int)
    requires t in layer
  {
    exists s :: s in layer && (s, t) in arcs && layer[s] + 1 == layer[t]
  }

  method AssignLayers(order: seq<int>, upstream: map<int, seq<int>>, ghost arcs: Arcs) returns (layer: map<int, nat>)
    requires Distinct(order) && GroundedFirst(arcs, order)
    requires forall t, u :: u in UpsOf(upstream, t) <==> u != t && (u, t) in arcs
    ensures layer.Keys == Elems(order)
    ensures LongestPath(arcs, layer)
  {
    layer := map[];
    for k := 0 to |order|
      invariant forall x :: x in layer <==> x in order[..k]
      invariant LongestPath(arcs, layer)
    {
      var nid := order[k];
      var up := NextLayer(UpsOf(upstream, nid), layer);
      assert order[..k + 1] == order[..k] + [nid];
      assert nid !in layer;
      LayerStep(arcs, order, k, UpsOf(upstream, nid), layer, up);
      layer := layer[nid := up];
    }
    assert order[..|order|] == order;
    assert forall x :: x in layer <==> x in Elems(order);
  }

  lemma LayerStep(arcs: Arcs, order: seq<int>, k: nat, ups: seq<int>, layer: map<int, nat>, up: nat)
    requires k < |order| && order[k] !in layer && GroundedFirst(arcs, order)
    requires forall x :: x in layer <==> x in order[..k]
    requires forall u :: u in ups <==> u != order[k] && (u, order[k]) in arcs
    requires LongestPath(arcs, layer) && up == NextLayer(ups, layer)
    ensures LongestPath(arcs, layer[order[k] := up])
  {
    var nid := order[k];
    var next := layer[nid := up];
    forall s, t | (s, t) in arcs && t in next && Grounded(arcs, t) ensures s in next && next[s] < next[t] {
      if t == nid {
        assert s in order[..k];
        assert s in ups;
      }
    }
    forall t {:trigger StepsUp(arcs, next, t)} | t in next && next[t] > 0 ensures StepsUp(arcs, next, t) {
      if t == nid {
        var u :| u in ups && u in layer && layer[u] + 1 == up;
        assert (u, nid) in arcs && next[u] + 1 == next[nid];
      } else {
        assert StepsUp(arcs, layer, t);
        var s :| s in layer && (s, t) in arcs && layer[s] + 1 == layer[t];
        assert next[s] + 1 == next[t];
      }
    }
  }

  // ---------- Grouping ----------

  // The elements of s tagged v, in order.
  function Select(s: seq<int>, tag: map<int, int>, v: int): seq<int> {
    if s == [] then []
    else
      var last := s[|s| - 1];
      Select(s[..|s| - 1], tag, v) + if last in tag && tag[last] == v then [last] else []
  }

  lemma {:induction false} SelectMembers(s: seq<int>, tag: map<int, int>, v: int)
    ensures forall x :: x in Select(s, tag, v) <==> x in s && x in tag && tag[x] == v
    ensures Distinct(s) ==> Distinct(Select(s, tag, v))
  {
    if s != [] {
      var front, last := s[..|s| - 1], s[|s| - 1];
      assert s == front + [last];
      SelectMembers(front, tag, v);
      assert Distinct(s) ==> last !in front;
    }
  }

  lemma {:induction false} SelectIncreasing(s: seq<int>, tag: map<int, int>, v: int, rank: int -> int)
    requires Increasing(s, rank)
    ensures Increasing(Select(s, tag, v), rank)
  {
    if s != [] {
      var front, last := s[..|s| - 1], s[|s| - 1];
      SelectIncreasing(front, tag, v, rank);
      SelectMembers(front, tag, v);
      forall x | x in front ensures rank(x) < rank(last) {
        var i :| 0 <= i < |front| && front[i] == x;
        assert s[i] == x;
      }
    }
  }

  // keys lists the tags of s, groups[v] the elements tagged v.
  ghost predicate Grouped(s: seq<int>, tag: map<int, int>, keys: seq<int>, groups: map<int, seq<int>>) {
    && Lists(keys, groups.Keys)
    && (forall x :: x in s ==> x in tag && tag[x] in groups)
    && (forall v :: v in groups ==> groups[v] == Select(s, tag, v) && groups[v] != [])
  }

  function AddTo(groups: map<int, seq<int>>, v: int, x: int): map<int, seq<int>> {
    groups[v := (if v in groups then groups[v] else []) + [x]]
  }

  lemma GroupStep(s: seq<int>, k: nat, tag: map<int, int>, keys: seq<int>, groups: map<int, seq<int>>)
    requires k < |s| && s[k] in tag && Grouped(s[..k], tag, keys, groups)
    ensures var v := tag[s[k]];
      Grouped(s[..k + 1], tag, if v in groups then keys else keys + [v], AddTo(groups, v, s[k]))
  {
    var front, longer := s[..k], s[..k + 1];
    assert longer == front + [s[k]] && longer[..k] == front;
    var v := tag[s[k]];
    if v !in groups {
      SelectNothing(front, tag, v);
    }
  }

  lemma {:induction false} SelectNothing(s: seq<int>, tag: map<int, int>, v: int)
    requires forall x :: x in s && x in tag ==> tag[x] != v
    ensures Select(s, tag, v) == []
  {
    if s != [] {
      assert s[|s| - 1] in s;
      SelectNothing(s[..|s| - 1], tag, v);
    }
  }

  // The rank of a group: that of its first member.
  ghost function HeadRank(groups: map<int, seq<int>>, rank: int -> int): int -> int {
    v => if v in groups && groups[v] != [] then rank(groups[v][0]) else 0
  }

  lemma Listed(order: seq<int>, ids: set<int>, i: nat)
    requires Lists(order, ids) && i < |order|
    ensures order[i] in ids
  {
    var x := order[i];
    assert x in order;
  }

  lemma HeadStep(s: seq<int>, k: nat, tag: map<int, int>, keys: seq<int>, groups: map<int, seq<int>>,
                 rank: int -> int)
    requires k < |s| && s[k] in tag && Grouped(s[..k], tag, keys, groups)
    requires Increasing(s, rank) && Increasing(keys, HeadRank(groups, rank))
    ensures var v, more := tag[s[k]], AddTo(groups, tag[s[k]], s[k]);
      Increasing(if v in groups then keys else keys + [v], HeadRank(more, rank))
  {
    var v, more := tag[s[k]], AddTo(groups, tag[s[k]], s[k]);
    forall w | w in groups
      ensures HeadRank(more, rank)(w) == HeadRank(groups, rank)(w) < rank(s[k])
    {
      SelectMembers(s[..k], tag, w);
      assert groups[w][0] in s[..k];
      var i :| 0 <= i < k && s[i] == groups[w][0];
    }
    forall i | 0 <= i < |keys| ensures keys[i] in groups {
      Listed(keys, groups.Keys, i);
    }
  }

  // comps: the ids by the representative find gives them.
  method GroupComponents(ids: seq<int>, f: Forest, ghost rank: int -> int)
    returns (roots: seq<int>, comps: map<int, seq<int>>)
    requires f.Valid() && (forall x :: x in ids ==> x in f.parent) && Increasing(ids, rank)
    modifies f`parent
    ensures Grouped(ids, f.root, roots, comps) && Increasing(roots, HeadRank(comps, rank))
  {
    roots, comps := [], map[];
    for k := 0 to |ids|
      invariant f.Valid() && f.parent.Keys == old(f.parent.Keys)
      invariant Grouped(ids[..k], f.root, roots, comps) && Increasing(roots, HeadRank(comps, rank))
    {
      assert ids[k] in ids;
      var r := f.Find(ids[k]);
      HeadStep(ids, k, f.root, roots, comps, rank);
      GroupStep(ids, k, f.root, roots, comps);
      if r !in comps { roots := roots + [r]; }
      comps := AddTo(comps, r, ids[k]);
    }
    assert ids[..|ids|] == ids;
  }

  // buckets: the members of a component by layer.
  method GroupLayers(members: seq<int>, layer: map<int, nat>) returns (levels: seq<int>, buckets: map<int, seq<int>>)
    requires forall x :: x in members ==> x in layer
    ensures Grouped(members, layer, levels, buckets)
  {
    levels, buckets := [], map[];
    for k := 0 to |members|
      invariant Grouped(members[..k], layer, levels, buckets)
    {
      var m := members[k];
      assert m in members && m in layer;
      var lv := layer[m];
      GroupStep(members, k, layer, levels, buckets);
      if lv !in buckets { levels := levels + [lv]; }
      buckets := AddTo(buckets, lv, m);
    }
    assert members[..|members|] == members;
  }

  // ---------- One component ----------

  function PlacedUps(ups: seq<int>, pos: Positions): seq<int> {
    if ups == [] then []
    else
      var last := ups[|ups| - 1];
      PlacedUps(ups[..|ups| - 1], pos) + if last in pos then [last] else []
  }

  function SumY(ups: seq<int>, pos: Positions): int {
    if ups == [] then 0
    else
      var last := ups[|ups| - 1];
      SumY(ups[..|ups| - 1], pos) + if last in pos then pos[last].1 else 0
  }

  // y_key: the mean height of the ups placed so far, else the height the node has on the canvas.
  function YKey(ups: seq<int>, pos: Positions, y: real): Key {
    var placed := PlacedUps(ups, pos);
    if placed != [] then (SumY(placed, pos) as real / |placed| as real, y) else (y, 0.0)
  }

  function YKeys(upstream: map<int, seq<int>>, nm: map<int, Node>, pos: Positions): int -> Key {
    nid => YKey(UpsOf(upstream, nid), pos, if nid in nm then nm[nid].y else 0.0)
  }

  // The ups that stand in earlier columns.
  function Earlier(ups: seq<int>, layer: map<int, nat>, nid: int): seq<int> {
    if ups == [] then []
    else
      var last := ups[|ups| - 1];
      Earlier(ups[..|ups| - 1], layer, nid)
      + if last in layer && nid in layer && layer[last] < layer[nid] then [last] else []
  }

  lemma {:induction false} EarlierMembers(ups: seq<int>, layer: map<int, nat>, nid: int)
    ensures forall u :: u in Earlier(ups, layer, nid) <==>
      u in ups && u in layer && nid in layer && layer[u] < layer[nid]
  {
    if ups != [] {
      assert ups == ups[..|ups| - 1] + [ups[|ups| - 1]];
      EarlierMembers(ups[..|ups| - 1], layer, nid);
    }
  }

  // What a column is sorted by: the mean height of the ups in earlier columns, else the height on the canvas.
  function ColumnKeys(upstream: map<int, seq<int>>, nm: map<int, Node>, layer: map<int, nat>, pos: Positions)
    : int -> Key
  {
    nid => YKey(Earlier(UpsOf(upstream, nid), layer, nid), pos, if nid in nm then nm[nid].y else 0.0)
  }

  lemma {:induction false} YKeyFrame(ups: seq<int>, p: Positions, q: Positions)
    requires forall u :: u in ups ==> u in p && u in q && p[u] == q[u]
    ensures PlacedUps(ups, p) == PlacedUps(ups, q) == ups
    ensures SumY(ups, p) == SumY(ups, q)
  {
    if ups != [] {
      assert ups == ups[..|ups| - 1] + [ups[|ups| - 1]];
      YKeyFrame(ups[..|ups| - 1], p, q);
    }
  }

  // When exactly the earlier columns have been placed, the ups found placed are those in them.
  lemma {:induction false} PlacedAreEarlier(ups: seq<int>, layer: map<int, nat>, nid: int, pos: Positions)
    requires forall u :: u in ups ==> (u in pos <==> u in layer && nid in layer && layer[u] < layer[nid])
    ensures PlacedUps(ups, pos) == Earlier(ups, layer, nid)
  {
    if ups != [] {
      assert ups == ups[..|ups| - 1] + [ups[|ups| - 1]];
      PlacedAreEarlier(ups[..|ups| - 1], layer, nid, pos);
    }
  }

  function Spot(d: Dims, base: int, layer: nat, row: nat): (int, int) {
    (d.marginX + layer * d.colW, base + row * d.rowH)
  }

  // Each member stands in its column at its row; a column has no two members in one row and no empty
  // row below an occupied one; `rows` is one more than the last row in use.
  ghost predicate InGrid(members: set<int>, layer: map<int, nat>, row: map<int, nat>, d: Dims, base: int, rows: nat,
                         pos: Positions)
  {
    && (forall m :: m in members ==>
          m in layer && m in row && m in pos && row[m] < rows && pos[m] == Spot(d, base, layer[m], row[m]))
    && (forall a, b :: a in members && b in members && a != b && layer[a] == layer[b] ==> row[a] != row[b])
    && (forall m {:trigger Supported(members, layer, row, m)} ::
          m in members && row[m] > 0 ==> Supported(members, layer, row, m))
    && (rows > 0 ==> exists m :: m in members && row[m] + 1 == rows)
  }

  ghost predicate Supported(members: set<int>, layer: map<int, nat>, row: map<int, nat>, m: int)
    requires forall x :: x in members ==> x in layer && x in row
    requires m in members
  {
    exists b :: b in members && layer[b] == layer[m] && row[b] + 1 == row[m]
  }

  // Within a column, members are ordered by their keys.
  ghost predicate FollowsUps(members: set<int>, layer: map<int, nat>, row: map<int, nat>, keys: map<int, Place>)
    requires forall m :: m in members ==> m in layer && m in row && m in keys
  {
    forall a, b :: a in members && b in members && layer[a] == layer[b] && row[a] < row[b]
      ==> Sooner(keys[a], keys[b])
  }

  method PlaceLevel(bucket: seq<int>, lv: nat, d: Dims, base: int, pos0: Positions) returns (pos: Positions)
    requires Distinct(bucket) && forall x :: x in bucket ==> x !in pos0
    ensures pos.Keys == pos0.Keys + Elems(bucket)
    ensures forall x :: x in pos0 ==> pos[x] == pos0[x]
    ensures forall k :: 0 <= k < |bucket| ==> pos[bucket[k]] == Spot(d, base, lv, k)
  {
    pos := pos0;
    for k := 0 to |bucket|
      invariant forall x :: x in pos <==> x in pos0 || x in bucket[..k]
      invariant forall x :: x in pos0 ==> pos[x] == pos0[x]
      invariant forall j :: 0 <= j < k ==> bucket[j] in pos && pos[bucket[j]] == Spot(d, base, lv, j)
    {
      assert bucket[k] in bucket && bucket[..k + 1] == bucket[..k] + [bucket[k]];
      pos := pos[bucket[k] := (d.marginX + lv * d.colW, base + k * d.rowH)];
    }
    assert bucket[..|bucket|] == bucket;
    assert forall x :: x in pos <==> x in pos0.Keys + Elems(bucket);
  }

  ghost function AddRows(row: map<int, nat>, bucket: seq<int>): map<int, nat> {
    map x | x in row.Keys + Elems(bucket) :: if x in bucket then IndexOf(bucket, x) else row[x]
  }

  lemma IndexIs(s: seq<int>, k: nat)
    requires Distinct(s) && k < |s|
    ensures s[k] in s && IndexOf(s, s[k]) == k
  {
  }

  function Max(a: nat, b: nat): nat {
    if a < b then b else a
  }

  // The lowest row of the whole stays supported by the row above it.
  lemma LevelSupports(members: set<int>, bucket: seq<int>, lv: nat, layer: map<int, nat>, row: map<int, nat>, m: int)
    requires (forall x :: x in members ==> x in layer && x in row && layer[x] != lv)
    requires Distinct(bucket) && forall x :: x in bucket ==> x !in members && x in layer && layer[x] == lv
    requires forall k :: 0 <= k < |bucket| ==> bucket[k] in bucket && IndexOf(bucket, bucket[k]) == k
    requires m in members && row[m] > 0 ==> Supported(members, layer, row, m)
    requires m in members + Elems(bucket) && AddRows(row, bucket)[m] > 0
    ensures Supported(members + Elems(bucket), layer, AddRows(row, bucket), m)
  {
    var next := AddRows(row, bucket);
    if m in bucket {
      var b := bucket[next[m] - 1];
      assert b in bucket && next[b] + 1 == next[m];
    } else {
      var b :| b in members && layer[b] == layer[m] && row[b] + 1 == row[m];
      assert next[b] + 1 == next[m];
    }
  }

  lemma LevelsSupport(members: set<int>, bucket: seq<int>, lv: nat, layer: map<int, nat>, row: map<int, nat>)
    requires (forall x :: x in members ==> x in layer && x in row && layer[x] != lv)
    requires Distinct(bucket) && forall x :: x in bucket ==> x !in members && x in layer && layer[x] == lv
    requires forall m {:trigger Supported(members, layer, row, m)} ::
      m in members && row[m] > 0 ==> Supported(members, layer, row, m)
    ensures forall m {:trigger Supported(members + Elems(bucket), layer, AddRows(row, bucket), m)} ::
      m in members + Elems(bucket) && AddRows(row, bucket)[m] > 0 ==>
        Supported(members + Elems(bucket), layer, AddRows(row, bucket), m)
  {
    var all, next := members + Elems(bucket), AddRows(row, bucket);
    forall k | 0 <= k < |bucket| ensures bucket[k] in bucket && IndexOf(bucket, bucket[k]) == k {
      IndexIs(bucket, k);
    }
    forall m {:trigger Supported(all, layer, next, m)} | m in all && next[m] > 0
      ensures Supported(all, layer, next, m)
    {
      assert m in members && row[m] > 0 ==> Supported(members, layer, row, m);
      LevelSupports(members, bucket, lv, layer, row, m);
    }
  }

  lemma LevelStep(members: set<int>, bucket: seq<int>, lv: nat, layer: map<int, nat>, row: map<int, nat>,
                  d: Dims, base: int, rows: nat, pos0: Positions, pos: Positions)
    requires InGrid(members, layer, row, d, base, rows, pos0)
    requires Distinct(bucket) && forall x :: x in bucket ==> x !in members && x in layer && layer[x] == lv
    requires forall m :: m in members ==> layer[m] != lv
    requires forall x :: x in pos0 ==> x in pos && pos[x] == pos0[x]
    requires forall k :: 0 <= k < |bucket| ==> bucket[k] in pos && pos[bucket[k]] == Spot(d, base, lv, k)
    ensures InGrid(members + Elems(bucket), layer, AddRows(row, bucket), d, base, Max(rows, |bucket|), pos)
  {
    var all, next := members + Elems(bucket), AddRows(row, bucket);
    LevelsSupport(members, bucket, lv, layer, row);
    forall k | 0 <= k < |bucket| ensures bucket[k] in bucket && IndexOf(bucket, bucket[k]) == k {
      IndexIs(bucket, k);
    }
    if |bucket| > rows {
      var m := bucket[|bucket| - 1];
      assert m in all && next[m] + 1 == |bucket|;
    } else if rows > 0 {
      var m :| m in members && row[m] + 1 == rows;
      assert m in all && next[m] + 1 == rows;
    }
  }

  ghost function AddKeys(keys: map<int, Place>, bucket: seq<int>, key: int -> Place): map<int, Place> {
    map x | x in keys.Keys + Elems(bucket) :: if x in bucket then key(x) else keys[x]
  }

  lemma FollowStep(members: set<int>, bucket: seq<int>, lv: nat, layer: map<int, nat>, row: map<int, nat>,
                   keys: map<int, Place>, key: int -> Place)
    requires forall m :: m in members ==> m in layer && m in row && m in keys && layer[m] != lv
    requires FollowsUps(members, layer, row, keys)
    requires Distinct(bucket) && Ordered(bucket, key)
    requires forall x :: x in bucket ==> x !in members && x in layer && layer[x] == lv
    ensures FollowsUps(members + Elems(bucket), layer, AddRows(row, bucket), AddKeys(keys, bucket, key))
  {
    var all, next, more := members + Elems(bucket), AddRows(row, bucket), AddKeys(keys, bucket, key);
    forall a, b | a in all && b in all && layer[a] == layer[b] && next[a] < next[b]
      ensures Sooner(more[a], more[b])
    {
      if a in bucket {
        assert bucket[next[a]] == a && bucket[next[b]] == b;
      }
    }
  }

  // The members whose level is among the first k.
  ghost function UpTo(members: seq<int>, layer: map<int, nat>, levels: seq<int>, k: nat): set<int>
    requires k <= |levels|
  {
    set m | m in members && m in layer && layer[m] in levels[..k]
  }

  lemma UpToAll(members: seq<int>, layer: map<int, nat>, levels: seq<int>)
    requires forall m :: m in members ==> m in layer && layer[m] in levels
    ensures UpTo(members, layer, levels, |levels|) == Elems(members)
  {
    assert levels[..|levels|] == levels;
    forall m ensures m in UpTo(members, layer, levels, |levels|) <==> m in Elems(members) {
    }
  }

  function Ascending(): int -> Key {
    lv => (lv as real, 0.0)
  }

  // sorted(buckets)
  method SortLevels(levels0: seq<int>) returns (levels: seq<int>)
    requires Distinct(levels0)
    ensures Distinct(levels) && forall y :: y in levels <==> y in levels0
    ensures forall i, j :: 0 <= i < j < |levels| ==> levels[i] < levels[j]
  {
    StandingIncreases(levels0);
    SortedListing(levels0, Ascending(), Standing(levels0));
    levels := SortBy(levels0, Ascending());
    var place := Ranked(Ascending(), Standing(levels0));
    forall i, j | 0 <= i < j < |levels| ensures levels[i] < levels[j] {
      assert Sooner(place(levels[i]), place(levels[j])) && levels[i] != levels[j];
    }
  }

  // A member's ups are in the same component.
  ghost predicate UpsWithin(members: seq<int>, upstream: map<int, seq<int>>) {
    forall t, u :: t in members && u in UpsOf(upstream, t) ==> u in members
  }

  // Members of the first levels are those in earlier columns than the next.
  lemma UpToIsEarlier(members: seq<int>, layer: map<int, nat>, levels: seq<int>, k: nat, m: int)
    requires k < |levels| && m in members && m in layer
    requires forall i, j :: 0 <= i < j < |levels| ==> levels[i] < levels[j]
    requires forall x :: x in members ==> x in layer && layer[x] in levels
    ensures m in UpTo(members, layer, levels, k) <==> layer[m] < levels[k]
  {
    var i := IndexOf(levels, layer[m]);
    if m in UpTo(members, layer, levels, k) {
      var j :| 0 <= j < k && levels[..k][j] == layer[m];
      assert levels[j] == layer[m];
    }
    if layer[m] < levels[k] { assert i < k && levels[..k][i] == layer[m]; }
  }

  // The keys the next column is sorted by stay what they are once it is placed.
  lemma BucketKeysSettle(members: seq<int>, upstream: map<int, seq<int>>, nm: map<int, Node>, layer: map<int, nat>,
                         levels: seq<int>, k: nat, p: Positions, q: Positions, m: int)
    requires k < |levels| && UpsWithin(members, upstream) && m in members && m in layer && layer[m] == levels[k]
    requires forall i, j :: 0 <= i < j < |levels| ==> levels[i] < levels[j]
    requires forall x :: x in members ==> x in layer && layer[x] in levels
    requires forall x :: x in members ==> (x in p <==> x in UpTo(members, layer, levels, k))
    requires forall x :: x in p ==> x in q && p[x] == q[x]
    ensures YKeys(upstream, nm, p)(m) == ColumnKeys(upstream, nm, layer, q)(m)
  {
    var ups := UpsOf(upstream, m);
    forall u | u in ups ensures u in p <==> u in layer && layer[u] < layer[m] {
      UpToIsEarlier(members, layer, levels, k, u);
    }
    PlacedAreEarlier(ups, layer, m, p);
    EarlierMembers(ups, layer, m);
    YKeyFrame(Earlier(ups, layer, m), p, q);
  }

  // The keys of members already placed do not change when others are.
  lemma KeysStay(members: seq<int>, upstream: map<int, seq<int>>, nm: map<int, Node>, layer: map<int, nat>,
                 p: Positions, q: Positions, m: int)
    requires UpsWithin(members, upstream) && m in members && m in layer
    requires forall x :: x in members && x in layer && layer[x] < layer[m] ==> x in p
    requires forall x :: x in p ==> x in q && p[x] == q[x]
    ensures ColumnKeys(upstream, nm, layer, p)(m) == ColumnKeys(upstream, nm, layer, q)(m)
  {
    EarlierMembers(UpsOf(upstream, m), layer, m);
    YKeyFrame(Earlier(UpsOf(upstream, m), layer, m), p, q);
  }

  // The keys the members were sorted by, as the positions have them.
  ghost predicate KeysAre(members: set<int>, keys: map<int, Place>, upstream: map<int, seq<int>>, nm: map<int, Node>,
                          rank: int -> int, layer: map<int, nat>, pos: Positions)
  {
    forall m {:trigger HasKey(keys, upstream, nm, rank, layer, pos, m)} :: m in members ==>
      HasKey(keys, upstream, nm, rank, layer, pos, m)
  }

  ghost predicate HasKey(keys: map<int, Place>, upstream: map<int, seq<int>>, nm: map<int, Node>, rank: int -> int,
                         layer: map<int, nat>, pos: Positions, m: int)
  {
    m in keys && keys[m] == Ranked(ColumnKeys(upstream, nm, layer, pos), rank)(m)
  }

  lemma KeysSettled(members: seq<int>, upstream: map<int, seq<int>>, nm: map<int, Node>, rank: int -> int,
                    layer: map<int, nat>, levels: seq<int>, k: nat, bucket: seq<int>, keys: map<int, Place>,
                    p: Positions, q: Positions)
    requires k < |levels| && UpsWithin(members, upstream)
    requires forall i, j :: 0 <= i < j < |levels| ==> levels[i] < levels[j]
    requires forall m :: m in members ==> m in layer && layer[m] in levels
    requires forall x :: x in bucket <==> x in members && x in layer && layer[x] == levels[k]
    requires forall x :: x in members ==> (x in p <==> x in UpTo(members, layer, levels, k))
    requires forall x :: x in p ==> x in q && p[x] == q[x]
    requires KeysAre(UpTo(members, layer, levels, k), keys, upstream, nm, rank, layer, p)
    ensures KeysAre(UpTo(members, layer, levels, k) + Elems(bucket),
                    AddKeys(keys, bucket, Ranked(YKeys(upstream, nm, p), rank)), upstream, nm, rank, layer, q)
  {
    var done, more := UpTo(members, layer, levels, k), AddKeys(keys, bucket, Ranked(YKeys(upstream, nm, p), rank));
    forall m {:trigger HasKey(more, upstream, nm, rank, layer, q, m)} | m in done + Elems(bucket)
      ensures HasKey(more, upstream, nm, rank, layer, q, m)
    {
      if m in bucket {
        BucketKeysSettle(members, upstream, nm, layer, levels, k, p, q, m);
      } else {
        UpToIsEarlier(members, layer, levels, k, m);
        forall x | x in members && x in layer && layer[x] < layer[m] ensures x in p {
          UpToIsEarlier(members, layer, levels, k, x);
        }
        KeysStay(members, upstream, nm, layer, p, q, m);
        assert HasKey(keys, upstream, nm, rank, layer, p, m);
      }
    }
  }

  // A level's bucket, sorted: exactly the members on that level.
  method SortBucket(members: seq<int>, ghost layer: map<int, nat>, ghost levels0: seq<int>, buckets: map<int, seq<int>>,
                    lv: int, key: int -> Key, ghost rank: int -> int)
    returns (bucket: seq<int>)
    requires Distinct(members) && Increasing(members, rank)
    requires Grouped(members, layer, levels0, buckets) && lv in levels0
    ensures bucket != [] && Distinct(bucket) && Ordered(bucket, Ranked(key, rank)) && lv >= 0
    ensures forall x :: x in bucket <==> x in members && x in layer && layer[x] == lv
  {
    assert lv in buckets.Keys;
    SelectMembers(members, layer, lv);
    SelectIncreasing(members, layer, lv, rank);
    SortedListing(buckets[lv], key, rank);
    bucket := SortBy(buckets[lv], key);
    assert bucket[0] in bucket && layer[bucket[0]] == lv;
  }

  // Adding a level's bucket adds the members on that level, which were not there before.
  lemma LevelAdds(members: seq<int>, layer: map<int, nat>, levels: seq<int>, k: nat, bucket: seq<int>)
    requires Distinct(levels) && k < |levels|
    requires forall x :: x in bucket <==> x in members && x in layer && layer[x] == levels[k]
    ensures UpTo(members, layer, levels, k + 1) == UpTo(members, layer, levels, k) + Elems(bucket)
    ensures forall m :: m in UpTo(members, layer, levels, k) ==> layer[m] != levels[k]
  {
    assert levels[..k + 1] == levels[..k] + [levels[k]];
    assert levels[k] !in levels[..k];
    forall m
      ensures m in UpTo(members, layer, levels, k + 1) <==> m in UpTo(members, layer, levels, k) + Elems(bucket)
    {
      assert m in Elems(bucket) <==> m in bucket;
    }
  }

  // The state after a number of levels.
  ghost predicate Columns(done: set<int>, layer: map<int, nat>, row: map<int, nat>, keys: map<int, Place>, d: Dims,
                          base: int, rows: nat, pos: Positions)
  {
    && InGrid(done, layer, row, d, base, rows, pos)
    && (forall m :: m in done ==> m in keys)
    && FollowsUps(done, layer, row, keys)
  }

  lemma ColumnAdded(done: set<int>, bucket: seq<int>, lv: nat, layer: map<int, nat>, row: map<int, nat>,
                    keys: map<int, Place>, key: int -> Place, d: Dims, base: int, rows: nat, p: Positions, q: Positions)
    requires Distinct(bucket) && Ordered(bucket, key)
    requires forall x :: x in bucket ==> x !in done && x in layer && layer[x] == lv
    requires Columns(done, layer, row, keys, d, base, rows, p) && forall m :: m in done ==> layer[m] != lv
    requires forall x :: x in p ==> x in q && p[x] == q[x]
    requires forall i :: 0 <= i < |bucket| ==> bucket[i] in q && q[bucket[i]] == Spot(d, base, lv, i)
    ensures Columns(done + Elems(bucket), layer, AddRows(row, bucket), AddKeys(keys, bucket, key), d, base,
                    Max(rows, |bucket|), q)
  {
    LevelStep(done, bucket, lv, layer, row, d, base, rows, p, q);
    FollowStep(done, bucket, lv, layer, row, keys, key);
  }

  // The next level: its bucket sorted by y_key, one member a row.
  method PlaceNext(members: seq<int>, upstream: map<int, seq<int>>, nm: map<int, Node>, ghost rank: int -> int,
                   ghost layer: map<int, nat>, ghost levels0: seq<int>, buckets: map<int, seq<int>>,
                   levels: seq<int>, k: nat, d: Dims, base: int, ghost done0: set<int>, rows0: nat,
                   ghost row0: map<int, nat>, ghost keys0: map<int, Place>, pos0: Positions)
    returns (ghost done: set<int>, pos: Positions, rows: nat, ghost row: map<int, nat>, ghost keys: map<int, Place>)
    requires Distinct(members) && Increasing(members, rank) && Grouped(members, layer, levels0, buckets)
    requires Distinct(levels) && (forall y :: y in levels <==> y in levels0) && k < |levels|
    requires forall i, j :: 0 <= i < j < |levels| ==> levels[i] < levels[j]
    requires UpsWithin(members, upstream)
    requires done0 == UpTo(members, layer, levels, k)
    requires forall m :: m in members && m in pos0 ==> m in done0
    requires Columns(done0, layer, row0, keys0, d, base, rows0, pos0)
    requires KeysAre(done0, keys0, upstream, nm, rank, layer, pos0)
    ensures done == UpTo(members, layer, levels, k + 1)
    ensures Extends(pos0, pos, done0, done)
    ensures Columns(done, layer, row, keys, d, base, rows, pos)
    ensures KeysAre(done, keys, upstream, nm, rank, layer, pos)
  {
    done := UpTo(members, layer, levels, k + 1);
    var key := YKeys(upstream, nm, pos0);
    assert levels[k] in levels;
    var bucket := SortBucket(members, layer, levels0, buckets, levels[k], key, rank);
    LevelAdds(members, layer, levels, k, bucket);
    forall x | x in bucket ensures x !in pos0 {
      assert x in members && layer[x] == levels[k];
    }
    pos := PlaceLevel(bucket, levels[k], d, base, pos0);
    ColumnAdded(done0, bucket, levels[k], layer, row0, keys0, Ranked(key, rank), d, base, rows0, pos0, pos);
    KeysSettled(members, upstream, nm, rank, layer, levels, k, bucket, keys0, pos0, pos);
    row, keys := AddRows(row0, bucket), AddKeys(keys0, bucket, Ranked(key, rank));
    rows := Max(rows0, |bucket|);
  }

  // q places `after` on top of a p that placed `before`.
  ghost predicate Extends(p: Positions, q: Positions, before: set<int>, after: set<int>) {
    && before <= after
    && q.Keys == p.Keys + (after - before)
    && forall x :: x in p ==> q[x] == p[x]
  }

  lemma ExtendsOn(p: Positions, q: Positions, r: Positions, a: set<int>, b: set<int>, c: set<int>)
    requires Extends(p, q, a, b) && Extends(q, r, b, c)
    ensures Extends(p, r, a, c)
  {
  }

  // One round of the outer loop: level by level from the left.
  method PlaceComponent(members: seq<int>, layer: map<int, nat>, upstream: map<int, seq<int>>, nm: map<int, Node>,
                        ghost rank: int -> int, d: Dims, base: int, pos0: Positions)
    returns (pos: Positions, rows: nat, ghost row: map<int, nat>, ghost keys: map<int, Place>)
    requires Distinct(members) && Increasing(members, rank) && members != []
    requires forall m :: m in members ==> m in layer && m !in pos0
    requires UpsWithin(members, upstream)
    ensures Extends(pos0, pos, {}, Elems(members))
    ensures Columns(Elems(members), layer, row, keys, d, base, rows, pos)
    ensures KeysAre(Elems(members), keys, upstream, nm, rank, layer, pos)
  {
    var levels0, buckets := GroupLayers(members, layer);
    var levels := SortLevels(levels0);
    pos, rows, row, keys := pos0, 0, map[], map[];
    ghost var done := UpTo(members, layer, levels, 0);
    for k := 0 to |levels|
      invariant done == UpTo(members, layer, levels, k)
      invariant Extends(pos0, pos, {}, done)
      invariant Columns(done, layer, row, keys, d, base, rows, pos)
      invariant KeysAre(done, keys, upstream, nm, rank, layer, pos)
    {
      ghost var p, before := pos, done;
      done, pos, rows, row, keys :=
        PlaceNext(members, upstream, nm, rank, layer, levels0, buckets, levels, k, d, base, done, rows, row, keys, pos);
      ExtendsOn(pos0, p, pos, {}, before, done);
    }
    UpToAll(members, layer, levels);
  }

  // ---------- Stacking the components ----------

  function MinBy(s: seq<int>, v: int -> real): (r: real)
    requires s != []
    ensures forall x :: x in s ==> r <= v(x)
    ensures exists x :: x in s && v(x) == r
  {
    var front, last := s[..|s| - 1], s[|s| - 1];
    assert s == front + [last];
    if front == [] then v(last)
    else
      var r := MinBy(front, v);
      if v(last) < r then v(last) else r
  }

  function Height(nm: map<int, Node>): int -> real {
    i => if i in nm then nm[i].y else 0.0
  }

  function Across(nm: map<int, Node>): int -> real {
    i => if i in nm then nm[i].x else 0.0
  }

  // comp_key: the least y, then the least x, on the canvas as it is.
  function CompKeys(comps: map<int, seq<int>>, nm: map<int, Node>): int -> Key {
    r => if r in comps && comps[r] != [] then (MinBy(comps[r], Height(nm)), MinBy(comps[r], Across(nm))) else (0.0, 0.0)
  }

  method SortComponents(roots: seq<int>, comps: map<int, seq<int>>, nm: map<int, Node>, ghost rank: int -> int)
    returns (sorted: seq<int>)
    requires Lists(roots, comps.Keys) && Increasing(roots, HeadRank(comps, rank))
    ensures Lists(sorted, comps.Keys) && Ordered(sorted, Ranked(CompKeys(comps, nm), HeadRank(comps, rank)))
  {
    SortedListing(roots, CompKeys(comps, nm), HeadRank(comps, rank));
    sorted := SortBy(roots, CompKeys(comps, nm));
  }

  // Extending the positions beyond a placed component disturbs nothing in it.
  lemma ColumnsFrame(members: set<int>, layer: map<int, nat>, row: map<int, nat>, keys: map<int, Place>, d: Dims,
                     base: int, rows: nat, p: Positions, q: Positions)
    requires Columns(members, layer, row, keys, d, base, rows, p)
    requires forall x :: x in p ==> x in q && p[x] == q[x]
    ensures Columns(members, layer, row, keys, d, base, rows, q)
  {
  }

  lemma KeysFrame(members: seq<int>, keys: map<int, Place>, upstream: map<int, seq<int>>, nm: map<int, Node>,
                  rank: int -> int, layer: map<int, nat>, p: Positions, q: Positions)
    requires UpsWithin(members, upstream) && forall x :: x in members ==> x in p && x in layer
    requires forall x :: x in p ==> x in q && p[x] == q[x]
    requires KeysAre(Elems(members), keys, upstream, nm, rank, layer, p)
    ensures KeysAre(Elems(members), keys, upstream, nm, rank, layer, q)
  {
    forall m {:trigger HasKey(keys, upstream, nm, rank, layer, q, m)} | m in Elems(members)
      ensures HasKey(keys, upstream, nm, rank, layer, q, m)
    {
      assert HasKey(keys, upstream, nm, rank, layer, p, m);
      KeysStay(members, upstream, nm, layer, p, q, m);
    }
  }

  datatype Band = Band(members: seq<int>, base: int, rows: nat, row: map<int, nat>, keys: map<int, Place>)

  function NextBase(b: Band, d: Dims): int {
    b.base + b.rows * d.rowH + d.gap
  }

  // The bands placed so far, each starting where the one above leaves off.
  ghost predicate Stacked(bands: seq<Band>, layer: map<int, nat>, d: Dims, pos: Positions) {
    forall i {:trigger BandAt(bands, i, layer, d, pos)} :: 0 <= i < |bands| ==> BandAt(bands, i, layer, d, pos)
  }

  ghost predicate BandAt(bands: seq<Band>, i: nat, layer: map<int, nat>, d: Dims, pos: Positions)
    requires i < |bands|
  {
    var b := bands[i];
    b.base == BaseAt(bands, d, i) && Columns(Elems(b.members), layer, b.row, b.keys, d, b.base, b.rows, pos)
  }

  // Each band was sorted by its keys as the positions have them.
  ghost predicate Keyed(bands: seq<Band>, upstream: map<int, seq<int>>, nm: map<int, Node>, rank: int -> int,
                        layer: map<int, nat>, pos: Positions)
  {
    forall i {:trigger KeyedAt(bands, i, upstream, nm, rank, layer, pos)} :: 0 <= i < |bands| ==>
      KeyedAt(bands, i, upstream, nm, rank, layer, pos)
  }

  ghost predicate KeyedAt(bands: seq<Band>, i: nat, upstream: map<int, seq<int>>, nm: map<int, Node>, rank: int -> int,
                          layer: map<int, nat>, pos: Positions)
    requires i < |bands|
  {
    KeysAre(Elems(bands[i].members), bands[i].keys, upstream, nm, rank, layer, pos)
  }

  function BaseAt(bands: seq<Band>, d: Dims, i: nat): int
    requires i <= |bands|
  {
    if i == 0 then d.marginY else NextBase(bands[i - 1], d)
  }

  lemma StackOne(bands: seq<Band>, b: Band, layer: map<int, nat>, d: Dims, p: Positions, q: Positions)
    requires Stacked(bands, layer, d, p)
    requires forall x :: x in p ==> x in q && p[x] == q[x]
    requires b.base == BaseAt(bands, d, |bands|)
    requires Columns(Elems(b.members), layer, b.row, b.keys, d, b.base, b.rows, q)
    ensures Stacked(bands + [b], layer, d, q)
  {
    var more := bands + [b];
    forall i {:trigger BandAt(more, i, layer, d, q)} | 0 <= i < |more| ensures BandAt(more, i, layer, d, q) {
      assert i > 0 ==> more[i - 1] == bands[i - 1];
      if i < |bands| {
        var c := bands[i];
        assert BandAt(bands, i, layer, d, p);
        ColumnsFrame(Elems(c.members), layer, c.row, c.keys, d, c.base, c.rows, p, q);
      }
    }
  }

  lemma KeyOne(bands: seq<Band>, b: Band, upstream: map<int, seq<int>>, nm: map<int, Node>, rank: int -> int,
               layer: map<int, nat>, p: Positions, q: Positions)
    requires Keyed(bands, upstream, nm, rank, layer, p)
    requires forall c :: c in bands ==> UpsWithin(c.members, upstream)
    requires forall c, x :: c in bands && x in c.members ==> x in p && x in layer
    requires forall x :: x in p ==> x in q && p[x] == q[x]
    requires KeysAre(Elems(b.members), b.keys, upstream, nm, rank, layer, q)
    ensures Keyed(bands + [b], upstream, nm, rank, layer, q)
  {
    var more := bands + [b];
    forall i {:trigger KeyedAt(more, i, upstream, nm, rank, layer, q)} | 0 <= i < |more|
      ensures KeyedAt(more, i, upstream, nm, rank, layer, q)
    {
      if i < |bands| {
        assert bands[i] in bands && KeyedAt(bands, i, upstream, nm, rank, layer, p);
        KeysFrame(bands[i].members, bands[i].keys, upstream, nm, rank, layer, p, q);
      }
    }
  }

  lemma BandsArePlaced(bands: seq<Band>, layer: map<int, nat>, d: Dims, pos: Positions)
    requires Stacked(bands, layer, d, pos)
    ensures forall b, x :: b in bands && x in b.members ==> x in pos && x in layer
  {
    forall b, x | b in bands && x in b.members ensures x in pos && x in layer {
      var i :| 0 <= i < |bands| && bands[i] == b;
      assert BandAt(bands, i, layer, d, pos) && x in Elems(b.members);
    }
  }

  ghost function PlacedIn(groups: seq<seq<int>>, k: nat): set<int>
    requires k <= |groups|
  {
    if k == 0 then {} else PlacedIn(groups, k - 1) + Elems(groups[k - 1])
  }

  // The components in placing order: nonempty, without repetition, disjoint.
  ghost predicate Disjoint(groups: seq<seq<int>>) {
    forall k {:trigger FreshGroup(groups, k)} :: 0 <= k < |groups| ==> FreshGroup(groups, k)
  }

  ghost predicate FreshGroup(groups: seq<seq<int>>, k: nat)
    requires k < |groups|
  {
    groups[k] != [] && Distinct(groups[k]) && Elems(groups[k]) !! PlacedIn(groups, k)
  }

  function InOrder(sorted: seq<int>, comps: map<int, seq<int>>): (r: seq<seq<int>>)
    requires forall v :: v in sorted ==> v in comps
    ensures |r| == |sorted|
    ensures forall k :: 0 <= k < |sorted| ==> sorted[k] in comps && r[k] == comps[sorted[k]]
  {
    if sorted == [] then []
    else
      var front, last := sorted[..|sorted| - 1], sorted[|sorted| - 1];
      assert sorted == front + [last] && last in sorted;
      InOrder(front, comps) + [comps[last]]
  }

  lemma {:induction false} PlacedMembers(sorted: seq<int>, comps: map<int, seq<int>>, tag: map<int, int>,
                                         ids: seq<int>, k: nat)
    requires k <= |sorted| && Distinct(sorted) && (forall r :: r in sorted ==> r in comps)
    requires forall r :: r in comps ==> comps[r] == Select(ids, tag, r)
    ensures forall x :: x in PlacedIn(InOrder(sorted, comps), k) <==> x in ids && x in tag && tag[x] in sorted[..k]
  {
    if k > 0 {
      var r := sorted[k - 1];
      assert r in sorted && sorted[..k] == sorted[..k - 1] + [r];
      PlacedMembers(sorted, comps, tag, ids, k - 1);
      SelectMembers(ids, tag, r);
    }
  }

  lemma GroupsPartition(ids: seq<int>, tag: map<int, int>, sorted: seq<int>, comps: map<int, seq<int>>)
    requires Distinct(ids) && Grouped(ids, tag, sorted, comps)
    ensures Disjoint(InOrder(sorted, comps))
    ensures PlacedIn(InOrder(sorted, comps), |sorted|) == Elems(ids)
  {
    var groups := InOrder(sorted, comps);
    forall k {:trigger FreshGroup(groups, k)} | 0 <= k < |groups| ensures FreshGroup(groups, k) {
      var r := sorted[k];
      assert r in sorted && r !in sorted[..k];
      SelectMembers(ids, tag, r);
      PlacedMembers(sorted, comps, tag, ids, k);
    }
    PlacedMembers(sorted, comps, tag, ids, |sorted|);
    assert sorted[..|sorted|] == sorted;
    forall x ensures x in PlacedIn(groups, |sorted|) <==> x in Elems(ids) {
      if x in ids {
        var r := tag[x];
        assert r in comps.Keys;
        assert r in sorted;
      }
    }
  }

  // The first k components are placed, each in its band.
  ghost predicate StackedTo(groups: seq<seq<int>>, k: nat, bands: seq<Band>, layer: map<int, nat>, d: Dims,
                            pos: Positions)
    requires k <= |groups|
  {
    && |bands| == k && (forall i :: 0 <= i < k ==> bands[i].members == groups[i])
    && pos.Keys == PlacedIn(groups, k)
    && Stacked(bands, layer, d, pos)
  }

  method StackNext(groups: seq<seq<int>>, k: nat, layer: map<int, nat>, upstream: map<int, seq<int>>,
                   nm: map<int, Node>, ghost rank: int -> int, d: Dims, baseY: int, pos0: Positions,
                   ghost bands: seq<Band>)
    returns (pos: Positions, next: int, ghost band: Band)
    requires k < |groups| && FreshGroup(groups, k)
    requires forall x :: x in groups[k] ==> x in layer
    requires UpsWithin(groups[k], upstream) && Increasing(groups[k], rank)
    requires forall b :: b in bands ==> UpsWithin(b.members, upstream)
    requires StackedTo(groups, k, bands, layer, d, pos0) && baseY == BaseAt(bands, d, k)
    requires Keyed(bands, upstream, nm, rank, layer, pos0)
    ensures StackedTo(groups, k + 1, bands + [band], layer, d, pos)
    ensures Keyed(bands + [band], upstream, nm, rank, layer, pos)
    ensures next == BaseAt(bands + [band], d, k + 1)
  {
    var members := groups[k];
    forall m | m in members ensures m in layer && m !in pos0 {
      assert m in Elems(members);
    }
    var rows;
    ghost var row, keys;
    pos, rows, row, keys := PlaceComponent(members, layer, upstream, nm, rank, d, baseY, pos0);
    band := Band(members, baseY, rows, row, keys);
    StackOne(bands, band, layer, d, pos0, pos);
    BandsArePlaced(bands, layer, d, pos0);
    KeyOne(bands, band, upstream, nm, rank, layer, pos0, pos);
    assert Elems(members) - {} == Elems(members);
    next := baseY + (rows * d.rowH + d.gap);
  }

  method StackComponents(groups: seq<seq<int>>, layer: map<int, nat>, upstream: map<int, seq<int>>, nm: map<int, Node>,
                         ghost rank: int -> int, d: Dims)
    returns (pos: Positions, ghost bands: seq<Band>)
    requires Disjoint(groups)
    requires forall g, x :: g in groups && x in g ==> x in layer
    requires forall g :: g in groups ==> UpsWithin(g, upstream) && Increasing(g, rank)
    ensures StackedTo(groups, |groups|, bands, layer, d, pos) && Keyed(bands, upstream, nm, rank, layer, pos)
  {
    pos, bands := map[], [];
    var baseY := d.marginY;
    for k := 0 to |groups|
      invariant StackedTo(groups, k, bands, layer, d, pos) && baseY == BaseAt(bands, d, k)
      invariant Keyed(bands, upstream, nm, rank, layer, pos)
      invariant forall b :: b in bands ==> UpsWithin(b.members, upstream)
    {
      assert groups[k] in groups && FreshGroup(groups, k);
      ghost var band;
      pos, baseY, band := StackNext(groups, k, layer, upstream, nm, rank, d, baseY, pos, bands);
      bands := bands + [band];
    }
  }

  // ---------- What the positions promise ----------

  // Columns step right along the input edges: on ids without a cycle behind them the column is the
  // length of the longest input path into the id.
  ghost predicate ColumnsByPath(arcs: Arcs, ids: set<int>, layer: map<int, nat>, d: Dims, pos: Positions) {
    && layer.Keys == ids && LongestPath(arcs, layer)
    && forall i :: i in ids ==> i in pos && pos[i].0 == d.marginX + layer[i] * d.colW
  }

  // Nodes closer than a column in x are at least a row apart in y.
  ghost predicate NoOverlap(ids: set<int>, d: Dims, pos: Positions)
    requires pos.Keys == ids
  {
    forall a, b :: a in ids && b in ids && a != b && -d.colW < pos[a].0 - pos[b].0 < d.colW ==>
      pos[a].1 + d.rowH <= pos[b].1 || pos[b].1 + d.rowH <= pos[a].1
  }

  // Two components: the lower one starts at least a row and a gap below the end of the upper one.
  ghost predicate OwnBands(links: Arcs, ids: set<int>, d: Dims, pos: Positions)
    requires pos.Keys == ids
  {
    forall a, a', b, b' |
      && {a, a', b, b'} <= ids
      && Linked(links, a, a') && Linked(links, b, b') && !Linked(links, a, b)
      && pos[a].1 <= pos[b].1
      :: pos[a'].1 + d.rowH + d.gap <= pos[b'].1
  }

  // No room is wasted: a node is at the top margin, or a row below one of its own column and
  // component, or a row and a gap below one of another component.
  ghost predicate Packed(links: Arcs, ids: set<int>, d: Dims, pos: Positions)
    requires pos.Keys == ids
  {
    forall a :: a in ids && pos[a].1 != d.marginY ==> exists b :: b in ids && Under(links, d, pos[a], pos[b], a, b)
  }

  ghost predicate Under(links: Arcs, d: Dims, at: (int, int), above: (int, int), a: int, b: int) {
    if Linked(links, a, b) then above == (at.0, at.1 - d.rowH) else above.1 == at.1 - d.rowH - d.gap
  }

  // The component of a has a node that comes no later, by v, than any node of that of b.
  ghost predicate Leads(links: Arcs, v: map<int, real>, a: int, b: int) {
    exists first :: first in v && Linked(links, a, first) && IsFirst(links, v, first, b)
  }

  ghost predicate IsFirst(links: Arcs, v: map<int, real>, first: int, b: int)
    requires first in v
  {
    forall b' :: b' in v && Linked(links, b, b') ==> v[first] <= v[b']
  }

  ghost function Xs(nm: map<int, Node>): (r: map<int, real>)
    ensures r.Keys == nm.Keys && forall i :: i in nm ==> r[i] == nm[i].x
  {
    map i | i in nm :: nm[i].x
  }

  ghost function Ys(nm: map<int, Node>): (r: map<int, real>)
    ensures r.Keys == nm.Keys && forall i :: i in nm ==> r[i] == nm[i].y
  {
    map i | i in nm :: nm[i].y
  }

  ghost function Ranks(ids: set<int>, entry: int -> int): (r: map<int, real>)
    ensures r.Keys == ids && forall i :: i in ids ==> r[i] == entry(i) as real
  {
    map i | i in ids :: entry(i) as real
  }

  // Components keep their reading order: the upper one starts no lower on the canvas; if both start at the
  // same height, no further to the right; and if that is a tie too, no later in the list of nodes.
  ghost predicate ReadingOrder(links: Arcs, nm: map<int, Node>, entry: int -> int, pos: Positions)
    requires pos.Keys == nm.Keys
  {
    forall a, b :: a in nm && b in nm && !Linked(links, a, b) && pos[a].1 < pos[b].1 ==>
      ReadsFirst(links, nm, entry, a, b)
  }

  ghost predicate ReadsFirst(links: Arcs, nm: map<int, Node>, entry: int -> int, a: int, b: int) {
    var xs, ys, entries := Xs(nm), Ys(nm), Ranks(nm.Keys, entry);
    && Leads(links, ys, a, b)
    && (Leads(links, ys, b, a) ==> Leads(links, xs, a, b) && (Leads(links, xs, b, a) ==> Leads(links, entries, a, b)))
  }

  // The ups of a in earlier columns, as the edges they come along, among the first n.
  ghost function UpEdges(edges: seq<Edge>, pos: Positions, a: int, n: nat): set<int>
    requires a in pos && n <= |edges|
  {
    set k | 0 <= k < n && edges[k].dep.Input? && edges[k].target == a
      && edges[k].source in pos && pos[edges[k].source].0 < pos[a].0
  }

  // How low the source of the k-th edge stands.
  ghost function SourceHeight(edges: seq<Edge>, pos: Positions): int -> int {
    k => if 0 <= k < |edges| && edges[k].source in pos then pos[edges[k].source].1 else 0
  }

  // Where a belongs in its column: at the mean height of its ups, else where it is on the canvas.
  ghost function WantedHeight(edges: seq<Edge>, nm: map<int, Node>, pos: Positions, a: int): real
    requires a in pos && a in nm
  {
    var ups := UpEdges(edges, pos, a, |edges|);
    if ups == {} then nm[a].y else Sum(ups, SourceHeight(edges, pos)) as real / |ups| as real
  }

  // Between two nodes that belong at the same height, the one higher on the canvas goes first; one without
  // ups counts as if it were at height 0.
  ghost function TieHeight(edges: seq<Edge>, nm: map<int, Node>, pos: Positions, a: int): real
    requires a in pos && a in nm
  {
    if UpEdges(edges, pos, a, |edges|) == {} then 0.0 else nm[a].y
  }

  ghost predicate GoesAbove(edges: seq<Edge>, nm: map<int, Node>, entry: int -> int, pos: Positions, a: int, b: int)
    requires {a, b} <= pos.Keys && {a, b} <= nm.Keys
  {
    var p, q := WantedHeight(edges, nm, pos, a), WantedHeight(edges, nm, pos, b);
    var s, t := TieHeight(edges, nm, pos, a), TieHeight(edges, nm, pos, b);
    p < q || (p == q && (s < t || (s == t && entry(a) < entry(b))))
  }

  // Within a column of a component, nodes stand in the order of the heights they belong at.
  ghost predicate SortedByUps(edges: seq<Edge>, nm: map<int, Node>, entry: int -> int, pos: Positions)
    requires pos.Keys == nm.Keys
  {
    var links := KnownArcs(edges, nm.Keys);
    forall a, b |
      && a in pos && b in pos && Linked(links, a, b)
      && pos[a].0 == pos[b].0 && pos[a].1 < pos[b].1
      :: GoesAbove(edges, nm, entry, pos, a, b)
  }

  // The components of `links`, one band each.
  ghost predicate BandsAreComponents(bands: seq<Band>, links: Arcs, ids: set<int>) {
    && (forall a, i :: 0 <= i < |bands| && a in bands[i].members ==> a in ids)
    && (forall a :: a in ids ==> exists i :: 0 <= i < |bands| && a in bands[i].members)
    && (forall a, b, i, j ::
          0 <= i < |bands| && 0 <= j < |bands| && a in bands[i].members && b in bands[j].members ==>
          (i == j <==> Linked(links, a, b)))
  }

  lemma {:induction false} RowsApart(i: nat, j: nat, h: int)
    requires i < j && h >= 0
    ensures i * h + h <= j * h
    decreases j
  {
    RowNext(j - 1, h);
    if i < j - 1 { RowsApart(i, j - 1, h); }
  }

  lemma RowNext(n: nat, h: int)
    ensures (n + 1) * h == n * h + h
  {
  }

  // A member's height within its band.
  lemma InBand(bands: seq<Band>, i: nat, layer: map<int, nat>, d: Dims, pos: Positions, a: int)
    requires i < |bands| && Stacked(bands, layer, d, pos) && a in bands[i].members
    ensures a in pos && a in layer && a in bands[i].row && bands[i].row[a] < bands[i].rows
    ensures pos[a] == (d.marginX + layer[a] * d.colW, bands[i].base + bands[i].row[a] * d.rowH)
    ensures d.rowH >= 0 ==> bands[i].base <= pos[a].1 && pos[a].1 + d.rowH + d.gap <= NextBase(bands[i], d)
  {
    assert BandAt(bands, i, layer, d, pos) && a in Elems(bands[i].members);
    if d.rowH >= 0 { RowsApart(bands[i].row[a], bands[i].rows, d.rowH); }
  }

  lemma {:induction false} BasesApart(bands: seq<Band>, i: nat, j: nat, layer: map<int, nat>, d: Dims, pos: Positions)
    requires i < j < |bands| && Stacked(bands, layer, d, pos)
    requires d.rowH >= 0 && d.gap >= 0
    ensures NextBase(bands[i], d) <= bands[j].base
    decreases j
  {
    assert BandAt(bands, j, layer, d, pos);
    if i < j - 1 {
      BasesApart(bands, i, j - 1, layer, d, pos);
      assert bands[j - 1].rows * d.rowH >= 0;
    }
  }

  // The facts the lemmas below share: the bands are stacked and are the components of `links`.
  ghost predicate Arranged(bands: seq<Band>, links: Arcs, ids: set<int>, layer: map<int, nat>, d: Dims, pos: Positions)
  {
    && pos.Keys == ids
    && Stacked(bands, layer, d, pos)
    && BandsAreComponents(bands, links, ids)
  }

  lemma ArrangedNoOverlap(bands: seq<Band>, links: Arcs, ids: set<int>, layer: map<int, nat>, d: Dims, pos: Positions)
    requires Arranged(bands, links, ids, layer, d, pos)
    requires d.colW > 0 && d.rowH >= 0 && d.gap >= 0
    ensures NoOverlap(ids, d, pos)
  {
    forall a, b | a in ids && b in ids && a != b && -d.colW < pos[a].0 - pos[b].0 < d.colW
      ensures pos[a].1 + d.rowH <= pos[b].1 || pos[b].1 + d.rowH <= pos[a].1
    {
      var i :| 0 <= i < |bands| && a in bands[i].members;
      var j :| 0 <= j < |bands| && b in bands[j].members;
      InBand(bands, i, layer, d, pos, a);
      InBand(bands, j, layer, d, pos, b);
      if i < j {
        BasesApart(bands, i, j, layer, d, pos);
      } else if j < i {
        BasesApart(bands, j, i, layer, d, pos);
      } else {
        SameColumn(layer[a], layer[b], d.colW);
        assert BandAt(bands, i, layer, d, pos);
        assert a in Elems(bands[i].members) && b in Elems(bands[i].members);
        var ra, rb := bands[i].row[a], bands[i].row[b];
        if ra < rb { RowsApart(ra, rb, d.rowH); } else { RowsApart(rb, ra, d.rowH); }
      }
    }
  }

  lemma SameColumn(m: nat, n: nat, w: int)
    requires w > 0 && -w < m * w - n * w < w
    ensures m == n
  {
    if m < n { RowsApart(m, n, w); } else if n < m { RowsApart(n, m, w); }
  }

  lemma ArrangedOwnBands(bands: seq<Band>, links: Arcs, ids: set<int>, layer: map<int, nat>, d: Dims, pos: Positions)
    requires Arranged(bands, links, ids, layer, d, pos)
    requires d.rowH > 0 && d.gap >= 0
    ensures OwnBands(links, ids, d, pos)
  {
    forall a, a', b, b' |
      && {a, a', b, b'} <= ids
      && Linked(links, a, a') && Linked(links, b, b') && !Linked(links, a, b)
      && pos[a].1 <= pos[b].1
      ensures pos[a'].1 + d.rowH + d.gap <= pos[b'].1
    {
      assert a in ids && a' in ids && b in ids && b' in ids;
      var i :| 0 <= i < |bands| && a in bands[i].members;
      var j :| 0 <= j < |bands| && b in bands[j].members;
      var i' :| 0 <= i' < |bands| && a' in bands[i'].members;
      var j' :| 0 <= j' < |bands| && b' in bands[j'].members;
      assert i' == i && j' == j && i != j;
      InBand(bands, i, layer, d, pos, a);
      InBand(bands, i, layer, d, pos, a');
      InBand(bands, j, layer, d, pos, b);
      InBand(bands, j, layer, d, pos, b');
      if j < i {
        BasesApart(bands, j, i, layer, d, pos);
      } else {
        BasesApart(bands, i, j, layer, d, pos);
      }
    }
  }

  lemma RowAbove(bands: seq<Band>, i: nat, layer: map<int, nat>, d: Dims, pos: Positions, a: int) returns (b: int)
    requires i < |bands| && Stacked(bands, layer, d, pos) && a in bands[i].members
    requires a in bands[i].row && bands[i].row[a] > 0
    ensures b in bands[i].members && a in pos && b in pos && pos[b] == (pos[a].0, pos[a].1 - d.rowH)
  {
    assert BandAt(bands, i, layer, d, pos);
    var c := bands[i];
    assert a in Elems(c.members) && Supported(Elems(c.members), layer, c.row, a);
    b :| b in Elems(c.members) && layer[b] == layer[a] && c.row[b] + 1 == c.row[a];
    InBand(bands, i, layer, d, pos, a);
    InBand(bands, i, layer, d, pos, b);
    RowNext(c.row[b], d.rowH);
  }

  lemma LastRow(bands: seq<Band>, i: nat, layer: map<int, nat>, d: Dims, pos: Positions) returns (b: int)
    requires i < |bands| && Stacked(bands, layer, d, pos) && bands[i].members != []
    ensures b in bands[i].members && b in pos && pos[b].1 + d.rowH + d.gap == NextBase(bands[i], d)
  {
    var u := bands[i];
    InBand(bands, i, layer, d, pos, u.members[0]);
    assert BandAt(bands, i, layer, d, pos);
    b := LastIn(Elems(u.members), layer, u.row, d, u.base, u.rows, pos);
  }

  lemma LastIn(members: set<int>, layer: map<int, nat>, row: map<int, nat>, d: Dims, base: int, rows: nat,
               pos: Positions) returns (b: int)
    requires InGrid(members, layer, row, d, base, rows, pos) && rows > 0
    ensures b in members && b in pos && pos[b].1 + d.rowH == base + rows * d.rowH
  {
    b :| b in members && row[b] + 1 == rows;
    RowNext(row[b], d.rowH);
  }

  lemma ArrangedPacked(bands: seq<Band>, links: Arcs, ids: set<int>, layer: map<int, nat>, d: Dims, pos: Positions)
    requires Arranged(bands, links, ids, layer, d, pos)
    requires forall i :: 0 <= i < |bands| ==> bands[i].members != []
    ensures Packed(links, ids, d, pos)
  {
    forall a | a in ids && pos[a].1 != d.marginY
      ensures exists b :: b in ids && Under(links, d, pos[a], pos[b], a, b)
    {
      var i :| 0 <= i < |bands| && a in bands[i].members;
      InBand(bands, i, layer, d, pos, a);
      if bands[i].row[a] > 0 {
        var b := RowAbove(bands, i, layer, d, pos, a);
        assert Under(links, d, pos[a], pos[b], a, b);
      } else {
        assert BandAt(bands, i, layer, d, pos);
        assert i > 0;
        var b := LastRow(bands, i - 1, layer, d, pos);
        assert Under(links, d, pos[a], pos[b], a, b);
      }
    }
  }

  lemma LowerFollows(bands: seq<Band>, i: nat, layer: map<int, nat>, d: Dims, pos: Positions, a: int, b: int)
    requires i < |bands| && Stacked(bands, layer, d, pos) && d.colW > 0 && d.rowH > 0
    requires a in bands[i].members && b in bands[i].members && a in pos && b in pos
    requires pos[a].0 == pos[b].0 && pos[a].1 < pos[b].1
    ensures a in bands[i].keys && b in bands[i].keys && Sooner(bands[i].keys[a], bands[i].keys[b])
  {
    InBand(bands, i, layer, d, pos, a);
    InBand(bands, i, layer, d, pos, b);
    assert BandAt(bands, i, layer, d, pos);
    assert a in Elems(bands[i].members) && b in Elems(bands[i].members);
    SameColumn(layer[a], layer[b], d.colW);
    var row := bands[i].row;
    if row[b] < row[a] { RowsApart(row[b], row[a], d.rowH); }
  }

  lemma KeyOf(bands: seq<Band>, i: nat, upstream: map<int, seq<int>>, nm: map<int, Node>, rank: int -> int,
              layer: map<int, nat>, pos: Positions, a: int)
    requires i < |bands| && Keyed(bands, upstream, nm, rank, layer, pos) && a in bands[i].members
    ensures a in bands[i].keys && bands[i].keys[a] == Ranked(ColumnKeys(upstream, nm, layer, pos), rank)(a)
  {
    assert KeyedAt(bands, i, upstream, nm, rank, layer, pos) && a in Elems(bands[i].members);
    assert HasKey(bands[i].keys, upstream, nm, rank, layer, pos, a);
  }

  lemma {:induction false} InputEdgesSnoc(edges: seq<Edge>, e: Edge)
    ensures InputEdges(edges + [e]) == if e.dep.Input? then InputEdges(edges) + [e] else InputEdges(edges)
  {
    if edges == [] {
      assert edges + [e] == [e];
    } else {
      assert (edges + [e])[1..] == edges[1..] + [e];
      InputEdgesSnoc(edges[1..], e);
    }
  }

  // The ups met along the first n edges, counted and summed over the edges.
  ghost predicate Counted(edges: seq<Edge>, pos: Positions, a: int, n: nat, ups: seq<int>)
    requires a in pos && n <= |edges|
  {
    && (forall u :: u in ups ==> u in pos)
    && |ups| == |UpEdges(edges, pos, a, n)|
    && SumY(ups, pos) == Sum(UpEdges(edges, pos, a, n), SourceHeight(edges, pos))
  }

  // The n-th edge brings a an up.
  ghost predicate BringsUp(edges: seq<Edge>, pos: Positions, a: int, n: nat)
    requires a in pos && n < |edges|
  {
    && edges[n].dep.Input? && edges[n].target == a
    && edges[n].source in pos && pos[edges[n].source].0 < pos[a].0
  }

  lemma UpEdgesNext(edges: seq<Edge>, pos: Positions, a: int, n: nat)
    requires a in pos && n < |edges|
    ensures n !in UpEdges(edges, pos, a, n)
    ensures UpEdges(edges, pos, a, n + 1)
         == UpEdges(edges, pos, a, n) + if BringsUp(edges, pos, a, n) then {n} else {}
  {
    var now := UpEdges(edges, pos, a, n) + if BringsUp(edges, pos, a, n) then {n} else {};
    forall k ensures k in UpEdges(edges, pos, a, n + 1) <==> k in now {
    }
  }

  lemma CountOne(edges: seq<Edge>, pos: Positions, a: int, n: nat, ups: seq<int>, more: seq<int>)
    requires a in pos && n < |edges| && Counted(edges, pos, a, n, ups)
    requires if BringsUp(edges, pos, a, n) then more == ups + [edges[n].source] else more == ups
    ensures Counted(edges, pos, a, n + 1, more)
  {
    UpEdgesNext(edges, pos, a, n);
    if BringsUp(edges, pos, a, n) {
      CountUp(edges, pos, n, UpEdges(edges, pos, a, n), ups, edges[n].source);
    } else {
      assert UpEdges(edges, pos, a, n + 1) == UpEdges(edges, pos, a, n);
    }
  }

  lemma CountUp(edges: seq<Edge>, pos: Positions, n: nat, before: set<int>, ups: seq<int>, u: int)
    requires n < |edges| && n !in before && u == edges[n].source && u in pos
    requires SumY(ups, pos) == Sum(before, SourceHeight(edges, pos)) && |ups| == |before|
    ensures SumY(ups + [u], pos) == Sum(before + {n}, SourceHeight(edges, pos))
    ensures |ups + [u]| == |before + {n}|
  {
    SumAdd(before, SourceHeight(edges, pos), n);
    assert (ups + [u])[..|ups|] == ups;
  }

  ghost function UpsMet(edges: seq<Edge>, layer: map<int, nat>, ids: set<int>, a: int, n: nat): seq<int>
    requires n <= |edges|
  {
    Earlier(Feeders(InputEdges(edges[..n]), ids, a), layer, a)
  }

  lemma EarlierSnoc(ups: seq<int>, layer: map<int, nat>, a: int, u: int)
    ensures var more := Earlier(ups + [u], layer, a);
      if u in layer && a in layer && layer[u] < layer[a] then more == Earlier(ups, layer, a) + [u]
      else more == Earlier(ups, layer, a)
  {
    assert (ups + [u])[..|ups|] == ups;
  }

  lemma FeedersSnoc(ins: seq<Edge>, ids: set<int>, a: int, e: Edge)
    ensures var more := Feeders(ins + [e], ids, a);
      if e.target == a && e.source in ids && a in ids && e.source != a then more == Feeders(ins, ids, a) + [e.source]
      else more == Feeders(ins, ids, a)
  {
    assert (ins + [e])[..|ins|] == ins;
  }

  // What the n-th edge adds to the ups of a.
  lemma FedByOne(edges: seq<Edge>, layer: map<int, nat>, pos: Positions, a: int, n: nat)
    requires a in pos && n < |edges| && layer.Keys == pos.Keys
    requires forall u :: u in pos ==> (layer[u] < layer[a] <==> pos[u].0 < pos[a].0)
    ensures var ups, more := UpsMet(edges, layer, pos.Keys, a, n), UpsMet(edges, layer, pos.Keys, a, n + 1);
      if BringsUp(edges, pos, a, n) then more == ups + [edges[n].source] else more == ups
  {
    var e, ins := edges[n], InputEdges(edges[..n]);
    assert edges[..n + 1] == edges[..n] + [e];
    InputEdgesSnoc(edges[..n], e);
    if e.dep.Input? {
      FeedersSnoc(ins, pos.Keys, a, e);
      EarlierSnoc(Feeders(ins, pos.Keys, a), layer, a, e.source);
    }
  }

  lemma NoneMet(edges: seq<Edge>, layer: map<int, nat>, pos: Positions, a: int)
    requires a in pos
    ensures Counted(edges, pos, a, 0, UpsMet(edges, layer, pos.Keys, a, 0))
  {
    assert InputEdges(edges[..0]) == [];
    assert UpEdges(edges, pos, a, 0) == {};
  }

  lemma MetStep(edges: seq<Edge>, layer: map<int, nat>, pos: Positions, a: int, n: nat)
    requires a in pos && n < |edges| && layer.Keys == pos.Keys
    requires forall u :: u in pos ==> (layer[u] < layer[a] <==> pos[u].0 < pos[a].0)
    requires Counted(edges, pos, a, n, UpsMet(edges, layer, pos.Keys, a, n))
    ensures Counted(edges, pos, a, n + 1, UpsMet(edges, layer, pos.Keys, a, n + 1))
  {
    FedByOne(edges, layer, pos, a, n);
    CountOne(edges, pos, a, n, UpsMet(edges, layer, pos.Keys, a, n), UpsMet(edges, layer, pos.Keys, a, n + 1));
  }

  lemma UpsAlongEdges(edges: seq<Edge>, layer: map<int, nat>, pos: Positions, a: int)
    requires a in pos && layer.Keys == pos.Keys
    requires forall u :: u in pos ==> (layer[u] < layer[a] <==> pos[u].0 < pos[a].0)
    ensures Counted(edges, pos, a, |edges|, UpsMet(edges, layer, pos.Keys, a, |edges|))
  {
    NoneMet(edges, layer, pos, a);
    for n := 0 to |edges|
      invariant Counted(edges, pos, a, n, UpsMet(edges, layer, pos.Keys, a, n))
    {
      MetStep(edges, layer, pos, a, n);
    }
  }

  lemma {:induction false} AllPlaced(ups: seq<int>, pos: Positions)
    requires forall u :: u in ups ==> u in pos
    ensures PlacedUps(ups, pos) == ups
  {
    if ups != [] {
      assert ups == ups[..|ups| - 1] + [ups[|ups| - 1]];
      AllPlaced(ups[..|ups| - 1], pos);
    }
  }

  // What a column was sorted by.
  lemma KeyIsWanted(edges: seq<Edge>, upstream: map<int, seq<int>>, nm: map<int, Node>, layer: map<int, nat>,
                    pos: Positions, a: int)
    requires a in pos && layer.Keys == pos.Keys == nm.Keys
    requires UpsOf(upstream, a) == Feeders(InputEdges(edges), pos.Keys, a)
    requires forall u :: u in pos ==> (layer[u] < layer[a] <==> pos[u].0 < pos[a].0)
    ensures ColumnKeys(upstream, nm, layer, pos)(a)
         == (WantedHeight(edges, nm, pos, a), TieHeight(edges, nm, pos, a))
  {
    var ups := Earlier(UpsOf(upstream, a), layer, a);
    assert Counted(edges, pos, a, |edges|, ups) by {
      UpsAlongEdges(edges, layer, pos, a);
      assert edges[..|edges|] == edges;
    }
    AllPlaced(ups, pos);
    HasMember(UpEdges(edges, pos, a, |edges|));
  }

  lemma ColumnsDiffer(m: nat, n: nat, w: int)
    requires w > 0
    ensures m < n <==> m * w < n * w
  {
    if m < n { RowsApart(m, n, w); } else if n < m { RowsApart(n, m, w); }
  }

  lemma ArrangedSorted(bands: seq<Band>, edges: seq<Edge>, layer: map<int, nat>, d: Dims, upstream: map<int, seq<int>>,
                       nm: map<int, Node>, rank: int -> int, pos: Positions)
    requires Arranged(bands, KnownArcs(edges, nm.Keys), nm.Keys, layer, d, pos)
    requires Keyed(bands, upstream, nm, rank, layer, pos)
    requires layer.Keys == nm.Keys
    requires forall t :: UpsOf(upstream, t) == Feeders(InputEdges(edges), nm.Keys, t)
    requires d.colW > 0 && d.rowH > 0
    ensures SortedByUps(edges, nm, rank, pos)
  {
    var links := KnownArcs(edges, nm.Keys);
    forall a, b |
      && a in pos && b in pos && Linked(links, a, b)
      && pos[a].0 == pos[b].0 && pos[a].1 < pos[b].1
      ensures GoesAbove(edges, nm, rank, pos, a, b)
    {
      var i :| 0 <= i < |bands| && a in bands[i].members;
      var j :| 0 <= j < |bands| && b in bands[j].members;
      assert i == j;
      LowerFollows(bands, i, layer, d, pos, a, b);
      PlaceOf(bands, edges, i, layer, d, upstream, nm, rank, pos, a);
      PlaceOf(bands, edges, i, layer, d, upstream, nm, rank, pos, b);
    }
  }

  // A node's column tells its layer.
  lemma ColumnsTell(bands: seq<Band>, links: Arcs, ids: set<int>, layer: map<int, nat>, d: Dims, pos: Positions,
                    u: int, a: int)
    requires Arranged(bands, links, ids, layer, d, pos) && d.colW > 0
    requires u in pos && a in pos && u in layer && a in layer
    ensures layer[u] < layer[a] <==> pos[u].0 < pos[a].0
  {
    var i :| 0 <= i < |bands| && a in bands[i].members;
    var j :| 0 <= j < |bands| && u in bands[j].members;
    InBand(bands, i, layer, d, pos, a);
    InBand(bands, j, layer, d, pos, u);
    ColumnsDiffer(layer[u], layer[a], d.colW);
  }

  lemma PlaceOf(bands: seq<Band>, edges: seq<Edge>, i: nat, layer: map<int, nat>, d: Dims,
                upstream: map<int, seq<int>>, nm: map<int, Node>, rank: int -> int, pos: Positions, a: int)
    requires Arranged(bands, KnownArcs(edges, nm.Keys), nm.Keys, layer, d, pos)
    requires Keyed(bands, upstream, nm, rank, layer, pos)
    requires layer.Keys == nm.Keys
    requires forall t :: UpsOf(upstream, t) == Feeders(InputEdges(edges), nm.Keys, t)
    requires d.colW > 0 && i < |bands| && a in bands[i].members
    ensures a in pos && a in bands[i].keys
    ensures bands[i].keys[a] == (WantedHeight(edges, nm, pos, a), TieHeight(edges, nm, pos, a), rank(a))
  {
    KeyOf(bands, i, upstream, nm, rank, layer, pos, a);
    InBand(bands, i, layer, d, pos, a);
    ArrangedWanted(bands, edges, layer, d, upstream, nm, pos, a);
  }

  lemma ArrangedWanted(bands: seq<Band>, edges: seq<Edge>, layer: map<int, nat>, d: Dims,
                       upstream: map<int, seq<int>>, nm: map<int, Node>, pos: Positions, a: int)
    requires Arranged(bands, KnownArcs(edges, nm.Keys), nm.Keys, layer, d, pos)
    requires layer.Keys == nm.Keys && d.colW > 0 && a in pos
    requires forall t :: UpsOf(upstream, t) == Feeders(InputEdges(edges), nm.Keys, t)
    ensures ColumnKeys(upstream, nm, layer, pos)(a)
         == (WantedHeight(edges, nm, pos, a), TieHeight(edges, nm, pos, a))
  {
    forall u | u in pos ensures layer[u] < layer[a] <==> pos[u].0 < pos[a].0 {
      ColumnsTell(bands, KnownArcs(edges, nm.Keys), nm.Keys, layer, d, pos, u, a);
    }
    KeyIsWanted(edges, upstream, nm, layer, pos, a);
  }

  // The bands go by least height, then least distance across, then first member in the list of nodes.
  ghost predicate InReadingOrder(bands: seq<Band>, nm: map<int, Node>, rank: int -> int) {
    && (forall i :: 0 <= i < |bands| ==> bands[i].members != [] && Increasing(bands[i].members, rank))
    && (forall i, j :: 0 <= i < j < |bands| ==>
          Sooner(LeastOf(bands[i].members, nm, rank), LeastOf(bands[j].members, nm, rank)))
  }

  ghost function LeastOf(members: seq<int>, nm: map<int, Node>, rank: int -> int): Place
    requires members != []
  {
    (MinBy(members, Height(nm)), MinBy(members, Across(nm)), rank(members[0]))
  }

  lemma LeadsIfLess(bands: seq<Band>, links: Arcs, v: map<int, real>, w: int -> real, i: nat, j: nat, a: int, b: int)
    requires BandsAreComponents(bands, links, v.Keys) && i < |bands| && j < |bands|
    requires a in bands[i].members && b in bands[j].members
    requires forall x :: x in v ==> v[x] == w(x)
    requires MinBy(bands[i].members, w) <= MinBy(bands[j].members, w)
    ensures Leads(links, v, a, b)
  {
    var first := Least(bands[i].members, w);
    assert first in v.Keys && Linked(links, a, first);
    forall b' | b' in v && Linked(links, b, b') ensures v[first] <= v[b'] {
      var j' :| 0 <= j' < |bands| && b' in bands[j'].members;
      assert j' == j;
    }
    assert IsFirst(links, v, first, b);
  }

  lemma LessIfLeads(bands: seq<Band>, links: Arcs, v: map<int, real>, w: int -> real, i: nat, j: nat, a: int, b: int)
    requires BandsAreComponents(bands, links, v.Keys) && i < |bands| && j < |bands|
    requires a in bands[i].members && b in bands[j].members
    requires forall x :: x in v ==> v[x] == w(x)
    requires Leads(links, v, a, b)
    ensures MinBy(bands[i].members, w) <= MinBy(bands[j].members, w)
  {
    var low := Least(bands[j].members, w);
    assert low in v.Keys && Linked(links, b, low);
    var first :| first in v && Linked(links, a, first) && IsFirst(links, v, first, b);
    var i' :| 0 <= i' < |bands| && first in bands[i'].members;
    assert i' == i;
    assert MinBy(bands[i].members, w) <= w(first) <= w(low);
  }

  ghost function Entries(rank: int -> int): int -> real {
    i => rank(i) as real
  }

  lemma Least(s: seq<int>, v: int -> real) returns (x: int)
    requires s != []
    ensures x in s && v(x) == MinBy(s, v)
  {
    var r := MinBy(s, v);
    x :| x in s && v(x) == r;
  }

  lemma HeadIsLeast(s: seq<int>, rank: int -> int)
    requires s != [] && Increasing(s, rank)
    ensures MinBy(s, Entries(rank)) == rank(s[0]) as real
  {
    var x := Least(s, Entries(rank));
    var i :| 0 <= i < |s| && s[i] == x;
    assert s[0] in s;
  }

  lemma HeadsAreLeast(s: seq<int>, t: seq<int>, rank: int -> int)
    requires s != [] && t != [] && Increasing(s, rank) && Increasing(t, rank) && rank(s[0]) <= rank(t[0])
    ensures MinBy(s, Entries(rank)) <= MinBy(t, Entries(rank))
  {
    HeadIsLeast(s, rank);
    HeadIsLeast(t, rank);
  }

  lemma TiesReadFirst(bands: seq<Band>, links: Arcs, nm: map<int, Node>, rank: int -> int, i: nat, j: nat,
                      a: int, b: int)
    requires BandsAreComponents(bands, links, nm.Keys)
    requires i < j < |bands| && a in bands[i].members && b in bands[j].members
    requires Increasing(bands[i].members, rank) && Increasing(bands[j].members, rank)
    requires Sooner(LeastOf(bands[i].members, nm, rank), LeastOf(bands[j].members, nm, rank))
    requires MinBy(bands[i].members, Height(nm)) == MinBy(bands[j].members, Height(nm))
    ensures Leads(links, Xs(nm), a, b)
    ensures Leads(links, Xs(nm), b, a) ==> Leads(links, Ranks(nm.Keys, rank), a, b)
  {
    var s, t := bands[i].members, bands[j].members;
    LeadsIfLess(bands, links, Xs(nm), Across(nm), i, j, a, b);
    if Leads(links, Xs(nm), b, a) {
      LessIfLeads(bands, links, Xs(nm), Across(nm), j, i, b, a);
      HeadsAreLeast(s, t, rank);
      LeadsIfLess(bands, links, Ranks(nm.Keys, rank), Entries(rank), i, j, a, b);
    }
  }

  lemma BandsReadFirst(bands: seq<Band>, links: Arcs, nm: map<int, Node>, rank: int -> int, i: nat, j: nat,
                       a: int, b: int)
    requires BandsAreComponents(bands, links, nm.Keys) && InReadingOrder(bands, nm, rank)
    requires i < j < |bands| && a in bands[i].members && b in bands[j].members
    ensures ReadsFirst(links, nm, rank, a, b)
  {
    assert Sooner(LeastOf(bands[i].members, nm, rank), LeastOf(bands[j].members, nm, rank));
    LeadsIfLess(bands, links, Ys(nm), Height(nm), i, j, a, b);
    if Leads(links, Ys(nm), b, a) {
      LessIfLeads(bands, links, Ys(nm), Height(nm), j, i, b, a);
      TiesReadFirst(bands, links, nm, rank, i, j, a, b);
    }
  }

  lemma ArrangedReading(bands: seq<Band>, links: Arcs, layer: map<int, nat>, d: Dims,
                        nm: map<int, Node>, rank: int -> int, pos: Positions)
    requires Arranged(bands, links, nm.Keys, layer, d, pos)
    requires d.rowH > 0 && d.gap >= 0
    requires InReadingOrder(bands, nm, rank)
    ensures ReadingOrder(links, nm, rank, pos)
  {
    forall a, b | a in nm && b in nm && !Linked(links, a, b) && pos[a].1 < pos[b].1
      ensures ReadsFirst(links, nm, rank, a, b)
    {
      var i :| 0 <= i < |bands| && a in bands[i].members;
      var j :| 0 <= j < |bands| && b in bands[j].members;
      InBand(bands, i, layer, d, pos, a);
      InBand(bands, j, layer, d, pos, b);
      if j < i { BasesApart(bands, j, i, layer, d, pos); }
      BandsReadFirst(bands, links, nm, rank, i, j, a, b);
    }
  }

  // The bands hold the groups of equal representatives, so they are the components.
  lemma GroupsAreComponents(links: Arcs, ids: seq<int>, root: map<int, int>, sorted: seq<int>,
                            comps: map<int, seq<int>>, bands: seq<Band>)
    requires Grouped(ids, root, sorted, comps) && root.Keys == Elems(ids)
    requires LabelsComponents(links, root)
    requires |bands| == |sorted|
    requires forall i :: 0 <= i < |bands| ==> sorted[i] in comps && bands[i].members == comps[sorted[i]]
    ensures BandsAreComponents(bands, links, Elems(ids))
    ensures forall i :: 0 <= i < |bands| ==> bands[i].members != []
  {
    forall i | 0 <= i < |bands|
      ensures bands[i].members != []
      ensures forall a :: a in bands[i].members <==> a in ids && root[a] == sorted[i]
    {
      assert sorted[i] in comps;
      SelectMembers(ids, root, sorted[i]);
    }
    forall a | a in Elems(ids) ensures exists i :: 0 <= i < |bands| && a in bands[i].members {
      var r := root[a];
      assert r in comps.Keys;
      assert r in sorted;
      var i :| 0 <= i < |sorted| && sorted[i] == r;
      assert a in bands[i].members;
    }
  }

  // The ups of a component's members are in it.
  lemma UpsInComponent(ins: Arcs, links: Arcs, ids: seq<int>, root: map<int, int>, r: int,
                       upstream: map<int, seq<int>>)
    requires ins <= links && LabelsComponents(links, root) && root.Keys == Elems(ids)
    requires forall t, u :: u in UpsOf(upstream, t) <==> u != t && (u, t) in ins
    requires forall u, t :: (u, t) in ins ==> u in ids && t in ids
    ensures UpsWithin(Select(ids, root, r), upstream)
  {
    SelectMembers(ids, root, r);
    forall t, u | t in Select(ids, root, r) && u in UpsOf(upstream, t) ensures u in Select(ids, root, r) {
      assert (u, t) in ins;
      LinkedByArc(links, root, u, t);
    }
  }

  lemma LinkedByArc(links: Arcs, root: map<int, int>, u: int, t: int)
    requires (u, t) in links && LabelsComponents(links, root) && u in root && t in root
    ensures root[u] == root[t]
  {
    assert (u, t) in Undirected(links);
    ReachArc(Undirected(links), u, t);
  }

  // Layers along the topological order.
  method LayerNodes(edges: seq<Edge>, ids: seq<int>)
    returns (upstream: map<int, seq<int>>, layer: map<int, nat>)
    ensures forall t :: UpsOf(upstream, t) == Feeders(InputEdges(edges), Elems(ids), t)
    ensures forall t, u :: u in UpsOf(upstream, t) <==> u != t && (u, t) in Induced(InputArcs(edges), Elems(ids))
    ensures layer.Keys == Elems(ids) && LongestPath(Induced(InputArcs(edges), Elems(ids)), layer)
  {
    upstream := CollectUpstream(InputEdges(edges), set x | x in ids);
    ghost var ins := Induced(InputArcs(edges), Elems(ids));
    forall t, u ensures u in UpsOf(upstream, t) <==> u != t && (u, t) in ins {
      FeedersAreSources(InputEdges(edges), Elems(ids), t);
      assert ArcsOf(InputEdges(edges)) == InputArcs(edges);
    }
    var order := TopoSortExecutable(edges, ids);
    layer := AssignLayers(order, upstream, ins);
    assert forall x :: x in Elems(order) <==> x in Elems(ids);
  }

  // Connected components over edges of every type, in reading order.
  method FindComponents(edges: seq<Edge>, ids: seq<int>, nm: map<int, Node>, ghost rank: int -> int)
    returns (ghost root: map<int, int>, sorted: seq<int>, comps: map<int, seq<int>>)
    requires Lists(ids, nm.Keys) && Increasing(ids, rank)
    ensures root.Keys == nm.Keys && LabelsComponents(KnownArcs(edges, nm.Keys), root)
    ensures Grouped(ids, root, sorted, comps)
    ensures Ordered(sorted, Ranked(CompKeys(comps, nm), HeadRank(comps, rank)))
  {
    var forest := BuildForest(edges, nm.Keys);
    var roots;
    roots, comps := GroupComponents(ids, forest, rank);
    root := forest.root;
    sorted := SortComponents(roots, comps, nm, rank);
  }

  lemma GroupsReady(ins: Arcs, links: Arcs, ids: seq<int>, root: map<int, int>, sorted: seq<int>,
                    comps: map<int, seq<int>>, layer: map<int, nat>, upstream: map<int, seq<int>>, rank: int -> int)
    requires Grouped(ids, root, sorted, comps) && Distinct(ids) && Increasing(ids, rank)
    requires ins <= links && LabelsComponents(links, root) && LongestPath(ins, layer)
    requires root.Keys == layer.Keys == Elems(ids)
    requires forall t, u :: u in UpsOf(upstream, t) <==> u != t && (u, t) in ins
    requires forall u, t :: (u, t) in ins ==> u in ids && t in ids
    ensures var groups := InOrder(sorted, comps);
      && Disjoint(groups) && PlacedIn(groups, |groups|) == Elems(ids)
      && (forall g, x :: g in groups && x in g ==> x in layer)
      && (forall g :: g in groups ==> UpsWithin(g, upstream) && Increasing(g, rank))
  {
    var groups := InOrder(sorted, comps);
    GroupsPartition(ids, root, sorted, comps);
    forall g | g in groups
      ensures UpsWithin(g, upstream) && Increasing(g, rank) && forall x :: x in g ==> x in layer
    {
      var k :| 0 <= k < |groups| && groups[k] == g;
      SelectIncreasing(ids, root, sorted[k], rank);
      UpsInComponent(ins, links, ids, root, sorted[k], upstream);
      SelectMembers(ids, root, sorted[k]);
    }
  }

  // The drawing: one column per path length, one band per component, nothing overlapping, nothing wasted.
  ghost predicate Drawing(nodes: seq<Node>, edges: seq<Edge>, d: Dims, layer: map<int, nat>, pos: Positions) {
    var nm := NodeMap(nodes);
    var ins, links, ids := Induced(InputArcs(edges), nm.Keys), KnownArcs(edges, nm.Keys), nm.Keys;
    && pos.Keys == ids
    && ColumnsByPath(ins, ids, layer, d, pos)
    && Packed(links, ids, d, pos)
    && (d.colW > 0 && d.rowH > 0 && d.gap >= 0 ==>
          && NoOverlap(ids, d, pos) && OwnBands(links, ids, d, pos)
          && ReadingOrder(links, nm, FirstEntry(nodes), pos) && SortedByUps(edges, nm, FirstEntry(nodes), pos))
  }

  // compute_dependency_layout
  method ComputeDependencyLayout(nodes: seq<Node>, edges: seq<Edge>, d: Dims := DEFAULTS)
    returns (pos: Positions, ghost layer: map<int, nat>)
    ensures Drawing(nodes, edges, d, layer, pos)
  {
    var nm := NodeMap(nodes);
    var ids := IdOrder(nodes);
    IdOrderLists(nodes);
    IdOrderIncreases(nodes);
    ghost var rank := FirstEntry(nodes);
    assert Elems(ids) == nm.Keys by {
      assert forall x :: x in Elems(ids) <==> x in nm.Keys;
    }
    var ups, layers := LayerNodes(edges, ids);
    layer := layers;
    ghost var root;
    var sorted, comps;
    root, sorted, comps := FindComponents(edges, ids, nm, rank);
    ghost var ins, links := Induced(InputArcs(edges), nm.Keys), KnownArcs(edges, nm.Keys);
    GroupsReady(ins, links, ids, root, sorted, comps, layer, ups, rank);
    ghost var bands;
    pos, bands := StackComponents(InOrder(sorted, comps), layers, ups, nm, rank, d);
    GroupsAreComponents(links, ids, root, sorted, comps, bands);
    CompsInReadingOrder(sorted, comps, nm, bands, rank);
    Drawn(bands, edges, ins, layer, d, ups, nm, rank, pos);
  }

  lemma CompsInReadingOrder(sorted: seq<int>, comps: map<int, seq<int>>, nm: map<int, Node>, bands: seq<Band>,
                            rank: int -> int)
    requires Ordered(sorted, Ranked(CompKeys(comps, nm), HeadRank(comps, rank))) && |bands| == |sorted|
    requires forall i :: 0 <= i < |bands| ==> sorted[i] in comps && bands[i].members == comps[sorted[i]]
    requires forall i :: 0 <= i < |bands| ==> bands[i].members != [] && Increasing(bands[i].members, rank)
    ensures InReadingOrder(bands, nm, rank)
  {
    var place := Ranked(CompKeys(comps, nm), HeadRank(comps, rank));
    forall i, j | 0 <= i < j < |bands|
      ensures Sooner(LeastOf(bands[i].members, nm, rank), LeastOf(bands[j].members, nm, rank))
    {
      assert Sooner(place(sorted[i]), place(sorted[j]));
    }
  }

  lemma Drawn(bands: seq<Band>, edges: seq<Edge>, ins: Arcs, layer: map<int, nat>, d: Dims,
              upstream: map<int, seq<int>>, nm: map<int, Node>, rank: int -> int, pos: Positions)
    requires Arranged(bands, KnownArcs(edges, nm.Keys), nm.Keys, layer, d, pos)
    requires Keyed(bands, upstream, nm, rank, layer, pos)
    requires layer.Keys == nm.Keys && LongestPath(ins, layer)
    requires forall t :: UpsOf(upstream, t) == Feeders(InputEdges(edges), nm.Keys, t)
    requires InReadingOrder(bands, nm, rank)
    ensures ColumnsByPath(ins, nm.Keys, layer, d, pos) && Packed(KnownArcs(edges, nm.Keys), nm.Keys, d, pos)
    ensures d.colW > 0 && d.rowH > 0 && d.gap >= 0 ==>
      && NoOverlap(nm.Keys, d, pos)
      && OwnBands(KnownArcs(edges, nm.Keys), nm.Keys, d, pos)
      && ReadingOrder(KnownArcs(edges, nm.Keys), nm, rank, pos)
      && SortedByUps(edges, nm, rank, pos)
  {
    var links, ids := KnownArcs(edges, nm.Keys), nm.Keys;
    forall a | a in ids ensures pos[a].0 == d.marginX + layer[a] * d.colW {
      var i :| 0 <= i < |bands| && a in bands[i].members;
      InBand(bands, i, layer, d, pos, a);
    }
    ArrangedPacked(bands, links, ids, layer, d, pos);
    if d.colW > 0 && d.rowH > 0 && d.gap >= 0 {
      ArrangedNoOverlap(bands, links, ids, layer, d, pos);
      ArrangedOwnBands(bands, links, ids, layer, d, pos);
      ArrangedReading(bands, links, layer, d, nm, rank, pos);
      ArrangedSorted(bands, edges, layer, d, upstream, nm, rank, pos);
    }
  }

  // With no cycle behind a, its ups are all the input edges into it from known nodes.
  lemma GroundedUps(nodes: seq<Node>, edges: seq<Edge>, d: Dims, layer: map<int, nat>, pos: Positions, a: int, k: nat)
    requires Drawing(nodes, edges, d, layer, pos) && d.colW > 0
    requires a in pos && Grounded(Induced(InputArcs(edges), pos.Keys), a)
    requires k < |edges| && edges[k].dep.Input? && edges[k].target == a && edges[k].source in pos
    ensures pos[edges[k].source].0 < pos[a].0 && k in UpEdges(edges, pos, a, |edges|)
  {
    var u := edges[k].source;
    assert (u, a) in Induced(InputArcs(edges), pos.Keys);
    ColumnsDiffer(layer[u], layer[a], d.colW);
  }

  // All of a's ups are u, in an earlier column.
  ghost predicate SoleSource(edges: seq<Edge>, pos: Positions, a: int, u: int)
    requires a in pos && u in pos
  {
    && Edge(u, a, Input) in edges && pos[u].0 < pos[a].0
    && forall e :: e in edges && e.dep.Input? && e.target == a && e.source in pos && e.source != a ==> e.source == u
  }

  // Two nodes of a column with one source each stand in the order of their sources: the edges do not cross.
  lemma OneSourceEach(nodes: seq<Node>, edges: seq<Edge>, d: Dims, layer: map<int, nat>, pos: Positions, a: int, b: int,
                      u: int, v: int)
    requires Drawing(nodes, edges, d, layer, pos) && d.colW > 0 && d.rowH > 0 && d.gap >= 0
    requires a in pos && b in pos && u in pos && v in pos && a != b && Linked(KnownArcs(edges, pos.Keys), a, b)
    requires pos[a].0 == pos[b].0 && SoleSource(edges, pos, a, u) && SoleSource(edges, pos, b, v)
    requires pos[u].1 < pos[v].1
    ensures pos[a].1 < pos[b].1
  {
    LinkedSymmetric(KnownArcs(edges, pos.Keys), a, b);
    SourcesInOrder(edges, NodeMap(nodes), FirstEntry(nodes), pos, a, b, u, v);
  }

  lemma SourcesInOrder(edges: seq<Edge>, nm: map<int, Node>, entry: int -> int, pos: Positions, a: int, b: int,
                       u: int, v: int)
    requires pos.Keys == nm.Keys && SortedByUps(edges, nm, entry, pos)
    requires a in pos && b in pos && u in pos && v in pos && Linked(KnownArcs(edges, pos.Keys), b, a)
    requires pos[a].0 == pos[b].0 && SoleSource(edges, pos, a, u) && SoleSource(edges, pos, b, v)
    requires pos[u].1 < pos[v].1
    ensures pos[a].1 <= pos[b].1
  {
    SoleUp(edges, nm, pos, a, u);
    SoleUp(edges, nm, pos, b, v);
    assert !GoesAbove(edges, nm, entry, pos, b, a);
  }

  // The mean over edges from one source is the height of the source.
  lemma SoleUp(edges: seq<Edge>, nm: map<int, Node>, pos: Positions, a: int, u: int)
    requires a in pos && u in pos && a in nm && SoleSource(edges, pos, a, u)
    ensures WantedHeight(edges, nm, pos, a) == pos[u].1 as real
  {
    var ups := UpEdges(edges, pos, a, |edges|);
    var k :| 0 <= k < |edges| && edges[k] == Edge(u, a, Input);
    assert k in ups;
    forall i | i in ups ensures SourceHeight(edges, pos)(i) == pos[u].1 {
      assert edges[i] in edges;
    }
    SumOfEqual(ups, SourceHeight(edges, pos), pos[u].1);
    MeanOfEqual(|ups|, pos[u].1);
  }

  lemma {:induction false} SumOfEqual(s: set<int>, f: int -> int, y: int)
    requires forall i :: i in s ==> f(i) == y
    ensures Sum(s, f) == |s| * y
    decreases s
  {
    HasMember(s);
    if s != {} {
      var x :| x in s && Sum(s, f) == f(x) + Sum(s - {x}, f);
      SumOfEqual(s - {x}, f, y);
      RowNext(|s - {x}|, y);
    }
  }

  lemma MeanOfEqual(n: nat, y: int)
    requires n > 0
    ensures (n * y) as real / n as real == y as real
  {
    assert (n * y) as real == n as real * y as real;
  }
}
