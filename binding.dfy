/** Weight binding of a model chunk.

    The vertices of the chunk's weight vertex table are not mesh vertices:
    each holds a weight set, four bone groups and four weight values. Their
    weight sets are appended to the import's list of weight sets, which an
    override may shorten at the front. Then every vertex that carries a
    weight-set index takes, slot by slot, the (group, value) pairs of that
    weight set whose value is positive. An index past the end of the list,
    or a weight set with fewer values than groups, raises an IndexError that
    the importer catches: it only marks the weight table as bad, and the
    vertex keeps the weights bound before the error. */
module Binding {
  import opened Results
  import opened Lists
  import opened Chunk
  import opened Vertices

  // ------------------------------------------------------ gathering the sets

  /** The weight sets of a decoded vertex table, in vertex order. */
  function WeightSetsOf(ds: seq<Decoded>): (r: seq<WeightSet>)
    ensures |r| == |ds| && forall i :: 0 <= i < |ds| ==> r[i] == ds[i].weightSet
  {
    seq(|ds|, i requires 0 <= i < |ds| => ds[i].weightSet)
  }

  /** The importer's loop appending the weight vertex table's sets. */
  method AppendWeightSets(sets: seq<WeightSet>, ds: seq<Decoded>) returns (r: seq<WeightSet>)
    ensures r == sets + WeightSetsOf(ds)
  {
    r := sets;
    var v := 0;
    while v < |ds|
      invariant v <= |ds|
      invariant r == sets + WeightSetsOf(ds[..v])
    {
      assert WeightSetsOf(ds[..v + 1]) == WeightSetsOf(ds[..v]) + [ds[v].weightSet];
      r := r + [ds[v].weightSet];
      v := v + 1;
    }
    assert ds[..v] == ds;
  }

  /** The unused vertex tables and the weight sets after a chunk's weight
      table is taken into account. */
  datatype Gathered = Gathered(unused: seq<nat>, sets: seq<WeightSet>)

  /** A chunk without weight data changes nothing. Otherwise its weight
      vertex table is first removed from the unused tables (a ValueError if
      it is not there) and then its weight sets are appended. */
  function Gather(decoded: seq<seq<Decoded>>, weights: Option<WeightData>, unused: seq<nat>, sets: seq<WeightSet>)
    : Result<Gathered>
  {
    match weights
    case None => Success(Gathered(unused, sets))
    case Some(w) =>
      match Remove<nat>(unused, w.vertexTable)
      case Failure(e) => Failure(e)
      case Success(u) =>
        if w.vertexTable < |decoded| then Success(Gathered(u, sets + WeightSetsOf(decoded[w.vertexTable])))
        else Failure(MissingKey)
  }

  method GatherWeights(decoded: seq<seq<Decoded>>, weights: Option<WeightData>, unused: seq<nat>, sets: seq<WeightSet>)
    returns (r: Result<Gathered>)
    ensures r == Gather(decoded, weights, unused, sets)
  {
    if weights.None? {
      return Success(Gathered(unused, sets));
    }
    var t := weights.value.vertexTable;
    var u := Remove<nat>(unused, t);
    if u.Failure? {
      return Failure(u.error);
    }
    if t >= |decoded| {
      return Failure(MissingKey);
    }
    var appended := AppendWeightSets(sets, decoded[t]);
    return Success(Gathered(u.value, appended));
  }

  /** With the unused tables still every table of the chunk, gathering fails
      exactly when the weight vertex table does not exist; otherwise it
      leaves every other table unused and appends one weight set per vertex
      of the weight table. */
  lemma GatherSpec(decoded: seq<seq<Decoded>>, w: WeightData, sets: seq<WeightSet>)
    ensures var r := Gather(decoded, Some(w), Range(|decoded|), sets);
      && (r.Success? <==> w.vertexTable < |decoded|)
      && (r.Failure? ==> r.error == NotInList)
      && (r.Success? ==>
            && (forall k: nat :: k in r.value.unused <==> k < |decoded| && k != w.vertexTable)
            && Distinct(r.value.unused)
            && |r.value.sets| == |sets| + |decoded[w.vertexTable]|
            && r.value.sets[..|sets|] == sets)
  {
    RangeDistinct(|decoded|);
    RemoveSpec(Range(|decoded|), w.vertexTable);
    var r := Gather(decoded, Some(w), Range(|decoded|), sets);
    if r.Success? {
      assert r.value.sets[..|sets|] == sets;
    }
  }

  // ---------------------------------------------------------------- override

  /** The weight table override: a chosen table after the first shortens the
      weight-set list by that table's data offset; 0, a negative choice or
      one past the last table leaves the list alone. */
  function Override(sets: seq<WeightSet>, forced: int, tables: seq<WeightTable>): seq<WeightSet>
  {
    if forced > 0 && forced < |tables| then DropFront(sets, tables[forced].dataOffset) else sets
  }

  /** The override only ever drops leading weight sets, and with an override
      in range, weight index i afterwards names what was weight set
      `offset + i` before. */
  lemma OverrideSpec(sets: seq<WeightSet>, forced: int, tables: seq<WeightTable>)
    ensures var r := Override(sets, forced, tables);
      && |r| <= |sets| && r == sets[|sets| - |r|..]
      && (forced <= 0 || forced >= |tables| ==> r == sets)
      && (0 < forced < |tables| ==>
            forall i :: 0 <= i < |r| ==> r[i] == sets[tables[forced].dataOffset + i])
  {
  }

  // ------------------------------------------------------------------ binding

  /** The weights slots 0 to k - 1 of a weight set bind: every slot whose
      value is positive, in slot order. */
  function Slots(groups: seq<nat>, values: seq<nat>, k: nat): seq<Weight>
    requires k <= |groups| && k <= |values|
  {
    if k == 0 then []
    else Slots(groups, values, k - 1) + (if values[k - 1] > 0 then [Weight(groups[k - 1], values[k - 1])] else [])
  }

  /** A vertex after binding, and whether binding it raised an IndexError. */
  datatype Bound = Bound(vertex: Vertex, bad: bool)

  /** Binding one vertex: one without a weight-set index is left alone; the
      lookup of its weight set may fail; otherwise the slots are bound up to
      the first slot without a value. */
  function Bind(v: Vertex, sets: seq<WeightSet>): Bound
  {
    if v.weightSetIndex == -1 then Bound(v, false)
    else match Lookup(sets, v.weightSetIndex)
      case Failure(_) => Bound(v, true)
      case Success(s) =>
        if |s.groups| <= |s.values| then Bound(v.(weights := v.weights + Slots(s.groups, s.values, |s.groups|)), false)
        else Bound(v.(weights := v.weights + Slots(s.groups, s.values, |s.values|)), true)
  }

  /** The importer's loop over the slots of one vertex's weight set. */
  method BindVertex(v: Vertex, sets: seq<WeightSet>) returns (r: Bound)
    ensures r == Bind(v, sets)
  {
    if v.weightSetIndex == -1 {
      return Bound(v, false);
    }
    var s := Lookup(sets, v.weightSetIndex);
    if s.Failure? {
      return Bound(v, true);
    }
    var groups := s.value.groups;
    var values := s.value.values;
    var weights := v.weights;
    var j := 0;
    while j < |groups|
      invariant j <= |groups| && j <= |values|
      invariant weights == v.weights + Slots(groups, values, j)
    {
      if j >= |values| {
        return Bound(v.(weights := weights), true);
      }
      if values[j] > 0 {
        weights := weights + [Weight(groups[j], values[j])];
      }
      j := j + 1;
    }
    return Bound(v.(weights := weights), false);
  }

  /** The vertices of one table after binding, and whether any raised. */
  datatype BoundList = BoundList(vertices: seq<Vertex>, bad: bool)

  function BindList(vs: seq<Vertex>, sets: seq<WeightSet>): BoundList
  {
    if vs == [] then BoundList([], false)
    else
      var init := BindList(vs[..|vs| - 1], sets);
      var last := Bind(vs[|vs| - 1], sets);
      BoundList(init.vertices + [last.vertex], init.bad || last.bad)
  }

  method BindTable(vs: seq<Vertex>, sets: seq<WeightSet>) returns (r: BoundList)
    ensures r == BindList(vs, sets)
  {
    r := BoundList([], false);
    var i := 0;
    while i < |vs|
      invariant i <= |vs| && r == BindList(vs[..i], sets)
    {
      assert vs[..i + 1][..i] == vs[..i];
      var b := BindVertex(vs[i], sets);
      r := BoundList(r.vertices + [b.vertex], r.bad || b.bad);
      i := i + 1;
    }
    assert vs[..i] == vs;
  }

  /** Every vertex table after binding, and whether any vertex raised. */
  datatype BoundTables = BoundTables(tables: seq<seq<Vertex>>, bad: bool)

  function BindTables(vd: seq<seq<Vertex>>, sets: seq<WeightSet>): BoundTables
  {
    if vd == [] then BoundTables([], false)
    else
      var init := BindTables(vd[..|vd| - 1], sets);
      var last := BindList(vd[|vd| - 1], sets);
      BoundTables(init.tables + [last.vertices], init.bad || last.bad)
  }

  method BindAll(vd: seq<seq<Vertex>>, sets: seq<WeightSet>) returns (r: BoundTables)
    ensures r == BindTables(vd, sets)
  {
    r := BoundTables([], false);
    var i := 0;
    while i < |vd|
      invariant i <= |vd| && r == BindTables(vd[..i], sets)
    {
      assert vd[..i + 1][..i] == vd[..i];
      var b := BindTable(vd[i], sets);
      r := BoundTables(r.tables + [b.vertices], r.bad || b.bad);
      i := i + 1;
    }
    assert vd[..i] == vd;
  }

  // ------------------------------------------------------------------- lemmas

  /** The bound slots are exactly the slots with a positive value, so there
      are at most k of them. */
  lemma {:induction false} SlotsSpec(groups: seq<nat>, values: seq<nat>, k: nat)
    requires k <= |groups| && k <= |values|
    ensures |Slots(groups, values, k)| <= k
    ensures forall w :: w in Slots(groups, values, k) <==>
      exists j :: 0 <= j < k && values[j] > 0 && w == Weight(groups[j], values[j])
  {
    if k > 0 {
      SlotsSpec(groups, values, k - 1);
      var s := Slots(groups, values, k);
      forall w
        ensures w in s <==> exists j :: 0 <= j < k && values[j] > 0 && w == Weight(groups[j], values[j])
      {
        if w in s && w !in Slots(groups, values, k - 1) {
          assert values[k - 1] > 0 && w == Weight(groups[k - 1], values[k - 1]);
        }
      }
    }
  }

  /** When every value is positive, slot j binds as weight j. */
  lemma {:induction false} SlotsAllPositive(groups: seq<nat>, values: seq<nat>, k: nat)
    requires k <= |groups| && k <= |values|
    requires forall j :: 0 <= j < k ==> values[j] > 0
    ensures |Slots(groups, values, k)| == k
    ensures forall j :: 0 <= j < k ==> Slots(groups, values, k)[j] == Weight(groups[j], values[j])
  {
    if k > 0 {
      SlotsAllPositive(groups, values, k - 1);
    }
  }

  /** Binding only appends weights, each with a positive value and one per
      slot at most; it reports an error exactly when the vertex has a
      weight-set index that is out of range or whose weight set has fewer
      values than groups. A vertex without an index is untouched. */
  lemma BindSpec(v: Vertex, sets: seq<WeightSet>)
    ensures var b := Bind(v, sets);
      && b.vertex.(weights := v.weights) == v
      && |v.weights| <= |b.vertex.weights|
      && b.vertex.weights[..|v.weights|] == v.weights
      && (forall i :: |v.weights| <= i < |b.vertex.weights| ==> b.vertex.weights[i].value > 0)
      && (v.weightSetIndex == -1 ==> b == Bound(v, false))
      && (b.bad <==>
            v.weightSetIndex != -1 &&
            (PyIndex(|sets|, v.weightSetIndex).None? ||
             |sets[PyIndex(|sets|, v.weightSetIndex).value].groups| > |sets[PyIndex(|sets|, v.weightSetIndex).value].values|))
  {
    var b := Bind(v, sets);
    if v.weightSetIndex != -1 && Lookup(sets, v.weightSetIndex).Success? {
      var s := Lookup(sets, v.weightSetIndex).value;
      var k := if |s.groups| <= |s.values| then |s.groups| else |s.values|;
      var added := Slots(s.groups, s.values, k);
      SlotsSpec(s.groups, s.values, k);
      assert b.vertex.weights == v.weights + added;
      assert b.vertex.weights[..|v.weights|] == v.weights;
      forall i | |v.weights| <= i < |b.vertex.weights|
        ensures b.vertex.weights[i].value > 0
      {
        assert b.vertex.weights[i] == added[i - |v.weights|];
        assert added[i - |v.weights|] in added;
      }
    }
  }

  /** Binding a table binds each of its vertices on its own and reports an
      error when any of them does. */
  lemma {:induction false} BindListSpec(vs: seq<Vertex>, sets: seq<WeightSet>)
    ensures |BindList(vs, sets).vertices| == |vs|
    ensures forall i :: 0 <= i < |vs| ==> BindList(vs, sets).vertices[i] == Bind(vs[i], sets).vertex
    ensures BindList(vs, sets).bad <==> exists i :: 0 <= i < |vs| && Bind(vs[i], sets).bad
  {
    if vs != [] {
      var init := vs[..|vs| - 1];
      BindListSpec(init, sets);
      assert forall i :: 0 <= i < |init| ==> init[i] == vs[i];
      if Bind(vs[|vs| - 1], sets).bad {
        assert exists i :: 0 <= i < |vs| && Bind(vs[i], sets).bad;
      }
    }
  }

  /** Binding all tables binds each table on its own. */
  lemma {:induction false} BindTablesSpec(vd: seq<seq<Vertex>>, sets: seq<WeightSet>)
    ensures |BindTables(vd, sets).tables| == |vd|
    ensures forall i :: 0 <= i < |vd| ==> BindTables(vd, sets).tables[i] == BindList(vd[i], sets).vertices
    ensures BindTables(vd, sets).bad <==> exists i :: 0 <= i < |vd| && BindList(vd[i], sets).bad
  {
    if vd != [] {
      var init := vd[..|vd| - 1];
      BindTablesSpec(init, sets);
      assert forall i :: 0 <= i < |init| ==> init[i] == vd[i];
      if BindList(vd[|vd| - 1], sets).bad {
        assert exists i :: 0 <= i < |vd| && BindList(vd[i], sets).bad;
      }
    }
  }
}
