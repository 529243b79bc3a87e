/** The descriptor-driven vertex decoder of a model chunk.

    Every vertex of a vertex table is laid out by the table's descriptor
    list: for each descriptor in turn, the attribute its tag names is read
    at the current position. The nine known tags consume a fixed number of
    bytes whatever size the descriptor declares; any other tag is skipped by
    its declared size and recorded as unknown, which is never an error.
    Vertices follow each other without gaps from the table's data offset.

    Floats are kept as their 32-bit words; the normal is kept as its raw
    components (the importer divides and renormalises them), a UV pair as
    the two stored words (the importer flips the second to 1 - v) and a
    weight value as its raw u16 (the importer divides it by 65535). */
module Vertices {
  import opened Bytes
  import opened Results
  import opened Reader
  import opened Tables
  import opened Chunk

  /** A normal as stored: signed bytes in vertex data, unsigned bytes in
      shape targets. */
  datatype Normal = NoNormal | SignedNormal(signed: seq<int>) | UnsignedNormal(unsigned: seq<byte>)

  /** A bone weight bound to a vertex: the weight group and the raw value. */
  datatype Weight = Weight(group: nat, value: nat)

  /** An imported vertex. `weightSetIndex` is -1 until a weight-index
      attribute sets it. */
  datatype Vertex = Vertex(
    position: seq<Word>, normal: Normal, uvs: map<nat, seq<Word>>, colour: seq<nat>,
    weightSetIndex: int, weights: seq<Weight>)

  const Blank := Vertex([], NoNormal, map[], [], -1, [])

  /** The weight groups and values a weight-table vertex holds (both empty
      for every other vertex). */
  datatype WeightSet = WeightSet(groups: seq<nat>, values: seq<nat>)

  const NoWeights := WeightSet([], [])

  /** What one vertex record yields: the vertex and its weight set. */
  datatype Decoded = Decoded(vertex: Vertex, weightSet: WeightSet)

  const Fresh := Decoded(Blank, NoWeights)

  /** One attribute as read. */
  datatype Field =
    | Position(xyz: seq<Word>)
    | WeightIndex(index: nat)
    | TexCoord(layer: nat, uv: seq<Word>)
    | Colour(rgba: seq<nat>)
    | NormalField(components: seq<int>)
    | WeightValues(values: seq<nat>)
    | WeightGroups(groups: seq<nat>)
    | Skipped(tag: nat, size: nat)

  predicate Known(tag: nat)
  {
    tag == 0 || tag == 3 || tag == 5 || tag == 6 || tag == 7 || tag == 17 || tag == 28 || tag == 41 || tag == 42
  }

  /** The bytes one attribute consumes. */
  function FieldSize(d: Descriptor): nat
  {
    match d.tag
    case 0 => 12
    case 3 => 4
    case 5 => 8
    case 6 => 8
    case 7 => 8
    case 17 => 4
    case 28 => 4
    case 41 => 8
    case 42 => 4
    case _ => d.size
  }

  /** The attribute a known tag reads at `off`. */
  function KnownFieldAt(data: seq<byte>, off: nat, tag: nat): Field
    requires Known(tag) && off + FieldSize(Descriptor(tag, 0)) <= |data|
  {
    if tag == 0 then Position([WordAt(data, off), WordAt(data, off + 4), WordAt(data, off + 8)])
    else if tag == 3 then WeightIndex(U32(data, off))
    else if tag == 5 || tag == 6 || tag == 7 then TexCoord(tag - 5, [WordAt(data, off), WordAt(data, off + 4)])
    else if tag == 17 then Colour([data[off + 1] as nat, data[off + 2] as nat, data[off + 3] as nat, data[off] as nat])
    else if tag == 28 then NormalField([Signed8(data[off]), Signed8(data[off + 1]), Signed8(data[off + 2])])
    else if tag == 41 then WeightValues([U16(data, off), U16(data, off + 2), U16(data, off + 4), U16(data, off + 6)])
    else WeightGroups([data[off] as nat, data[off + 1] as nat, data[off + 2] as nat, data[off + 3] as nat])
  }

  /** The attribute descriptor d reads at `off`. */
  function FieldAt(data: seq<byte>, off: nat, d: Descriptor): Result<Field>
  {
    if !Known(d.tag) then Success(Skipped(d.tag, d.size))
    else if off + FieldSize(d) > |data| then Failure(Truncated)
    else Success(KnownFieldAt(data, off, d.tag))
  }

  /** Storing one attribute in the vertex being built. */
  function Apply(r: Decoded, f: Field): Decoded
  {
    match f
    case Position(xyz) => r.(vertex := r.vertex.(position := xyz))
    case WeightIndex(i) => r.(vertex := r.vertex.(weightSetIndex := i))
    case TexCoord(layer, uv) => r.(vertex := r.vertex.(uvs := r.vertex.uvs[layer := uv]))
    case Colour(rgba) => r.(vertex := r.vertex.(colour := rgba))
    case NormalField(n) => r.(vertex := r.vertex.(normal := SignedNormal(n)))
    case WeightValues(vs) => r.(weightSet := r.weightSet.(values := vs))
    case WeightGroups(gs) => r.(weightSet := r.weightSet.(groups := gs))
    case Skipped(_, _) => r
  }

  /** The bytes a vertex laid out by ds occupies. */
  function Size(ds: seq<Descriptor>): nat
  {
    if ds == [] then 0 else Size(ds[..|ds| - 1]) + FieldSize(ds[|ds| - 1])
  }

  /** The vertex whose record starts at `off`, decoded attribute by
      attribute; the attribute of descriptor k is read where the attributes
      before it end. */
  function VertexAt(data: seq<byte>, off: nat, ds: seq<Descriptor>): Result<Decoded>
  {
    if ds == [] then Success(Fresh)
    else
      var init := ds[..|ds| - 1];
      match VertexAt(data, off, init)
      case Failure(e) => Failure(e)
      case Success(r) =>
        match FieldAt(data, off + Size(init), ds[|ds| - 1])
        case Failure(e) => Failure(e)
        case Success(f) => Success(Apply(r, f))
  }

  /** The unknown tags of ds with their declared sizes; a tag listed twice
      keeps its last size. */
  function UnknownTags(ds: seq<Descriptor>): map<nat, nat>
  {
    if ds == [] then map[]
    else
      var d := ds[|ds| - 1];
      var m := UnknownTags(ds[..|ds| - 1]);
      if Known(d.tag) then m else m[d.tag := d.size]
  }

  method ReadField(c: Cursor, d: Descriptor) returns (r: Result<Field>)
    modifies c
    ensures r == FieldAt(c.data, old(c.pos), d)
    ensures r.Success? ==> c.pos == old(c.pos) + FieldSize(d)
  {
    if !Known(d.tag) {
      c.Skip(d.size);
      return Success(Skipped(d.tag, d.size));
    }
    if c.pos + FieldSize(d) > |c.data| {
      return Failure(Truncated);
    }
    r := ReadKnownField(c, d.tag);
  }

  /** Reads a known attribute that fits in the data, field by field as the
      importer does. */
  method ReadKnownField(c: Cursor, tag: nat) returns (r: Result<Field>)
    requires Known(tag) && c.pos + FieldSize(Descriptor(tag, 0)) <= |c.data|
    modifies c
    ensures r == Success(KnownFieldAt(c.data, old(c.pos), tag))
    ensures c.pos == old(c.pos) + FieldSize(Descriptor(tag, 0))
  {
    var off := c.pos;
    if tag == 0 {
      var w := c.ReadWords(3);
      assert w.value == [WordAt(c.data, off), WordAt(c.data, off + 4), WordAt(c.data, off + 8)];
      return Success(Position(w.value));
    } else if tag == 3 {
      var i := c.ReadU32();
      return Success(WeightIndex(i.value));
    } else if tag == 5 || tag == 6 || tag == 7 {
      var w := c.ReadWords(2);
      assert w.value == [WordAt(c.data, off), WordAt(c.data, off + 4)];
      return Success(TexCoord(tag - 5, w.value));
    } else if tag == 41 {
      var vs := c.ReadU16s(4);
      assert vs.value == [U16(c.data, off), U16(c.data, off + 2), U16(c.data, off + 4), U16(c.data, off + 6)];
      return Success(WeightValues(vs.value));
    } else if tag == 28 {
      var x := c.ReadI8();
      var y := c.ReadI8();
      var z := c.ReadI8();
      var _ := c.ReadI8();
      return Success(NormalField([x.value, y.value, z.value]));
    }
    r := ReadByteField(c, tag);
  }

  /** The colour (stored A, R, G, B) and the weight groups: four u8 each. */
  method ReadByteField(c: Cursor, tag: nat) returns (r: Result<Field>)
    requires (tag == 17 || tag == 42) && c.pos + 4 <= |c.data|
    modifies c
    ensures r == Success(KnownFieldAt(c.data, old(c.pos), tag))
    ensures c.pos == old(c.pos) + 4
  {
    var b0 := c.ReadU8();
    var b1 := c.ReadU8();
    var b2 := c.ReadU8();
    var b3 := c.ReadU8();
    if tag == 17 {
      return Success(Colour([b1.value, b2.value, b3.value, b0.value]));
    }
    return Success(WeightGroups([b0.value, b1.value, b2.value, b3.value]));
  }

  /** Reads one vertex and records the unknown tags met on the way. */
  /** Attribute k of a vertex: read and stored, or the failure of the
      whole vertex. */
  method ReadNextField(c: Cursor, ghost start: nat, ds: seq<Descriptor>, k: nat, decoded: Decoded)
    returns (r: Result<Decoded>)
    requires k < |ds| && c.pos == start + Size(ds[..k]) && VertexAt(c.data, start, ds[..k]) == Success(decoded)
    modifies c
    ensures r.Success? ==> c.pos == start + Size(ds[..k + 1]) && VertexAt(c.data, start, ds[..k + 1]) == r
    ensures r.Failure? ==> VertexAt(c.data, start, ds) == r
  {
    assert ds[..k + 1][..k] == ds[..k];
    var f := ReadField(c, ds[k]);
    if f.Failure? {
      PrefixFailure(c.data, start, ds, k + 1);
      return Failure(f.error);
    }
    return Success(Apply(decoded, f.value));
  }

  method ReadVertex(c: Cursor, ds: seq<Descriptor>, unknown: map<nat, nat>) returns (r: Result<Decoded>, unknown': map<nat, nat>)
    modifies c
    ensures r == VertexAt(c.data, old(c.pos), ds)
    ensures r.Success? ==> c.pos == old(c.pos) + Size(ds) && unknown' == unknown + UnknownTags(ds)
  {
    var decoded := Fresh;
    unknown' := unknown;
    var k := 0;
    ghost var start := c.pos;
    while k < |ds|
      invariant k <= |ds| && c.pos == start + Size(ds[..k])
      invariant VertexAt(c.data, start, ds[..k]) == Success(decoded)
      invariant unknown' == unknown + UnknownTags(ds[..k])
    {
      var next := ReadNextField(c, start, ds, k, decoded);
      if next.Failure? {
        return next, unknown';
      }
      assert ds[..k + 1][..k] == ds[..k];
      if !Known(ds[k].tag) {
        unknown' := unknown'[ds[k].tag := ds[k].size];
      }
      decoded := next.value;
      k := k + 1;
    }
    assert ds[..k] == ds;
    return Success(decoded), unknown';
  }


  /** A vertex whose first k attributes fail to decode fails with their error. */
  lemma {:induction false} PrefixFailure(data: seq<byte>, off: nat, ds: seq<Descriptor>, k: nat)
    requires k <= |ds| && VertexAt(data, off, ds[..k]).Failure?
    ensures VertexAt(data, off, ds) == VertexAt(data, off, ds[..k])
    decreases |ds|
  {
    if k == |ds| {
      assert ds[..k] == ds;
    } else {
      assert ds[..|ds| - 1][..k] == ds[..k];
      PrefixFailure(data, off, ds[..|ds| - 1], k);
    }
  }

  // ------------------------------------------------------------ vertex tables

  /** Recording the same tags twice records them once. */
  lemma MergeTwice(m: map<nat, nat>, u: map<nat, nat>)
    ensures (m + u) + u == m + u
  {
  }

  function VertexEntry(data: seq<byte>, base: nat, ds: seq<Descriptor>): nat -> Result<Decoded>
  {
    (j: nat) => VertexAt(data, RecordOffset(base, Size(ds), j), ds)
  }

  /** The vertices of table t, read back to back from the table's offset in
      the data area. */
  function TableVertices(data: seq<byte>, dataOffset: nat, t: VertexTable): Result<seq<Decoded>>
  {
    Table(t.count, VertexEntry(data, dataOffset + t.dataOffset, t.descriptors))
  }

  /** The unknown tags a table records: those of its descriptors, once at
      least one vertex is read. */
  function TableUnknown(t: VertexTable): map<nat, nat>
  {
    if t.count == 0 then map[] else UnknownTags(t.descriptors)
  }

  method ReadTableVertices(c: Cursor, dataOffset: nat, t: VertexTable, unknown: map<nat, nat>)
    returns (r: Result<seq<Decoded>>, unknown': map<nat, nat>)
    modifies c
    ensures r == TableVertices(c.data, dataOffset, t)
    ensures r.Success? ==> unknown' == unknown + TableUnknown(t)
  {
    var base := dataOffset + t.dataOffset;
    c.Seek(base);
    r, unknown' := ReadVertexList(c, base, t.descriptors, t.count, unknown);
  }

  /** Reads n vertices back to back, recording the unknown tags as each
      vertex is read. */
  method ReadVertexList(c: Cursor, base: nat, ds: seq<Descriptor>, n: nat, unknown: map<nat, nat>)
    returns (r: Result<seq<Decoded>>, unknown': map<nat, nat>)
    requires c.pos == base
    modifies c
    ensures r == Table(n, VertexEntry(c.data, base, ds))
    ensures r.Success? ==> unknown' == if n == 0 then unknown else unknown + UnknownTags(ds)
  {
    var decoded: seq<Decoded> := [];
    unknown' := unknown;
    var j := 0;
    ghost var entry := VertexEntry(c.data, base, ds);
    while j < n
      invariant j <= n && c.pos == RecordOffset(base, Size(ds), j)
      invariant Table(j, entry) == Success(decoded)
      invariant unknown' == if j == 0 then unknown else unknown + UnknownTags(ds)
    {
      var v, u := ReadVertex(c, ds, unknown');
      assert entry(j) == v;
      if v.Failure? {
        TableFirstFailure(n, entry, j);
        return Failure(v.error), unknown';
      }
      TableStep(j, entry, decoded, v.value);
      decoded := decoded + [v.value];
      MergeTwice(unknown, UnknownTags(ds));
      unknown' := u;
      j := j + 1;
    }
    return Success(decoded), unknown';
  }

  /** Vertex j of a table is decoded from the record Size(ds) * j bytes
      after the table's start: the block size field plays no part. */
  lemma VertexLayout(data: seq<byte>, dataOffset: nat, t: VertexTable, j: nat, off: nat)
    requires TableVertices(data, dataOffset, t).Success? && j < t.count
    requires off == dataOffset + t.dataOffset + Size(t.descriptors) * j
    ensures |TableVertices(data, dataOffset, t).value| == t.count
    ensures VertexAt(data, off, t.descriptors) == Success(TableVertices(data, dataOffset, t).value[j])
  {
    var base := dataOffset + t.dataOffset;
    var entry := VertexEntry(data, base, t.descriptors);
    TableEntry(t.count, entry, j);
    RecordOffsetIs(base, Size(t.descriptors), j);
    assert entry(j) == VertexAt(data, RecordOffset(base, Size(t.descriptors), j), t.descriptors);
  }

  // ---------------------------------------------------------- all the tables

  function TableEntryOf(data: seq<byte>, dataOffset: nat, vts: seq<VertexTable>): nat -> Result<seq<Decoded>>
  {
    (i: nat) => if i < |vts| then TableVertices(data, dataOffset, vts[i]) else Success([])
  }

  /** The decoded vertices of every vertex table, in table order. */
  function AllVertices(data: seq<byte>, dataOffset: nat, vts: seq<VertexTable>): Result<seq<seq<Decoded>>>
  {
    Table(|vts|, TableEntryOf(data, dataOffset, vts))
  }

  /** The unknown tags the vertex tables record, later tables overriding. */
  function AllUnknown(vts: seq<VertexTable>): map<nat, nat>
  {
    if vts == [] then map[] else AllUnknown(vts[..|vts| - 1]) + TableUnknown(vts[|vts| - 1])
  }

  method ReadAllVertices(c: Cursor, dataOffset: nat, vts: seq<VertexTable>)
    returns (r: Result<seq<seq<Decoded>>>, unknown: map<nat, nat>)
    modifies c
    ensures r == AllVertices(c.data, dataOffset, vts)
    ensures r.Success? ==> unknown == AllUnknown(vts)
  {
    var tables: seq<seq<Decoded>> := [];
    unknown := map[];
    var i := 0;
    ghost var entry := TableEntryOf(c.data, dataOffset, vts);
    while i < |vts|
      invariant i <= |vts|
      invariant Table(i, entry) == Success(tables)
      invariant unknown == AllUnknown(vts[..i])
    {
      assert vts[..i + 1][..i] == vts[..i];
      var t, u := ReadTableVertices(c, dataOffset, vts[i], unknown);
      assert entry(i) == t;
      if t.Failure? {
        TableFirstFailure(|vts|, entry, i);
        return Failure(t.error), unknown;
      }
      TableStep(i, entry, tables, t.value);
      tables := tables + [t.value];
      unknown := u;
      i := i + 1;
    }
    assert vts[..i] == vts;
    return Success(tables), unknown;
  }

  // ---------------------------------------------------------------- lemmas

  /** A vertex fails to decode exactly when one of its known attributes runs
      past the end of the data, and then with Truncated; unknown tags never
      make it fail. */
  lemma {:induction false} VertexDecodes(data: seq<byte>, off: nat, ds: seq<Descriptor>)
    ensures VertexAt(data, off, ds).Success? <==>
      forall k :: 0 <= k < |ds| && Known(ds[k].tag) ==> off + Size(ds[..k]) + FieldSize(ds[k]) <= |data|
    ensures VertexAt(data, off, ds).Failure? ==> VertexAt(data, off, ds).error == Truncated
    decreases |ds|
  {
    if ds != [] {
      var init := ds[..|ds| - 1];
      VertexDecodes(data, off, init);
      assert forall k :: 0 <= k < |init| ==> init[k] == ds[k] && init[..k] == ds[..k];
      assert ds[..|ds| - 1] == init;
    }
  }

  /** A descriptor list of unknown tags only decodes from any position. */
  lemma UnknownNeverFails(data: seq<byte>, off: nat, ds: seq<Descriptor>)
    requires forall k :: 0 <= k < |ds| ==> !Known(ds[k].tag)
    ensures VertexAt(data, off, ds).Success?
  {
    VertexDecodes(data, off, ds);
  }

  /** The declared size of a known tag plays no part: two descriptor lists
      that agree on the tags, and on the sizes of the unknown ones, give the
      same vertex size and decode to the same vertex. */
  lemma {:induction false} DeclaredSizeIgnored(data: seq<byte>, off: nat, ds: seq<Descriptor>, es: seq<Descriptor>)
    requires |ds| == |es|
    requires forall k :: 0 <= k < |ds| ==> ds[k].tag == es[k].tag && (Known(ds[k].tag) || ds[k].size == es[k].size)
    ensures Size(ds) == Size(es)
    ensures VertexAt(data, off, ds) == VertexAt(data, off, es)
    decreases |ds|
  {
    if ds != [] {
      var n := |ds| - 1;
      DeclaredSizeIgnored(data, off, ds[..n], es[..n]);
      assert FieldSize(ds[n]) == FieldSize(es[n]);
      assert FieldAt(data, off + Size(ds[..n]), ds[n]) == FieldAt(data, off + Size(es[..n]), es[n]);
    }
  }

  /** A colour attribute stored A, R, G, B is kept as [R, G, B, A]. */
  lemma ColourReordered(data: seq<byte>, off: nat, size: nat)
    requires off + 4 <= |data|
    ensures FieldAt(data, off, Descriptor(17, size))
      == Success(Colour([data[off + 1] as nat, data[off + 2] as nat, data[off + 3] as nat, data[off] as nat]))
  {
  }

  /** The unknown tags recorded are exactly those of the descriptor list. */
  lemma {:induction false} UnknownTagsExact(ds: seq<Descriptor>, tag: nat)
    ensures tag in UnknownTags(ds) <==> exists k :: 0 <= k < |ds| && ds[k].tag == tag && !Known(tag)
    decreases |ds|
  {
    if ds != [] {
      var init := ds[..|ds| - 1];
      UnknownTagsExact(init, tag);
      assert forall k :: 0 <= k < |init| ==> init[k] == ds[k];
      if tag in UnknownTags(init) {
        var k :| 0 <= k < |init| && init[k].tag == tag && !Known(tag);
        assert ds[k].tag == tag;
      }
    }
  }
}
