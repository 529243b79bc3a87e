/** Shape (morph target) reconstruction of a model chunk.

    Each shape header names a vertex table, a base target and a number of
    morph targets. The base target's entries overwrite the position and
    normal of the table's first vertices, one entry per `blockSize` bytes.
    The morph targets follow the base target at one remove: morph j
    (counting from 1) is target `targetIndex + j + 1`, whose 32-byte entries
    each carry the index of the vertex they move, and it is named by entry j
    of "basis" followed by the first names of the definition's shape items.
    The target ids the header points at are read and not used. */
module Shapes {
  import opened Bytes
  import opened Results
  import opened Reader
  import opened Tables
  import opened Lists
  import opened Chunk
  import opened Vertices

  /** A morph-target entry: the vertex it moves and where to. */
  datatype ShapeEntry = ShapeEntry(index: nat, vertex: Vertex)

  /** A shape key of a vertex table. */
  datatype Shape = Shape(name: string, vertexTable: nat, entries: seq<ShapeEntry>)

  // --------------------------------------------------------- the base target

  /** A base-target entry: three position words and three unsigned normal
      bytes (15 bytes). */
  datatype BaseEntry = BaseEntry(position: seq<Word>, normal: seq<byte>)

  function BaseEntryAt(data: seq<byte>, off: nat): Result<BaseEntry>
  {
    if off + 15 > |data| then Failure(Truncated)
    else Success(BaseEntry([WordAt(data, off), WordAt(data, off + 4), WordAt(data, off + 8)],
                           U8s(data, off + 12, 3).value))
  }

  method ReadBaseEntry(c: Cursor) returns (r: Result<BaseEntry>)
    modifies c
    ensures r == BaseEntryAt(c.data, old(c.pos))
    ensures r.Success? ==> c.pos == old(c.pos) + 15
  {
    var off := c.pos;
    var p := c.ReadWords(3);
    if p.Failure? {
      return Failure(p.error);
    }
    var n := c.ReadU8s(3);
    if n.Failure? {
      return Failure(n.error);
    }
    assert p.value == [WordAt(c.data, off), WordAt(c.data, off + 4), WordAt(c.data, off + 8)];
    return Success(BaseEntry(p.value, n.value));
  }

  /** A vertex overwritten by a base-target entry. */
  function Overwrite(v: Vertex, e: BaseEntry): Vertex
  {
    v.(position := e.position, normal := UnsignedNormal(e.normal))
  }

  /** Entry j of the base target: the vertex it overwrites is looked up
      first (an IndexError past the table's end), then the entry is read. */
  function BaseEntryOf(data: seq<byte>, base: nat, stride: nat, vs: seq<Vertex>): nat -> Result<BaseEntry>
  {
    (j: nat) => if j < |vs| then BaseEntryAt(data, RecordOffset(base, stride, j)) else Failure(IndexOutOfRange)
  }

  /** The vertex list with its first |es| vertices overwritten, one entry
      after the other. */
  function Overwritten(vs: seq<Vertex>, es: seq<BaseEntry>): (r: seq<Vertex>)
    ensures |r| == |vs|
    decreases |es|
  {
    if es == [] then vs
    else
      var k := |es| - 1;
      var r := Overwritten(vs, es[..k]);
      if k < |r| then r[k := Overwrite(vs[k], es[k])] else r
  }

  /** Overwriting one more vertex. */
  lemma OverwrittenStep(vs: seq<Vertex>, es: seq<BaseEntry>, e: BaseEntry)
    requires |es| < |vs|
    ensures Overwritten(vs, es + [e]) == Overwritten(vs, es)[|es| := Overwrite(vs[|es|], e)]
  {
    assert (es + [e])[..|es|] == es;
  }

  /** Vertex k of the overwritten list. */
  lemma {:induction false} OverwrittenAt(vs: seq<Vertex>, es: seq<BaseEntry>, k: nat)
    requires k < |vs|
    ensures Overwritten(vs, es)[k] == if k < |es| then Overwrite(vs[k], es[k]) else vs[k]
    decreases |es|
  {
    if es != [] {
      OverwrittenAt(vs, es[..|es| - 1], k);
    }
  }

  /** The vertex list after n base-target entries from `base`. */
  function BaseOverwrite(data: seq<byte>, base: nat, stride: nat, n: nat, vs: seq<Vertex>): Result<seq<Vertex>>
  {
    match Table(n, BaseEntryOf(data, base, stride, vs))
    case Failure(e) => Failure(e)
    case Success(es) => Success(Overwritten(vs, es))
  }

  /** The importer's loop over the base target: look up vertex j, read its
      entry, overwrite it in place, skip to the next entry. */
  method OverwriteBase(c: Cursor, base: nat, stride: nat, n: nat, vs: seq<Vertex>) returns (r: Result<seq<Vertex>>)
    requires c.pos == base
    modifies c
    ensures r == BaseOverwrite(c.data, base, stride, n, vs)
  {
    var current := vs;
    ghost var es: seq<BaseEntry> := [];
    var j := 0;
    ghost var entry := BaseEntryOf(c.data, base, stride, vs);
    while j < n
      invariant j <= n && c.pos == RecordOffset(base, stride, j)
      invariant Table(j, entry) == Success(es) && |es| == j
      invariant current == Overwritten(vs, es)
    {
      var at := c.pos;
      var e := ReadBaseEntry(c);
      // the lookup of vertex j precedes the read in the importer; either
      // failure aborts, so only the error that comes first is reported
      if j >= |current| || e.Failure? {
        var err := if j >= |current| then IndexOutOfRange else e.error;
        assert entry(j) == Failure(err);
        TableFirstFailure(n, entry, j);
        return Failure(err);
      }
      assert entry(j) == e;
      TableStep(j, entry, es, e.value);
      OverwrittenStep(vs, es, e.value);
      current := current[j := Overwrite(vs[j], e.value)];
      es := es + [e.value];
      assert current == Overwritten(vs, es);
      c.Seek(at + stride);
      j := j + 1;
    }
    return Success(current);
  }

  /** The base target of a header applied to the vertex lists: nothing
      happens for an empty target; otherwise the vertex table must exist (a
      KeyError otherwise). */
  function ApplyBase(data: seq<byte>, dataOffset: nat, t: ShapeTarget, table: nat, vertexData: seq<seq<Vertex>>)
    : Result<seq<seq<Vertex>>>
  {
    if t.vertexCount == 0 then Success(vertexData)
    else if table >= |vertexData| then Failure(MissingKey)
    else match BaseOverwrite(data, dataOffset + t.chunkOffset, t.blockSize, t.vertexCount, vertexData[table])
      case Failure(e) => Failure(e)
      case Success(vs) => Success(vertexData[table := vs])
  }

  method ApplyBaseTarget(c: Cursor, dataOffset: nat, t: ShapeTarget, table: nat, vertexData: seq<seq<Vertex>>)
    returns (r: Result<seq<seq<Vertex>>>)
    modifies c
    ensures r == ApplyBase(c.data, dataOffset, t, table, vertexData)
  {
    var base := dataOffset + t.chunkOffset;
    c.Seek(base);
    if t.vertexCount == 0 {
      return Success(vertexData);
    }
    if table >= |vertexData| {
      return Failure(MissingKey);
    }
    var vs := OverwriteBase(c, base, t.blockSize, t.vertexCount, vertexData[table]);
    if vs.Failure? {
      return Failure(vs.error);
    }
    return Success(vertexData[table := vs.value]);
  }

  /** The base target overwrites exactly the position and normal of the
      first n vertices of the list, entry k at `stride * k` bytes from the
      target's start; the vertices after them are unchanged. */
  lemma BaseOverwriteEntry(data: seq<byte>, base: nat, stride: nat, n: nat, vs: seq<Vertex>, r: seq<Vertex>, k: nat, off: nat)
    requires BaseOverwrite(data, base, stride, n, vs) == Success(r) && k < |vs| && off == base + stride * k
    ensures n <= |vs| && |r| == |vs|
    ensures k < n ==> BaseEntryAt(data, off).Success? && r[k] == Overwrite(vs[k], BaseEntryAt(data, off).value)
    ensures k >= n ==> r[k] == vs[k]
  {
    var entry := BaseEntryOf(data, base, stride, vs);
    TableEntries(n, entry);
    OverwrittenAt(vs, Table(n, entry).value, k);
    if n > 0 {
      assert entry(n - 1).Success?;
    }
    if k < n {
      RecordOffsetIs(base, stride, k);
      assert entry(k) == BaseEntryAt(data, RecordOffset(base, stride, k));
    }
  }

  /** A non-empty base target replaces its vertex table's list by the
      overwritten one and leaves every other table alone. */
  lemma ApplyBaseTables(data: seq<byte>, dataOffset: nat, t: ShapeTarget, table: nat, vertexData: seq<seq<Vertex>>)
    requires ApplyBase(data, dataOffset, t, table, vertexData).Success?
    ensures var after := ApplyBase(data, dataOffset, t, table, vertexData).value;
      && |after| == |vertexData|
      && (forall i :: 0 <= i < |vertexData| ==> |after[i]| == |vertexData[i]|)
      && (t.vertexCount > 0 ==>
            && table < |vertexData|
            && after == vertexData[table := BaseOverwrite(data, dataOffset + t.chunkOffset, t.blockSize, t.vertexCount, vertexData[table]).value])
  {
  }

  // ---------------------------------------------------------- morph targets

  /** A 32-byte morph entry: position, a skipped word, three unsigned normal
      bytes, a skipped byte, two skipped words and the vertex index. */
  function MorphEntryAt(data: seq<byte>, off: nat): Result<ShapeEntry>
  {
    if off + 32 > |data| then Failure(Truncated)
    else Success(ShapeEntry(U32(data, off + 28), Blank.(
      position := [WordAt(data, off), WordAt(data, off + 4), WordAt(data, off + 8)],
      normal := UnsignedNormal(U8s(data, off + 16, 3).value))))
  }

  method ReadMorphEntry(c: Cursor) returns (r: Result<ShapeEntry>)
    modifies c
    ensures r == MorphEntryAt(c.data, old(c.pos))
    ensures r.Success? ==> c.pos == old(c.pos) + 32
  {
    if c.pos + 32 > |c.data| {
      return Failure(Truncated);
    }
    var off := c.pos;
    var p := c.ReadWords(3);
    var _ := c.ReadU32();
    var n := c.ReadU8s(3);
    var _ := c.ReadU8();
    var tail := c.ReadWords(3);
    assert p.value == [WordAt(c.data, off), WordAt(c.data, off + 4), WordAt(c.data, off + 8)];
    assert tail.value[2] == U32(c.data, off + 28);
    var v := Blank.(position := p.value, normal := UnsignedNormal(n.value));
    return Success(ShapeEntry(tail.value[2], v));
  }

  function MorphEntryOf(data: seq<byte>, base: nat): nat -> Result<ShapeEntry>
  {
    (k: nat) => MorphEntryAt(data, base + 32 * k)
  }

  function MorphEntries(data: seq<byte>, base: nat, n: nat): Result<seq<ShapeEntry>>
  {
    Table(n, MorphEntryOf(data, base))
  }

  method ReadMorphEntries(c: Cursor, base: nat, n: nat) returns (r: Result<seq<ShapeEntry>>)
    requires c.pos == base
    modifies c
    ensures r == MorphEntries(c.data, base, n)
  {
    var entries: seq<ShapeEntry> := [];
    var k := 0;
    ghost var entry := MorphEntryOf(c.data, base);
    while k < n
      invariant k <= n && c.pos == base + 32 * k
      invariant Table(k, entry) == Success(entries)
    {
      var e := ReadMorphEntry(c);
      assert entry(k) == e;
      if e.Failure? {
        TableFirstFailure(n, entry, k);
        return Failure(e.error);
      }
      TableStep(k, entry, entries, e.value);
      entries := entries + [e.value];
      k := k + 1;
    }
    return Success(entries);
  }

  /** The names morph targets take: "basis" first, then the definition's. */
  function ShapeNameList(names: seq<string>): seq<string>
  {
    ["basis"] + names
  }

  /** Morph j of header h: target targetIndex + j + 1, its entries, and name
      j of the name list (both lookups can be out of range). */
  function MorphShape(data: seq<byte>, dataOffset: nat, targets: seq<ShapeTarget>, names: seq<string>, h: ShapeHeader, j: nat)
    : Result<Shape>
  {
    match Lookup(targets, h.targetIndex + j + 1)
    case Failure(e) => Failure(e)
    case Success(t) =>
      match MorphEntries(data, dataOffset + t.chunkOffset, t.vertexCount)
      case Failure(e) => Failure(e)
      case Success(entries) =>
        match Lookup(ShapeNameList(names), j)
        case Failure(e) => Failure(e)
        case Success(name) => Success(Shape(name, h.vertexTable, entries))
  }

  method ReadMorphShape(c: Cursor, dataOffset: nat, targets: seq<ShapeTarget>, names: seq<string>, h: ShapeHeader, j: nat)
    returns (r: Result<Shape>)
    modifies c
    ensures r == MorphShape(c.data, dataOffset, targets, names, h, j)
  {
    var t := Lookup(targets, h.targetIndex + j + 1);
    if t.Failure? {
      return Failure(t.error);
    }
    var base := dataOffset + t.value.chunkOffset;
    c.Seek(base);
    var entries := ReadMorphEntries(c, base, t.value.vertexCount);
    if entries.Failure? {
      return Failure(entries.error);
    }
    var name := Lookup(ShapeNameList(names), j);
    if name.Failure? {
      return Failure(name.error);
    }
    return Success(Shape(name.value, h.vertexTable, entries.value));
  }

  function MorphOf(data: seq<byte>, dataOffset: nat, targets: seq<ShapeTarget>, names: seq<string>, h: ShapeHeader)
    : nat -> Result<Shape>
  {
    (k: nat) => MorphShape(data, dataOffset, targets, names, h, k + 1)
  }

  /** The header's morph shapes, j = 1 to targetCount. */
  function MorphShapes(data: seq<byte>, dataOffset: nat, targets: seq<ShapeTarget>, names: seq<string>, h: ShapeHeader)
    : Result<seq<Shape>>
  {
    Table(h.targetCount, MorphOf(data, dataOffset, targets, names, h))
  }

  method ReadMorphShapes(c: Cursor, dataOffset: nat, targets: seq<ShapeTarget>, names: seq<string>, h: ShapeHeader)
    returns (r: Result<seq<Shape>>)
    modifies c
    ensures r == MorphShapes(c.data, dataOffset, targets, names, h)
  {
    var shapes: seq<Shape> := [];
    var k := 0;
    ghost var entry := MorphOf(c.data, dataOffset, targets, names, h);
    while k < h.targetCount
      invariant k <= h.targetCount
      invariant Table(k, entry) == Success(shapes)
    {
      var s := ReadMorphShape(c, dataOffset, targets, names, h, k + 1);
      assert entry(k) == s;
      if s.Failure? {
        TableFirstFailure(h.targetCount, entry, k);
        return Failure(s.error);
      }
      TableStep(k, entry, shapes, s.value);
      shapes := shapes + [s.value];
      k := k + 1;
    }
    return Success(shapes);
  }

  /** A header yields exactly targetCount shapes, all of its vertex table;
      shape j (from 1) is named entry j of "basis" and the first names of
      the definition's shape items, and its entries are those of target
      targetIndex + j + 1. */
  lemma MorphShapesSpec(data: seq<byte>, dataOffset: nat, targets: seq<ShapeTarget>, names: seq<string>, h: ShapeHeader, j: nat)
    requires MorphShapes(data, dataOffset, targets, names, h).Success? && 1 <= j <= h.targetCount
    ensures var shapes := MorphShapes(data, dataOffset, targets, names, h).value;
      && |shapes| == h.targetCount
      && h.targetIndex + j + 1 < |targets| && j <= |names|
      && shapes[j - 1].vertexTable == h.vertexTable
      && shapes[j - 1].name == ShapeNameList(names)[j]
      && MorphEntries(data, dataOffset + targets[h.targetIndex + j + 1].chunkOffset,
                      targets[h.targetIndex + j + 1].vertexCount) == Success(shapes[j - 1].entries)
  {
    var entry := MorphOf(data, dataOffset, targets, names, h);
    TableEntry(h.targetCount, entry, j - 1);
    assert entry(j - 1) == MorphShape(data, dataOffset, targets, names, h, j);
  }

  /** Morph entry k of a target lies 32 * k bytes from its start and moves
      the vertex whose index is the u32 at byte 28 of the entry. */
  lemma MorphEntryLayout(data: seq<byte>, base: nat, n: nat, k: nat)
    requires MorphEntries(data, base, n).Success? && k < n
    ensures |MorphEntries(data, base, n).value| == n
    ensures base + 32 * k + 32 <= |data|
    ensures MorphEntries(data, base, n).value[k].index == U32(data, base + 32 * k + 28)
  {
    var entry := MorphEntryOf(data, base);
    TableEntry(n, entry, k);
    assert entry(k) == MorphEntryAt(data, base + 32 * k);
  }

  // ---------------------------------------------------------- whole headers

  /** The vertex lists after the headers so far, and the shapes they made. */
  datatype ShapeState = ShapeState(vertexData: seq<seq<Vertex>>, shapes: seq<Shape>)

  /** One shape header: look up its base target, read its target ids, apply
      the base target, then read its morph shapes. */
  function HeaderShapes(data: seq<byte>, dataOffset: nat, st: ShapeTables, names: seq<string>, s: ShapeState, h: ShapeHeader)
    : Result<ShapeState>
  {
    match Lookup(st.targets, h.targetIndex)
    case Failure(e) => Failure(e)
    case Success(t) =>
      if h.targetCount > 0 && h.targetIdsOffset + 2 * h.targetCount > |data| then Failure(Truncated)
      else
        match ApplyBase(data, dataOffset, t, h.vertexTable, s.vertexData)
        case Failure(e) => Failure(e)
        case Success(vd) =>
          match MorphShapes(data, dataOffset, st.targets, names, h)
          case Failure(e) => Failure(e)
          case Success(shapes) => Success(ShapeState(vd, s.shapes + shapes))
  }

  method ReadHeaderShapes(c: Cursor, dataOffset: nat, st: ShapeTables, names: seq<string>, s: ShapeState, h: ShapeHeader)
    returns (r: Result<ShapeState>)
    modifies c
    ensures r == HeaderShapes(c.data, dataOffset, st, names, s, h)
  {
    var t := Lookup(st.targets, h.targetIndex);
    if t.Failure? {
      return Failure(t.error);
    }
    c.Seek(h.targetIdsOffset);
    var ids := c.ReadU16s(h.targetCount);
    if ids.Failure? {
      return Failure(Truncated);
    }
    var vd := ApplyBaseTarget(c, dataOffset, t.value, h.vertexTable, s.vertexData);
    if vd.Failure? {
      return Failure(vd.error);
    }
    var shapes := ReadMorphShapes(c, dataOffset, st.targets, names, h);
    if shapes.Failure? {
      return Failure(shapes.error);
    }
    return Success(ShapeState(vd.value, s.shapes + shapes.value));
  }

  /** The step of the loop over the shape headers. */
  function HeaderStep(data: seq<byte>, dataOffset: nat, st: ShapeTables, names: seq<string>)
    : (ShapeState, ShapeHeader) -> Result<ShapeState>
  {
    (s: ShapeState, h: ShapeHeader) => HeaderShapes(data, dataOffset, st, names, s, h)
  }

  /** The state after the first k shape headers. */
  function ShapesUpTo(data: seq<byte>, dataOffset: nat, st: ShapeTables, names: seq<string>, vertexData: seq<seq<Vertex>>, k: nat)
    : Result<ShapeState>
    requires k <= |st.headers|
  {
    Fold(HeaderStep(data, dataOffset, st, names), ShapeState(vertexData, []), st.headers, k)
  }

  /** Every shape header in order. */
  function AllShapes(data: seq<byte>, dataOffset: nat, st: ShapeTables, names: seq<string>, vertexData: seq<seq<Vertex>>)
    : Result<ShapeState>
  {
    ShapesUpTo(data, dataOffset, st, names, vertexData, |st.headers|)
  }

  /** Header i of the loop over the shape headers: its failure is the
      failure of the whole, its success the state after one more header. */
  method ReadNextShapes(c: Cursor, dataOffset: nat, st: ShapeTables, names: seq<string>,
                        ghost vertexData: seq<seq<Vertex>>, i: nat, s: ShapeState)
    returns (next: Result<ShapeState>)
    requires i < |st.headers| && ShapesUpTo(c.data, dataOffset, st, names, vertexData, i) == Success(s)
    modifies c
    ensures next.Success? ==> ShapesUpTo(c.data, dataOffset, st, names, vertexData, i + 1) == next
    ensures next.Failure? ==> AllShapes(c.data, dataOffset, st, names, vertexData) == Failure(next.error)
  {
    ghost var step := HeaderStep(c.data, dataOffset, st, names);
    next := ReadHeaderShapes(c, dataOffset, st, names, s, st.headers[i]);
    FoldStep(step, ShapeState(vertexData, []), st.headers, i, s);
    assert step(s, st.headers[i]) == next;
    if next.Failure? {
      FoldFailure(step, ShapeState(vertexData, []), st.headers, i + 1, |st.headers|);
    }
  }

  method ReadAllShapes(c: Cursor, dataOffset: nat, st: ShapeTables, names: seq<string>, vertexData: seq<seq<Vertex>>)
    returns (r: Result<ShapeState>)
    modifies c
    ensures r == AllShapes(c.data, dataOffset, st, names, vertexData)
  {
    var s := ShapeState(vertexData, []);
    var i := 0;
    while i < |st.headers|
      invariant i <= |st.headers|
      invariant ShapesUpTo(c.data, dataOffset, st, names, vertexData, i) == Success(s)
    {
      var next := ReadNextShapes(c, dataOffset, st, names, vertexData, i, s);
      if next.Failure? {
        return Failure(next.error);
      }
      s := next.value;
      i := i + 1;
    }
    return Success(s);
  }

  /** One header keeps the shape of the vertex data. */
  lemma HeaderKeepsTables(data: seq<byte>, dataOffset: nat, st: ShapeTables, names: seq<string>, s: ShapeState, h: ShapeHeader)
    requires HeaderShapes(data, dataOffset, st, names, s, h).Success?
    ensures var vd := HeaderShapes(data, dataOffset, st, names, s, h).value.vertexData;
      |vd| == |s.vertexData| && forall i :: 0 <= i < |vd| ==> |vd[i]| == |s.vertexData[i]|
  {
    var t := Lookup(st.targets, h.targetIndex).value;
    ApplyBaseTables(data, dataOffset, t, h.vertexTable, s.vertexData);
  }

  /** Shape reconstruction keeps the shape of the vertex data: the same
      number of tables, each with as many vertices as before. */
  lemma {:induction false} ShapesKeepTables(data: seq<byte>, dataOffset: nat, st: ShapeTables, names: seq<string>,
                                            vertexData: seq<seq<Vertex>>, k: nat)
    requires k <= |st.headers| && ShapesUpTo(data, dataOffset, st, names, vertexData, k).Success?
    ensures var vd := ShapesUpTo(data, dataOffset, st, names, vertexData, k).value.vertexData;
      |vd| == |vertexData| && forall i :: 0 <= i < |vd| ==> |vd[i]| == |vertexData[i]|
  {
    if k > 0 {
      var step := HeaderStep(data, dataOffset, st, names);
      ShapesKeepTables(data, dataOffset, st, names, vertexData, k - 1);
      var s := ShapesUpTo(data, dataOffset, st, names, vertexData, k - 1).value;
      FoldStep(step, ShapeState(vertexData, []), st.headers, k - 1, s);
      HeaderKeepsTables(data, dataOffset, st, names, s, st.headers[k - 1]);
    }
  }
}
