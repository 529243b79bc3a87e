/** The tables of a model chunk of the payload container: the chunk header,
    the vertex tables with their descriptors, the face tables with their
    indices, the weight tables and the shape (morph target) tables.

    A model chunk is a byte block of its own, read from position 0. Every
    table is located by an offset from the chunk's start; an offset of 0
    means the chunk has no such table. */
module Chunk {
  import opened Bytes
  import opened Results
  import opened Reader
  import opened Tables

  /** The chunk header: 15 words, of which these are used. */
  datatype ChunkHeader = ChunkHeader(
    vertexTablesOffset: nat, vertexTableCount: nat,
    faceTablesOffset: nat, faceTableCount: nat,
    shapeDataOffset: nat, dataOffset: nat, weightDataOffset: nat)

  function ChunkHeaderAt(data: seq<byte>): Result<ChunkHeader>
  {
    match Words(data, 0, 15)
    case Failure(e) => Failure(e)
    case Success(w) => Success(ChunkHeader(w[0], w[1], w[2], w[3], w[10], w[12], w[14]))
  }

  method ReadChunkHeader(c: Cursor) returns (r: Result<ChunkHeader>)
    requires c.pos == 0
    modifies c
    ensures r == ChunkHeaderAt(c.data)
  {
    var w := c.ReadWords(15);
    if w.Failure? {
      return Failure(w.error);
    }
    var v := w.value;
    return Success(ChunkHeader(v[0], v[1], v[2], v[3], v[10], v[12], v[14]));
  }

  /** The header's fields are the words at bytes 0, 4, 8, 12, 40, 48 and 56. */
  lemma ChunkHeaderLayout(data: seq<byte>)
    requires |data| >= 60
    ensures ChunkHeaderAt(data) == Success(ChunkHeader(
      U32(data, 0), U32(data, 4), U32(data, 8), U32(data, 12),
      U32(data, 40), U32(data, 48), U32(data, 56)))
  {
    var w := Words(data, 0, 15).value;
    assert w[0] == WordAt(data, 0) && w[1] == WordAt(data, 4) && w[2] == WordAt(data, 8);
    assert w[3] == WordAt(data, 12) && w[10] == WordAt(data, 40);
    assert w[12] == WordAt(data, 48) && w[14] == WordAt(data, 56);
  }

  // ---------------------------------------------------------- vertex tables

  /** A vertex descriptor: which attribute (tag) and its declared size. */
  datatype Descriptor = Descriptor(tag: nat, size: nat)

  function DescriptorAt(data: seq<byte>, off: nat): Result<Descriptor>
  {
    if off + 4 > |data| then Failure(Truncated)
    else Success(Descriptor(U16(data, off), U16(data, off + 2)))
  }

  method ReadDescriptor(c: Cursor) returns (r: Result<Descriptor>)
    modifies c
    ensures r == DescriptorAt(c.data, old(c.pos))
    ensures r.Success? ==> c.pos == old(c.pos) + 4
  {
    var tag :- c.ReadU16();
    var size :- c.ReadU16();
    return Success(Descriptor(tag, size));
  }

  function DescriptorEntry(data: seq<byte>, base: nat): nat -> Result<Descriptor>
  {
    (j: nat) => DescriptorAt(data, base + 4 * j)
  }

  function Descriptors(data: seq<byte>, base: nat, n: nat): Result<seq<Descriptor>>
  {
    Table(n, DescriptorEntry(data, base))
  }

  method ReadDescriptors(c: Cursor, base: nat, n: nat) returns (r: Result<seq<Descriptor>>)
    requires c.pos == base
    modifies c
    ensures r == Descriptors(c.data, base, n)
  {
    var ds: seq<Descriptor> := [];
    var j := 0;
    ghost var entry := DescriptorEntry(c.data, base);
    while j < n
      invariant j <= n && c.pos == base + 4 * j
      invariant Table(j, entry) == Success(ds)
    {
      var d := ReadDescriptor(c);
      assert entry(j) == d;
      if d.Failure? {
        TableFirstFailure(n, entry, j);
        return Failure(d.error);
      }
      TableStep(j, entry, ds, d.value);
      ds := ds + [d.value];
      j := j + 1;
    }
    return Success(ds);
  }

  /** A vertex table: where its vertices start (from the data area), how
      many there are, the unused block size, and the descriptors every
      vertex of the table is laid out by. */
  datatype VertexTable = VertexTable(
    dataOffset: nat, count: nat, blockSize: nat, descriptors: seq<Descriptor>)

  /** The 32-byte record at `off`: five words, then its descriptor list is
      read at the offset the fourth word gives. */
  function VertexTableAt(data: seq<byte>, off: nat): Result<VertexTable>
  {
    match Words(data, off, 5)
    case Failure(e) => Failure(e)
    case Success(w) =>
      match Descriptors(data, w[3], w[4])
      case Failure(e) => Failure(e)
      case Success(ds) => Success(VertexTable(w[0], w[1], w[2], ds))
  }

  method ReadVertexTable(c: Cursor, off: nat) returns (r: Result<VertexTable>)
    modifies c
    ensures r == VertexTableAt(c.data, off)
  {
    c.Seek(off);
    var w := c.ReadWords(5);
    if w.Failure? {
      return Failure(w.error);
    }
    c.Seek(w.value[3]);
    var ds := ReadDescriptors(c, w.value[3], w.value[4]);
    if ds.Failure? {
      return Failure(ds.error);
    }
    var v := w.value;
    return Success(VertexTable(v[0], v[1], v[2], ds.value));
  }

  function VertexTableEntry(data: seq<byte>, base: nat): nat -> Result<VertexTable>
  {
    (j: nat) => VertexTableAt(data, base + 32 * j)
  }

  /** The vertex tables, when the chunk has any. */
  function VertexTables(data: seq<byte>, h: ChunkHeader): Result<seq<VertexTable>>
  {
    if h.vertexTablesOffset == 0 then Success([])
    else Table(h.vertexTableCount, VertexTableEntry(data, h.vertexTablesOffset))
  }

  method ReadVertexTableList(c: Cursor, base: nat, n: nat) returns (r: Result<seq<VertexTable>>)
    modifies c
    ensures r == Table(n, VertexTableEntry(c.data, base))
  {
    var tables: seq<VertexTable> := [];
    var j := 0;
    ghost var entry := VertexTableEntry(c.data, base);
    while j < n
      invariant j <= n
      invariant Table(j, entry) == Success(tables)
    {
      var t := ReadVertexTable(c, base + 32 * j);
      assert entry(j) == t;
      if t.Failure? {
        TableFirstFailure(n, entry, j);
        return Failure(t.error);
      }
      TableStep(j, entry, tables, t.value);
      tables := tables + [t.value];
      j := j + 1;
    }
    return Success(tables);
  }

  method ReadVertexTables(c: Cursor, h: ChunkHeader) returns (r: Result<seq<VertexTable>>)
    modifies c
    ensures r == VertexTables(c.data, h)
  {
    if h.vertexTablesOffset == 0 {
      return Success([]);
    }
    r := ReadVertexTableList(c, h.vertexTablesOffset, h.vertexTableCount);
  }

  /** Vertex table j is decoded from the 32-byte record j of the list. */
  lemma VertexTableLayout(data: seq<byte>, h: ChunkHeader, j: nat)
    requires VertexTables(data, h).Success? && h.vertexTablesOffset > 0 && j < h.vertexTableCount
    ensures |VertexTables(data, h).value| == h.vertexTableCount
    ensures VertexTableAt(data, h.vertexTablesOffset + 32 * j) == Success(VertexTables(data, h).value[j])
  {
    var entry := VertexTableEntry(data, h.vertexTablesOffset);
    TableEntry(h.vertexTableCount, entry, j);
    assert entry(j) == VertexTableAt(data, h.vertexTablesOffset + 32 * j);
  }

  /** A vertex table record: its first two words are the data offset and the
      vertex count, and its descriptors are the list the fourth and fifth
      words locate. */
  lemma VertexTableFields(data: seq<byte>, off: nat)
    requires VertexTableAt(data, off).Success?
    ensures off + 20 <= |data|
    ensures var t := VertexTableAt(data, off).value;
      && t.dataOffset == U32(data, off) && t.count == U32(data, off + 4)
      && Descriptors(data, U32(data, off + 12), U32(data, off + 16)) == Success(t.descriptors)
  {
    var w := Words(data, off, 5).value;
    assert w[0] == WordAt(data, off) && w[1] == WordAt(data, off + 4);
    assert w[3] == WordAt(data, off + 12) && w[4] == WordAt(data, off + 16);
  }

  // ------------------------------------------------------------ face tables

  /** A face table: the u16 vertex indices it lists, in file order. */
  datatype FaceTable = FaceTable(dataOffset: nat, count: nat, indices: seq<nat>)

  /** The 20-byte record at `off`: two words, then the indices, read at the
      record's offset from the chunk's data area. */
  function FaceTableAt(data: seq<byte>, dataOffset: nat, off: nat): Result<FaceTable>
  {
    match Words(data, off, 2)
    case Failure(e) => Failure(e)
    case Success(w) =>
      match U16s(data, dataOffset + w[0], w[1])
      case Failure(e) => Failure(e)
      case Success(indices) => Success(FaceTable(w[0], w[1], indices))
  }

  method ReadFaceTable(c: Cursor, dataOffset: nat, off: nat) returns (r: Result<FaceTable>)
    modifies c
    ensures r == FaceTableAt(c.data, dataOffset, off)
  {
    c.Seek(off);
    var w := c.ReadWords(2);
    if w.Failure? {
      return Failure(w.error);
    }
    c.Seek(dataOffset + w.value[0]);
    var indices := c.ReadU16s(w.value[1]);
    if indices.Failure? {
      return Failure(indices.error);
    }
    return Success(FaceTable(w.value[0], w.value[1], indices.value));
  }

  function FaceTableEntry(data: seq<byte>, dataOffset: nat, base: nat): nat -> Result<FaceTable>
  {
    (j: nat) => FaceTableAt(data, dataOffset, base + 20 * j)
  }

  function FaceTables(data: seq<byte>, h: ChunkHeader): Result<seq<FaceTable>>
  {
    if h.faceTablesOffset == 0 then Success([])
    else Table(h.faceTableCount, FaceTableEntry(data, h.dataOffset, h.faceTablesOffset))
  }

  method ReadFaceTableList(c: Cursor, dataOffset: nat, base: nat, n: nat) returns (r: Result<seq<FaceTable>>)
    modifies c
    ensures r == Table(n, FaceTableEntry(c.data, dataOffset, base))
  {
    var tables: seq<FaceTable> := [];
    var j := 0;
    ghost var entry := FaceTableEntry(c.data, dataOffset, base);
    while j < n
      invariant j <= n
      invariant Table(j, entry) == Success(tables)
    {
      var t := ReadFaceTable(c, dataOffset, base + 20 * j);
      assert entry(j) == t;
      if t.Failure? {
        TableFirstFailure(n, entry, j);
        return Failure(t.error);
      }
      TableStep(j, entry, tables, t.value);
      tables := tables + [t.value];
      j := j + 1;
    }
    return Success(tables);
  }

  method ReadFaceTables(c: Cursor, h: ChunkHeader) returns (r: Result<seq<FaceTable>>)
    modifies c
    ensures r == FaceTables(c.data, h)
  {
    if h.faceTablesOffset == 0 {
      return Success([]);
    }
    r := ReadFaceTableList(c, h.dataOffset, h.faceTablesOffset, h.faceTableCount);
  }

  /** Face table j is decoded from the 20-byte record j of the list. */
  lemma FaceTableLayout(data: seq<byte>, h: ChunkHeader, j: nat)
    requires FaceTables(data, h).Success? && h.faceTablesOffset > 0 && j < h.faceTableCount
    ensures |FaceTables(data, h).value| == h.faceTableCount
    ensures FaceTableAt(data, h.dataOffset, h.faceTablesOffset + 20 * j) == Success(FaceTables(data, h).value[j])
  {
    var entry := FaceTableEntry(data, h.dataOffset, h.faceTablesOffset);
    TableEntry(h.faceTableCount, entry, j);
    assert entry(j) == FaceTableAt(data, h.dataOffset, h.faceTablesOffset + 20 * j);
  }

  /** A face table lists the u16 values stored at its data offset within the
      data area, as many as its record says. */
  lemma FaceTableFields(data: seq<byte>, dataOffset: nat, off: nat)
    requires FaceTableAt(data, dataOffset, off).Success?
    ensures var t := FaceTableAt(data, dataOffset, off).value;
      && |t.indices| == t.count
      && (t.count == 0 || dataOffset + t.dataOffset + 2 * t.count <= |data|)
      && forall k :: 0 <= k < t.count ==> t.indices[k] == U16(data, dataOffset + t.dataOffset + 2 * k)
  {
  }

  // ---------------------------------------------------------- weight tables

  /** A weight table: where its weight sets start in the weight-vertex
      table, how many there are, and the LOD it belongs to. */
  datatype WeightTable = WeightTable(dataOffset: nat, count: nat, lod: nat)

  /** The 40-byte record at `off`: a skipped word, two u32, 17 skipped bytes,
      the u8 LOD and 10 skipped bytes; the skips need no bytes to exist. */
  function WeightTableAt(data: seq<byte>, off: nat): Result<WeightTable>
  {
    if off + 30 > |data| then Failure(Truncated)
    else Success(WeightTable(U32(data, off + 4), U32(data, off + 8), U8(data, off + 29)))
  }

  method ReadWeightTable(c: Cursor) returns (r: Result<WeightTable>)
    modifies c
    ensures r == WeightTableAt(c.data, old(c.pos))
    ensures r.Success? ==> c.pos == old(c.pos) + 40
  {
    c.Skip(4);
    var dataOffset :- c.ReadU32();
    var count :- c.ReadU32();
    c.Skip(17);
    var lod :- c.ReadU8();
    c.Skip(10);
    return Success(WeightTable(dataOffset, count, lod));
  }

  function WeightTableEntry(data: seq<byte>, base: nat): nat -> Result<WeightTable>
  {
    (j: nat) => WeightTableAt(data, base + 40 * j)
  }

  function WeightTableList(data: seq<byte>, base: nat, n: nat): Result<seq<WeightTable>>
  {
    Table(n, WeightTableEntry(data, base))
  }

  method ReadWeightTableList(c: Cursor, base: nat, n: nat) returns (r: Result<seq<WeightTable>>)
    requires c.pos == base
    modifies c
    ensures r == WeightTableList(c.data, base, n)
  {
    var tables: seq<WeightTable> := [];
    var j := 0;
    ghost var entry := WeightTableEntry(c.data, base);
    while j < n
      invariant j <= n && c.pos == base + 40 * j
      invariant Table(j, entry) == Success(tables)
    {
      var t := ReadWeightTable(c);
      assert entry(j) == t;
      if t.Failure? {
        TableFirstFailure(n, entry, j);
        return Failure(t.error);
      }
      TableStep(j, entry, tables, t.value);
      tables := tables + [t.value];
      j := j + 1;
    }
    return Success(tables);
  }

  /** The weight data: the vertex table that holds the weight sets, and the
      weight tables. */
  datatype WeightData = WeightData(vertexTable: nat, tables: seq<WeightTable>)

  /** The weight header at `off` (count, table offset, u16 vertex-table
      index) and the tables it points at. */
  function WeightDataAt(data: seq<byte>, off: nat): Result<WeightData>
  {
    if off + 10 > |data| then Failure(Truncated)
    else
      match WeightTableList(data, U32(data, off + 4), U32(data, off))
      case Failure(e) => Failure(e)
      case Success(tables) => Success(WeightData(U16(data, off + 8), tables))
  }

  method ReadWeightData(c: Cursor, off: nat) returns (r: Result<WeightData>)
    modifies c
    ensures r == WeightDataAt(c.data, off)
  {
    c.Seek(off);
    var count :- c.ReadU32();
    var base :- c.ReadU32();
    var vertexTable :- c.ReadU16();
    c.Seek(base);
    var tables := ReadWeightTableList(c, base, count);
    if tables.Failure? {
      return Failure(tables.error);
    }
    return Success(WeightData(vertexTable, tables.value));
  }

  /** The weight data, when the chunk has any. */
  function WeightsOf(data: seq<byte>, h: ChunkHeader): Result<Option<WeightData>>
  {
    if h.weightDataOffset == 0 then Success(None)
    else match WeightDataAt(data, h.weightDataOffset)
      case Failure(e) => Failure(e)
      case Success(w) => Success(Some(w))
  }

  method ReadWeights(c: Cursor, h: ChunkHeader) returns (r: Result<Option<WeightData>>)
    modifies c
    ensures r == WeightsOf(c.data, h)
  {
    if h.weightDataOffset == 0 {
      return Success(None);
    }
    var w := ReadWeightData(c, h.weightDataOffset);
    if w.Failure? {
      return Failure(w.error);
    }
    return Success(Some(w.value));
  }

  /** Weight table j's LOD is the byte 29 bytes into record j of the 40-byte
      records. */
  lemma WeightTableLayout(data: seq<byte>, base: nat, n: nat, j: nat)
    requires WeightTableList(data, base, n).Success? && j < n
    ensures |WeightTableList(data, base, n).value| == n
    ensures base + 40 * j + 30 <= |data|
    ensures WeightTableList(data, base, n).value[j]
      == WeightTable(U32(data, base + 40 * j + 4), U32(data, base + 40 * j + 8), U8(data, base + 40 * j + 29))
  {
    var entry := WeightTableEntry(data, base);
    TableEntry(n, entry, j);
    assert entry(j) == WeightTableAt(data, base + 40 * j);
  }

  // ----------------------------------------------------------- shape tables

  /** A shape header: the vertex table its targets apply to, the index of its
      base target, how many morph targets follow, and where the target ids
      are. */
  datatype ShapeHeader = ShapeHeader(
    vertexTable: nat, targetIndex: nat, targetCount: nat, targetIdsOffset: nat)

  /** A 20-byte shape header record: five words, the last unused. */
  function ShapeHeaderAt(data: seq<byte>, off: nat): Result<ShapeHeader>
  {
    match Words(data, off, 5)
    case Failure(e) => Failure(e)
    case Success(w) => Success(ShapeHeader(w[0], w[1], w[2], w[3]))
  }

  method ReadShapeHeader(c: Cursor) returns (r: Result<ShapeHeader>)
    modifies c
    ensures r == ShapeHeaderAt(c.data, old(c.pos))
    ensures r.Success? ==> c.pos == old(c.pos) + 20
  {
    var w := c.ReadWords(5);
    if w.Failure? {
      return Failure(w.error);
    }
    return Success(ShapeHeader(w.value[0], w.value[1], w.value[2], w.value[3]));
  }

  function ShapeHeaderEntry(data: seq<byte>, base: nat): nat -> Result<ShapeHeader>
  {
    (j: nat) => ShapeHeaderAt(data, base + 20 * j)
  }

  function ShapeHeaderList(data: seq<byte>, base: nat, n: nat): Result<seq<ShapeHeader>>
  {
    Table(n, ShapeHeaderEntry(data, base))
  }

  method ReadShapeHeaderList(c: Cursor, base: nat, n: nat) returns (r: Result<seq<ShapeHeader>>)
    requires c.pos == base
    modifies c
    ensures r == ShapeHeaderList(c.data, base, n)
  {
    var headers: seq<ShapeHeader> := [];
    var j := 0;
    ghost var entry := ShapeHeaderEntry(c.data, base);
    while j < n
      invariant j <= n && c.pos == base + 20 * j
      invariant Table(j, entry) == Success(headers)
    {
      var h := ReadShapeHeader(c);
      assert entry(j) == h;
      if h.Failure? {
        TableFirstFailure(n, entry, j);
        return Failure(h.error);
      }
      TableStep(j, entry, headers, h.value);
      headers := headers + [h.value];
      j := j + 1;
    }
    return Success(headers);
  }

  /** A shape target: where its entries are (from the data area), how many,
      and the stride of the base target's entries. */
  datatype ShapeTarget = ShapeTarget(
    chunkOffset: nat, vertexCount: nat, blockSize: nat, unknown: nat, targetType: nat)

  /** A 16-byte target record: three u32 and two u16. */
  function ShapeTargetAt(data: seq<byte>, off: nat): Result<ShapeTarget>
  {
    if off + 16 > |data| then Failure(Truncated)
    else Success(ShapeTarget(U32(data, off), U32(data, off + 4), U32(data, off + 8),
                             U16(data, off + 12), U16(data, off + 14)))
  }

  method ReadShapeTarget(c: Cursor) returns (r: Result<ShapeTarget>)
    modifies c
    ensures r == ShapeTargetAt(c.data, old(c.pos))
    ensures r.Success? ==> c.pos == old(c.pos) + 16
  {
    var chunkOffset :- c.ReadU32();
    var vertexCount :- c.ReadU32();
    var blockSize :- c.ReadU32();
    var unknown :- c.ReadU16();
    var targetType :- c.ReadU16();
    return Success(ShapeTarget(chunkOffset, vertexCount, blockSize, unknown, targetType));
  }

  function ShapeTargetEntry(data: seq<byte>, base: nat): nat -> Result<ShapeTarget>
  {
    (j: nat) => ShapeTargetAt(data, base + 16 * j)
  }

  function ShapeTargetList(data: seq<byte>, base: nat, n: nat): Result<seq<ShapeTarget>>
  {
    Table(n, ShapeTargetEntry(data, base))
  }

  method ReadShapeTargetList(c: Cursor, base: nat, n: nat) returns (r: Result<seq<ShapeTarget>>)
    requires c.pos == base
    modifies c
    ensures r == ShapeTargetList(c.data, base, n)
  {
    var targets: seq<ShapeTarget> := [];
    var j := 0;
    ghost var entry := ShapeTargetEntry(c.data, base);
    while j < n
      invariant j <= n && c.pos == base + 16 * j
      invariant Table(j, entry) == Success(targets)
    {
      var t := ReadShapeTarget(c);
      assert entry(j) == t;
      if t.Failure? {
        TableFirstFailure(n, entry, j);
        return Failure(t.error);
      }
      TableStep(j, entry, targets, t.value);
      targets := targets + [t.value];
      j := j + 1;
    }
    return Success(targets);
  }

  /** The shape headers and the shape targets. */
  datatype ShapeTables = ShapeTables(headers: seq<ShapeHeader>, targets: seq<ShapeTarget>)

  /** The shape data header at `off` (header count and offset, target count
      and offset) and the two tables it points at. */
  function ShapeTablesAt(data: seq<byte>, off: nat): Result<ShapeTables>
  {
    match Words(data, off, 4)
    case Failure(e) => Failure(e)
    case Success(w) =>
      match ShapeHeaderList(data, w[1], w[0])
      case Failure(e) => Failure(e)
      case Success(headers) =>
        match ShapeTargetList(data, w[3], w[2])
        case Failure(e) => Failure(e)
        case Success(targets) => Success(ShapeTables(headers, targets))
  }

  method ReadShapeTablesAt(c: Cursor, off: nat) returns (r: Result<ShapeTables>)
    modifies c
    ensures r == ShapeTablesAt(c.data, off)
  {
    c.Seek(off);
    var w := c.ReadWords(4);
    if w.Failure? {
      return Failure(w.error);
    }
    c.Seek(w.value[1]);
    var headers := ReadShapeHeaderList(c, w.value[1], w.value[0]);
    if headers.Failure? {
      return Failure(headers.error);
    }
    c.Seek(w.value[3]);
    var targets := ReadShapeTargetList(c, w.value[3], w.value[2]);
    if targets.Failure? {
      return Failure(targets.error);
    }
    return Success(ShapeTables(headers.value, targets.value));
  }

  /** The shape tables, when the chunk has any. */
  function ShapeTablesOf(data: seq<byte>, h: ChunkHeader): Result<ShapeTables>
  {
    if h.shapeDataOffset == 0 then Success(ShapeTables([], []))
    else ShapeTablesAt(data, h.shapeDataOffset)
  }

  method ReadShapeTables(c: Cursor, h: ChunkHeader) returns (r: Result<ShapeTables>)
    modifies c
    ensures r == ShapeTablesOf(c.data, h)
  {
    if h.shapeDataOffset == 0 {
      return Success(ShapeTables([], []));
    }
    r := ReadShapeTablesAt(c, h.shapeDataOffset);
  }

  // ------------------------------------------------------------ all tables

  /** Everything the chunk's tables describe, read in the importer's order:
      vertex tables, face tables, weights, shapes. */
  datatype ChunkTables = ChunkTables(
    header: ChunkHeader, vertexTables: seq<VertexTable>, faceTables: seq<FaceTable>,
    weights: Option<WeightData>, shapes: ShapeTables)

  function ChunkTablesOf(data: seq<byte>): Result<ChunkTables>
  {
    match ChunkHeaderAt(data)
    case Failure(e) => Failure(e)
    case Success(h) => TablesFrom(data, h)
  }

  function TablesFrom(data: seq<byte>, h: ChunkHeader): Result<ChunkTables>
  {
    match VertexTables(data, h)
    case Failure(e) => Failure(e)
    case Success(vts) =>
      match FaceTables(data, h)
      case Failure(e) => Failure(e)
      case Success(fts) => WeightsAndShapes(data, h, vts, fts)
  }

  function WeightsAndShapes(data: seq<byte>, h: ChunkHeader, vts: seq<VertexTable>, fts: seq<FaceTable>): Result<ChunkTables>
  {
    match WeightsOf(data, h)
    case Failure(e) => Failure(e)
    case Success(weights) =>
      match ShapeTablesOf(data, h)
      case Failure(e) => Failure(e)
      case Success(shapes) => Success(ChunkTables(h, vts, fts, weights, shapes))
  }

  method ReadChunkTables(c: Cursor) returns (r: Result<ChunkTables>)
    requires c.pos == 0
    modifies c
    ensures r == ChunkTablesOf(c.data)
  {
    var h := ReadChunkHeader(c);
    if h.Failure? {
      return Failure(h.error);
    }
    var vts := ReadVertexTables(c, h.value);
    if vts.Failure? {
      return Failure(vts.error);
    }
    var fts := ReadFaceTables(c, h.value);
    if fts.Failure? {
      return Failure(fts.error);
    }
    r := ReadWeightsAndShapes(c, h.value, vts.value, fts.value);
  }

  method ReadWeightsAndShapes(c: Cursor, h: ChunkHeader, vts: seq<VertexTable>, fts: seq<FaceTable>) returns (r: Result<ChunkTables>)
    modifies c
    ensures r == WeightsAndShapes(c.data, h, vts, fts)
  {
    var weights := ReadWeights(c, h);
    if weights.Failure? {
      return Failure(weights.error);
    }
    var shapes := ReadShapeTables(c, h);
    if shapes.Failure? {
      return Failure(shapes.error);
    }
    return Success(ChunkTables(h, vts, fts, weights.value, shapes.value));
  }

  /** A chunk without offsets for its optional tables has none of them: no
      bytes beyond the header are read. */
  lemma EmptyChunk(data: seq<byte>)
    requires ChunkHeaderAt(data).Success?
    requires var h := ChunkHeaderAt(data).value;
      h.vertexTablesOffset == 0 && h.faceTablesOffset == 0 && h.weightDataOffset == 0 && h.shapeDataOffset == 0
    ensures ChunkTablesOf(data) == Success(ChunkTables(ChunkHeaderAt(data).value, [], [], None, ShapeTables([], [])))
  {
  }
}
