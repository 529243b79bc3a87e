/** The model definition container (`.wimdo`): a header of section offsets,
    a models section (mesh headers, bones, shape names) and a materials
    section whose shared extra-data array is split between the materials.

    Each record is described by a pure function of the bytes and its offset;
    the `Read…` methods drive a `Cursor` the way the importer does and are
    proved to produce exactly what those functions describe. Every table of
    records is read by a loop of its own, proved against `Tables.Table`. */
module Definition {
  import opened Bytes
  import opened Results
  import opened Reader
  import opened Tables
  import opened ExtraData

  /** "DMXM" */
  const DefinitionMagic: seq<byte> := [0x44, 0x4D, 0x58, 0x4D]

  // ---------------------------------------------------------------- header

  /** The header fields the decoder uses; the other section offsets are only
      seeked to. */
  datatype Header = Header(version: nat, modelsOffset: nat, materialsOffset: nat)

  /** Nine u32 after the magic: version, the models and materials offsets,
      an unknown, the vertex-buffer, shader and cached-texture offsets, an
      unknown and the uncached-texture offset. */
  function HeaderAt(data: seq<byte>): Result<Header>
  {
    match Words(data, 4, 9)
    case Failure(e) => Failure(e)
    case Success(w) => Success(Header(w[0], w[1], w[2]))
  }

  method ReadHeader(c: Cursor) returns (r: Result<Header>)
    requires c.pos == 4
    modifies c
    ensures r == HeaderAt(c.data)
  {
    var w := c.ReadWords(9);
    if w.Failure? {
      return Failure(w.error);
    }
    return Success(Header(w.value[0], w.value[1], w.value[2]));
  }

  /** An (offset, count) pair: the head of the shape-item and shape-name tables. */
  datatype TableHead = TableHead(offset: nat, count: nat)

  function TableHeadAt(data: seq<byte>, off: nat): Result<TableHead>
  {
    match Words(data, off, 2)
    case Failure(e) => Failure(e)
    case Success(w) => Success(TableHead(w[0], w[1]))
  }

  method ReadTableHead(c: Cursor) returns (r: Result<TableHead>)
    modifies c
    ensures r == TableHeadAt(c.data, old(c.pos))
  {
    var w := c.ReadWords(2);
    if w.Failure? {
      return Failure(w.error);
    }
    return Success(TableHead(w.value[0], w.value[1]));
  }

  // -------------------------------------------------------- models section

  /** Offsets, relative to the models section, of its sub-tables. */
  datatype ModelsHeader = ModelsHeader(
    meshDataOffset: nat, meshCount: nat, bonesOffset: nat,
    shapeItemsOffset: nat, shapeNamesOffset: nat, lodsOffset: nat)

  /** The models header spans 34 words: an unknown, the bounding box (six
      floats), the mesh data offset and count (words 7 and 8), an unknown,
      the bones offset (word 10), unknowns with the LOD offset among them
      (word 21), and the shape-item and shape-name offsets (words 32 and 33). */
  function ModelsHeaderAt(data: seq<byte>, m: nat): Result<ModelsHeader>
  {
    match Words(data, m, 34)
    case Failure(e) => Failure(e)
    case Success(w) => Success(ModelsHeader(w[7], w[8], w[10], w[32], w[33], w[21]))
  }

  /** Reads the first eleven words, skips 21 unknown words, reads the two
      shape offsets, then goes back for the LOD offset. */
  method ReadModelsHeader(c: Cursor, m: nat) returns (r: Result<ModelsHeader>)
    modifies c
    ensures r == ModelsHeaderAt(c.data, m)
  {
    c.Seek(m);
    var first := c.ReadWords(11);
    if first.Failure? {
      return Failure(first.error);
    }
    c.Skip(84);
    var shapes := c.ReadWords(2);
    if shapes.Failure? {
      return Failure(shapes.error);
    }
    c.Seek(m + 84);
    var lods := c.ReadWords(1);
    var w := first.value;
    return Success(ModelsHeader(w[7], w[8], w[10], shapes.value[0], shapes.value[1], lods.value[0]));
  }

  /** A mesh group: the offset (relative to the models section) and length of
      its table of mesh headers. */
  datatype MeshGroup = MeshGroup(tableOffset: nat, tableCount: nat)

  /** A 40-byte group record: three u32 and seven floats. */
  function MeshGroupAt(data: seq<byte>, off: nat): Result<MeshGroup>
  {
    match Words(data, off, 10)
    case Failure(e) => Failure(e)
    case Success(w) => Success(MeshGroup(w[0], w[1]))
  }

  method ReadMeshGroup(c: Cursor) returns (r: Result<MeshGroup>)
    modifies c
    ensures r == MeshGroupAt(c.data, old(c.pos))
    ensures r.Success? ==> c.pos == old(c.pos) + 40
  {
    var w := c.ReadWords(10);
    if w.Failure? {
      return Failure(w.error);
    }
    return Success(MeshGroup(w.value[0], w.value[1]));
  }

  /** Which vertex table, face table, material and LOD a mesh uses. */
  datatype MeshHeader = MeshHeader(
    id: nat, flags: nat, vertexTable: nat, faceTable: nat, material: nat, lod: nat)

  /** A 48-byte mesh header; its fields end at byte 32, and the trailing
      16-byte skip needs no bytes to be present. */
  function MeshHeaderAt(data: seq<byte>, off: nat): Result<MeshHeader>
  {
    if off + 32 > |data| then Failure(Truncated)
    else Success(MeshHeader(U32(data, off), U32(data, off + 4), U16(data, off + 8),
                            U16(data, off + 10), U16(data, off + 14), U16(data, off + 30)))
  }

  method ReadMeshHeader(c: Cursor) returns (r: Result<MeshHeader>)
    modifies c
    ensures r == MeshHeaderAt(c.data, old(c.pos))
    ensures r.Success? ==> c.pos == old(c.pos) + 48
  {
    var id :- c.ReadU32();
    var flags :- c.ReadU32();
    var vertexTable :- c.ReadU16();
    var faceTable :- c.ReadU16();
    c.Skip(2);
    var material :- c.ReadU16();
    c.Skip(14);
    var lod :- c.ReadU16();
    c.Skip(16);
    return Success(MeshHeader(id, flags, vertexTable, faceTable, material, lod));
  }

  function MeshHeaderEntry(data: seq<byte>, base: nat): nat -> Result<MeshHeader>
  {
    (j: nat) => MeshHeaderAt(data, base + 48 * j)
  }

  /** The n mesh headers read back to back from `base`. */
  function MeshTable(data: seq<byte>, base: nat, n: nat): Result<seq<MeshHeader>>
  {
    Table(n, MeshHeaderEntry(data, base))
  }

  method ReadMeshTable(c: Cursor, base: nat, n: nat) returns (r: Result<seq<MeshHeader>>)
    requires c.pos == base
    modifies c
    ensures r == MeshTable(c.data, base, n)
    ensures r.Success? ==> c.pos == base + 48 * n
  {
    var headers: seq<MeshHeader> := [];
    var j := 0;
    ghost var entry := MeshHeaderEntry(c.data, base);
    while j < n
      invariant j <= n && c.pos == base + 48 * j
      invariant Table(j, entry) == Success(headers)
    {
      var h := ReadMeshHeader(c);
      assert entry(j) == h;
      if h.Failure? {
        TableFirstFailure(n, entry, j);
        return Failure(h.error);
      }
      TableStep(j, entry, headers, h.value);
      headers := headers + [h.value];
      j := j + 1;
    }
    return Success(headers);
  }

  /** The mesh headers of the group whose record is at p, and the position
      where its table ends. */
  datatype GroupHeaders = GroupHeaders(headers: seq<MeshHeader>, end: nat)

  function GroupHeadersAt(data: seq<byte>, m: nat, p: nat): Result<GroupHeaders>
  {
    match MeshGroupAt(data, p)
    case Failure(e) => Failure(e)
    case Success(g) =>
      match MeshTable(data, m + g.tableOffset, g.tableCount)
      case Failure(e) => Failure(e)
      case Success(headers) => Success(GroupHeaders(headers, m + g.tableOffset + 48 * g.tableCount))
  }

  method ReadGroupHeaders(c: Cursor, m: nat) returns (r: Result<GroupHeaders>)
    modifies c
    ensures r == GroupHeadersAt(c.data, m, old(c.pos))
    ensures r.Success? ==> c.pos == r.value.end
  {
    var g := ReadMeshGroup(c);
    if g.Failure? {
      return Failure(g.error);
    }
    var base := m + g.value.tableOffset;
    c.Seek(base);
    var headers := ReadMeshTable(c, base, g.value.tableCount);
    if headers.Failure? {
      return Failure(headers.error);
    }
    return Success(GroupHeaders(headers.value, c.pos));
  }

  /** The groups from the one at p on, k of them, appended to the headers
      `acc` already read: each group's table is read at its offset from the
      models section m, and the next group record is read where that table
      ended (the cursor is not moved back to the group list). */
  function MeshGroupsFrom(data: seq<byte>, m: nat, p: nat, k: nat, acc: seq<MeshHeader>): Result<seq<MeshHeader>>
    decreases k
  {
    if k == 0 then Success(acc)
    else match GroupHeadersAt(data, m, p)
      case Failure(e) => Failure(e)
      case Success(group) => MeshGroupsFrom(data, m, group.end, k - 1, acc + group.headers)
  }

  /** The mesh headers of n groups, the first group record at p. */
  function MeshGroups(data: seq<byte>, m: nat, p: nat, n: nat): Result<seq<MeshHeader>>
  {
    MeshGroupsFrom(data, m, p, n, [])
  }

  /** The headers already read stay at the front. */
  lemma {:induction false} MeshGroupsKeepPrefix(data: seq<byte>, m: nat, p: nat, k: nat, acc: seq<MeshHeader>)
    requires MeshGroupsFrom(data, m, p, k, acc).Success?
    ensures acc <= MeshGroupsFrom(data, m, p, k, acc).value
    decreases k
  {
    if k > 0 {
      var group := GroupHeadersAt(data, m, p).value;
      MeshGroupsKeepPrefix(data, m, group.end, k - 1, acc + group.headers);
    }
  }

  /** Reads the n groups starting at p. The importer skips the seek to p when
      there are no groups; every later read seeks first, so the seek is
      unobservable and is made unconditionally here. */
  method ReadMeshGroups(c: Cursor, m: nat, p: nat, n: nat) returns (r: Result<seq<MeshHeader>>)
    modifies c
    ensures r == MeshGroups(c.data, m, p, n)
  {
    c.Seek(p);
    var headers: seq<MeshHeader> := [];
    var i := 0;
    while i < n
      invariant i <= n
      invariant MeshGroups(c.data, m, p, n) == MeshGroupsFrom(c.data, m, c.pos, n - i, headers)
    {
      var group := ReadGroupHeaders(c, m);
      if group.Failure? {
        return Failure(group.error);
      }
      headers := headers + group.value.headers;
      i := i + 1;
    }
    return Success(headers);
  }

  /** The first group's table holds the first mesh headers, record j at
      48 * j past the table's offset from the models section. */
  lemma FirstGroupLayout(data: seq<byte>, m: nat, p: nat, n: nat, j: nat)
    requires n > 0 && MeshGroups(data, m, p, n).Success?
    ensures MeshGroupAt(data, p).Success?
    ensures j < MeshGroupAt(data, p).value.tableCount ==>
      && j < |MeshGroups(data, m, p, n).value|
      && MeshHeaderAt(data, m + MeshGroupAt(data, p).value.tableOffset + 48 * j)
           == Success(MeshGroups(data, m, p, n).value[j])
  {
    var group := GroupHeadersAt(data, m, p).value;
    assert [] + group.headers == group.headers;
    MeshGroupsKeepPrefix(data, m, group.end, n - 1, group.headers);
    if j < MeshGroupAt(data, p).value.tableCount {
      GroupLayout(data, m, p, j);
    }
  }

  /** Header j of a group is the record 48 * j past its table's offset. */
  lemma GroupLayout(data: seq<byte>, m: nat, p: nat, j: nat)
    requires GroupHeadersAt(data, m, p).Success?
    requires j < MeshGroupAt(data, p).value.tableCount
    ensures j < |GroupHeadersAt(data, m, p).value.headers|
    ensures MeshHeaderAt(data, m + MeshGroupAt(data, p).value.tableOffset + 48 * j)
      == Success(GroupHeadersAt(data, m, p).value.headers[j])
  {
    var g := MeshGroupAt(data, p).value;
    MeshTableLayout(data, m + g.tableOffset, g.tableCount, j);
  }

  /** Entry j of a decoded mesh-header table is the record 48 * j past its start. */
  lemma MeshTableLayout(data: seq<byte>, base: nat, n: nat, j: nat)
    requires MeshTable(data, base, n).Success? && j < n
    ensures |MeshTable(data, base, n).value| == n
    ensures MeshHeaderAt(data, base + 48 * j) == Success(MeshTable(data, base, n).value[j])
  {
    TableEntry(n, MeshHeaderEntry(data, base), j);
    assert MeshHeaderEntry(data, base)(j) == MeshHeaderAt(data, base + 48 * j);
  }

  // ------------------------------------------------------------------ bones

  datatype BonesHeader = BonesHeader(count: nat, headerOffset: nat, matrixesOffset: nat)

  /** Seven u32: count, a second count, the header and matrix table offsets,
      two unknowns and the pairs offset. */
  function BonesHeaderAt(data: seq<byte>, off: nat): Result<BonesHeader>
  {
    match Words(data, off, 7)
    case Failure(e) => Failure(e)
    case Success(w) => Success(BonesHeader(w[0], w[2], w[3]))
  }

  method ReadBonesHeader(c: Cursor) returns (r: Result<BonesHeader>)
    modifies c
    ensures r == BonesHeaderAt(c.data, old(c.pos))
  {
    var w := c.ReadWords(7);
    if w.Failure? {
      return Failure(w.error);
    }
    return Success(BonesHeader(w.value[0], w.value[2], w.value[3]));
  }

  /** A bone's 64-byte matrix: the three axis rows and the translation row,
      the latter with every component negated as it is read. */
  datatype BoneMatrix = BoneMatrix(xAxis: seq<Word>, yAxis: seq<Word>, zAxis: seq<Word>, position: seq<Word>)

  /** A bone of the definition's skeleton: its name and its matrix. */
  datatype DefinitionBone = DefinitionBone(name: string, matrix: BoneMatrix)

  function NegateAll(ws: seq<Word>): (r: seq<Word>)
    ensures |r| == |ws|
    ensures forall k :: 0 <= k < |ws| ==> r[k] == Negate(ws[k])
  {
    seq(|ws|, k requires 0 <= k < |ws| => Negate(ws[k]))
  }

  /** Sixteen floats, four rows of four. */
  function BoneMatrixAt(data: seq<byte>, off: nat): Result<BoneMatrix>
  {
    match Words(data, off, 16)
    case Failure(e) => Failure(e)
    case Success(w) => Success(BoneMatrix(w[0..4], w[4..8], w[8..12], NegateAll(w[12..16])))
  }

  method ReadBoneMatrix(c: Cursor) returns (r: Result<BoneMatrix>)
    modifies c
    ensures r == BoneMatrixAt(c.data, old(c.pos))
  {
    var w := c.ReadWords(16);
    if w.Failure? {
      return Failure(w.error);
    }
    var rows := w.value;
    return Success(BoneMatrix(rows[0..4], rows[4..8], rows[8..12], NegateAll(rows[12..16])));
  }

  /** Bone b: a 24-byte header whose first four words are the name offset,
      an unknown, the type and the index, and a 64-byte matrix, both in
      tables relative to `base`. */
  function BoneAt(data: seq<byte>, base: nat, bh: BonesHeader, b: nat): Result<DefinitionBone>
  {
    match Words(data, base + bh.headerOffset + 24 * b, 4)
    case Failure(e) => Failure(e)
    case Success(header) => NamedBoneAt(data, base + header[0], base + bh.matrixesOffset + 64 * b)
  }

  /** A bone whose name is stored at `nameAt` and whose matrix at `matrixAt`. */
  function NamedBoneAt(data: seq<byte>, nameAt: nat, matrixAt: nat): Result<DefinitionBone>
  {
    match CStringAt(data, nameAt)
    case Failure(e) => Failure(e)
    case Success(name) =>
      match BoneMatrixAt(data, matrixAt)
      case Failure(e) => Failure(e)
      case Success(matrix) => Success(DefinitionBone(name, matrix))
  }

  method ReadNamedBone(c: Cursor, nameAt: nat, matrixAt: nat) returns (r: Result<DefinitionBone>)
    modifies c
    ensures r == NamedBoneAt(c.data, nameAt, matrixAt)
  {
    c.Seek(nameAt);
    var name := c.ReadCString();
    if name.Failure? {
      return Failure(name.error);
    }
    c.Seek(matrixAt);
    var matrix := ReadBoneMatrix(c);
    if matrix.Failure? {
      return Failure(matrix.error);
    }
    return Success(DefinitionBone(name.value, matrix.value));
  }

  function BoneEntry(data: seq<byte>, base: nat, bh: BonesHeader): nat -> Result<DefinitionBone>
  {
    (b: nat) => BoneAt(data, base, bh, b)
  }

  function BoneTable(data: seq<byte>, base: nat, bh: BonesHeader): Result<seq<DefinitionBone>>
  {
    Table(bh.count, BoneEntry(data, base, bh))
  }

  /** The bones of the table at `offset` from the models section m; an
      offset of 0 means the file has no skeleton. */
  function BonesAt(data: seq<byte>, m: nat, offset: nat): Result<seq<DefinitionBone>>
  {
    if offset == 0 then Success([])
    else match BonesHeaderAt(data, m + offset)
      case Failure(e) => Failure(e)
      case Success(bh) => BoneTable(data, m + offset, bh)
  }

  method ReadBone(c: Cursor, base: nat, bh: BonesHeader, b: nat) returns (r: Result<DefinitionBone>)
    modifies c
    ensures r == BoneAt(c.data, base, bh, b)
  {
    c.Seek(base + bh.headerOffset + 24 * b);
    var header := c.ReadWords(4);
    if header.Failure? {
      return Failure(header.error);
    }
    r := ReadNamedBone(c, base + header.value[0], base + bh.matrixesOffset + 64 * b);
  }

  method ReadBoneTable(c: Cursor, base: nat, bh: BonesHeader) returns (r: Result<seq<DefinitionBone>>)
    modifies c
    ensures r == BoneTable(c.data, base, bh)
  {
    var bones: seq<DefinitionBone> := [];
    var b := 0;
    ghost var entry := BoneEntry(c.data, base, bh);
    while b < bh.count
      invariant b <= bh.count
      invariant Table(b, entry) == Success(bones)
    {
      var bone := ReadBone(c, base, bh, b);
      assert entry(b) == bone;
      if bone.Failure? {
        TableFirstFailure(bh.count, entry, b);
        return Failure(bone.error);
      }
      TableStep(b, entry, bones, bone.value);
      bones := bones + [bone.value];
      b := b + 1;
    }
    return Success(bones);
  }

  method ReadBones(c: Cursor, m: nat, offset: nat) returns (r: Result<seq<DefinitionBone>>)
    modifies c
    ensures r == BonesAt(c.data, m, offset)
  {
    if offset == 0 {
      return Success([]);
    }
    c.Seek(m + offset);
    var bh := ReadBonesHeader(c);
    if bh.Failure? {
      return Failure(bh.error);
    }
    r := ReadBoneTable(c, m + offset, bh.value);
  }

  /** Negating a decoded translation row again gives back the stored
      fourth matrix row. */
  lemma MatrixLayout(data: seq<byte>, off: nat)
    requires BoneMatrixAt(data, off).Success?
    ensures off + 64 <= |data|
    ensures |BoneMatrixAt(data, off).value.position| == 4
    ensures forall k :: 0 <= k < 4 ==>
      Negate(BoneMatrixAt(data, off).value.position[k]) == WordAt(data, off + 48 + 4 * k)
  {
    var w := Words(data, off, 16).value;
    var position := BoneMatrixAt(data, off).value.position;
    forall k | 0 <= k < 4
      ensures Negate(position[k]) == WordAt(data, off + 48 + 4 * k)
    {
      assert position[k] == Negate(w[12 + k]);
      NegateTwice(w[12 + k]);
    }
  }

  /** A decoded bone carries the name its header points to and the matrix
      stored for its index. */
  lemma BoneLayout(data: seq<byte>, base: nat, bh: BonesHeader, b: nat)
    requires BoneAt(data, base, bh, b).Success?
    ensures base + bh.headerOffset + 24 * b + 16 <= |data|
    ensures CStringAt(data, base + U32(data, base + bh.headerOffset + 24 * b))
         == Success(BoneAt(data, base, bh, b).value.name)
    ensures BoneMatrixAt(data, base + bh.matrixesOffset + 64 * b) == Success(BoneAt(data, base, bh, b).value.matrix)
  {
  }

  /** The bone list holds one decoded bone per header entry, in order. */
  lemma BonesLayout(data: seq<byte>, base: nat, bh: BonesHeader, b: nat)
    requires BoneTable(data, base, bh).Success?
    ensures |BoneTable(data, base, bh).value| == bh.count
    ensures b < bh.count ==> BoneAt(data, base, bh, b) == Success(BoneTable(data, base, bh).value[b])
  {
    TableEntries(bh.count, BoneEntry(data, base, bh));
  }

  // ---------------------------------------------------------------- shapes

  /** Shape item i: two name offsets at 28 * i into the items table; both
      names are read and the first is kept. */
  function ShapeItemAt(data: seq<byte>, base: nat, head: TableHead, i: nat): Result<string>
  {
    match Words(data, base + head.offset + 28 * i, 2)
    case Failure(e) => Failure(e)
    case Success(offsets) => FirstOfTwoNames(data, base + offsets[0], base + offsets[1])
  }

  /** Reads the strings at a and at b, and keeps the first. */
  function FirstOfTwoNames(data: seq<byte>, a: nat, b: nat): Result<string>
  {
    match CStringAt(data, a)
    case Failure(e) => Failure(e)
    case Success(name1) =>
      match CStringAt(data, b)
      case Failure(e) => Failure(e)
      case Success(_) => Success(name1)
  }

  method ReadFirstOfTwoNames(c: Cursor, a: nat, b: nat) returns (r: Result<string>)
    modifies c
    ensures r == FirstOfTwoNames(c.data, a, b)
  {
    c.Seek(a);
    var name1 := c.ReadCString();
    if name1.Failure? {
      return name1;
    }
    c.Seek(b);
    var name2 := c.ReadCString();
    if name2.Failure? {
      return name2;
    }
    return name1;
  }

  function ShapeItemEntry(data: seq<byte>, base: nat, head: TableHead): nat -> Result<string>
  {
    (i: nat) => ShapeItemAt(data, base, head, i)
  }

  function ShapeItemTable(data: seq<byte>, base: nat, head: TableHead): Result<seq<string>>
  {
    Table(head.count, ShapeItemEntry(data, base, head))
  }

  /** The shape names of the items table at `offset` from the models section
      m; an offset of 0 means there is none. */
  function ShapeItemsAt(data: seq<byte>, m: nat, offset: nat): Result<seq<string>>
  {
    if offset == 0 then Success([])
    else match TableHeadAt(data, m + offset)
      case Failure(e) => Failure(e)
      case Success(head) => ShapeItemTable(data, m + offset, head)
  }

  method ReadShapeItem(c: Cursor, base: nat, head: TableHead, i: nat) returns (r: Result<string>)
    modifies c
    ensures r == ShapeItemAt(c.data, base, head, i)
  {
    c.Seek(base + head.offset + 28 * i);
    var offsets := c.ReadWords(2);
    if offsets.Failure? {
      return Failure(offsets.error);
    }
    r := ReadFirstOfTwoNames(c, base + offsets.value[0], base + offsets.value[1]);
  }

  method ReadShapeItemTable(c: Cursor, base: nat, head: TableHead) returns (r: Result<seq<string>>)
    modifies c
    ensures r == ShapeItemTable(c.data, base, head)
  {
    var names: seq<string> := [];
    var i := 0;
    ghost var entry := ShapeItemEntry(c.data, base, head);
    while i < head.count
      invariant i <= head.count
      invariant Table(i, entry) == Success(names)
    {
      var name := ReadShapeItem(c, base, head, i);
      assert entry(i) == name;
      if name.Failure? {
        TableFirstFailure(head.count, entry, i);
        return Failure(name.error);
      }
      TableStep(i, entry, names, name.value);
      names := names + [name.value];
      i := i + 1;
    }
    return Success(names);
  }

  method ReadShapeItems(c: Cursor, m: nat, offset: nat) returns (r: Result<seq<string>>)
    modifies c
    ensures r == ShapeItemsAt(c.data, m, offset)
  {
    if offset == 0 {
      return Success([]);
    }
    c.Seek(m + offset);
    var head := ReadTableHead(c);
    if head.Failure? {
      return Failure(head.error);
    }
    r := ReadShapeItemTable(c, m + offset, head.value);
  }

  /** Shape name i: a name offset at 16 * i into the names table. */
  function ShapeNameAt(data: seq<byte>, base: nat, head: TableHead, i: nat): Result<string>
  {
    var h := base + head.offset + 16 * i;
    if h + 4 > |data| then Failure(Truncated)
    else CStringAt(data, base + U32(data, h))
  }

  function ShapeNameEntry(data: seq<byte>, base: nat, head: TableHead): nat -> Result<string>
  {
    (i: nat) => ShapeNameAt(data, base, head, i)
  }

  function ShapeNameTable(data: seq<byte>, base: nat, head: TableHead): Result<seq<string>>
  {
    Table(head.count, ShapeNameEntry(data, base, head))
  }

  /** The names table at `offset` from the models section m; an offset of 0
      means there is none. */
  function ShapeNamesAt(data: seq<byte>, m: nat, offset: nat): Result<seq<string>>
  {
    if offset == 0 then Success([])
    else match TableHeadAt(data, m + offset)
      case Failure(e) => Failure(e)
      case Success(head) => ShapeNameTable(data, m + offset, head)
  }

  method ReadShapeName(c: Cursor, base: nat, head: TableHead, i: nat) returns (r: Result<string>)
    modifies c
    ensures r == ShapeNameAt(c.data, base, head, i)
  {
    c.Seek(base + head.offset + 16 * i);
    var offset := c.ReadU32();
    if offset.Failure? {
      return Failure(offset.error);
    }
    c.Seek(base + offset.value);
    r := c.ReadCString();
  }

  method ReadShapeNameTable(c: Cursor, base: nat, head: TableHead) returns (r: Result<seq<string>>)
    modifies c
    ensures r == ShapeNameTable(c.data, base, head)
  {
    var names: seq<string> := [];
    var i := 0;
    ghost var entry := ShapeNameEntry(c.data, base, head);
    while i < head.count
      invariant i <= head.count
      invariant Table(i, entry) == Success(names)
    {
      var name := ReadShapeName(c, base, head, i);
      assert entry(i) == name;
      if name.Failure? {
        TableFirstFailure(head.count, entry, i);
        return Failure(name.error);
      }
      TableStep(i, entry, names, name.value);
      names := names + [name.value];
      i := i + 1;
    }
    return Success(names);
  }

  method ReadShapeNames(c: Cursor, m: nat, offset: nat) returns (r: Result<seq<string>>)
    modifies c
    ensures r == ShapeNamesAt(c.data, m, offset)
  {
    if offset == 0 {
      return Success([]);
    }
    c.Seek(m + offset);
    var head := ReadTableHead(c);
    if head.Failure? {
      return Failure(head.error);
    }
    r := ReadShapeNameTable(c, m + offset, head.value);
  }

  /** A decoded items table holds one name per item; item i's record lies
      at `off`, and its name is the string at the first of the record's two
      offsets, the second of which also names a string. */
  lemma ShapeItemsLayout(data: seq<byte>, base: nat, head: TableHead, i: nat, off: nat)
    requires ShapeItemTable(data, base, head).Success?
    requires i < head.count && off == base + head.offset + 28 * i
    ensures |ShapeItemTable(data, base, head).value| == head.count
    ensures off + 8 <= |data|
    ensures CStringAt(data, base + U32(data, off)) == Success(ShapeItemTable(data, base, head).value[i])
    ensures CStringAt(data, base + U32(data, off + 4)).Success?
  {
    TableEntry(head.count, ShapeItemEntry(data, base, head), i);
    var w := Words(data, off, 2).value;
    assert w[0] == U32(data, off) && w[1] == U32(data, off + 4);
  }

  /** A decoded names table holds one name per record; record i lies at
      `off`, and its name is the string at the record's first offset. */
  lemma ShapeNamesLayout(data: seq<byte>, base: nat, head: TableHead, i: nat, off: nat)
    requires ShapeNameTable(data, base, head).Success?
    requires i < head.count && off == base + head.offset + 16 * i
    ensures |ShapeNameTable(data, base, head).value| == head.count
    ensures off + 4 <= |data|
    ensures CStringAt(data, base + U32(data, off)) == Success(ShapeNameTable(data, base, head).value[i])
  {
    TableEntry(head.count, ShapeNameEntry(data, base, head), i);
  }

  /** Everything the models section yields. The shape-name table is read
      (and can fail) but is not part of the package. */
  datatype ModelsSection = ModelsSection(
    meshHeaders: seq<MeshHeader>, bones: seq<DefinitionBone>,
    shapeHeaders: seq<string>, shapeNames: seq<string>)

  const NoModels := ModelsSection([], [], [], [])

  function ModelsSectionAt(data: seq<byte>, m: nat): Result<ModelsSection>
  {
    match ModelsHeaderAt(data, m)
    case Failure(e) => Failure(e)
    case Success(mh) => ModelsSectionFrom(data, m, mh)
  }

  /** The tables of the models section, read in the file's order. */
  function ModelsSectionFrom(data: seq<byte>, m: nat, mh: ModelsHeader): Result<ModelsSection>
  {
    var meshes :- MeshGroups(data, m, m + mh.meshDataOffset, mh.meshCount);
    var bones :- BonesAt(data, m, mh.bonesOffset);
    var shapes :- ShapeItemsAt(data, m, mh.shapeItemsOffset);
    var names :- ShapeNamesAt(data, m, mh.shapeNamesOffset);
    Success(ModelsSection(meshes, bones, shapes, names))
  }

  method ReadModelsSection(c: Cursor, m: nat) returns (r: Result<ModelsSection>)
    modifies c
    ensures r == ModelsSectionAt(c.data, m)
  {
    var mh := ReadModelsHeader(c, m);
    if mh.Failure? {
      return Failure(mh.error);
    }
    r := ReadModelsSectionFrom(c, m, mh.value);
  }

  method ReadModelsSectionFrom(c: Cursor, m: nat, mh: ModelsHeader) returns (r: Result<ModelsSection>)
    modifies c
    ensures r == ModelsSectionFrom(c.data, m, mh)
  {
    var meshes := ReadMeshGroups(c, m, m + mh.meshDataOffset, mh.meshCount);
    if meshes.Failure? {
      return Failure(meshes.error);
    }
    var bones := ReadBones(c, m, mh.bonesOffset);
    if bones.Failure? {
      return Failure(bones.error);
    }
    var shapes := ReadShapeItems(c, m, mh.shapeItemsOffset);
    if shapes.Failure? {
      return Failure(shapes.error);
    }
    var names := ReadShapeNames(c, m, mh.shapeNamesOffset);
    if names.Failure? {
      return Failure(names.error);
    }
    return Success(ModelsSection(meshes.value, bones.value, shapes.value, names.value));
  }

  // ------------------------------------------------------------- materials

  datatype MaterialsHeader = MaterialsHeader(
    headersOffset: nat, count: nat, extraDataOffset: nat, extraDataCount: nat)

  /** Six u32: record table offset and count, two unknowns, extra-data
      offset and count. */
  function MaterialsHeaderAt(data: seq<byte>, off: nat): Result<MaterialsHeader>
  {
    match Words(data, off, 6)
    case Failure(e) => Failure(e)
    case Success(w) => Success(MaterialsHeader(w[0], w[1], w[4], w[5]))
  }

  method ReadMaterialsHeader(c: Cursor) returns (r: Result<MaterialsHeader>)
    modifies c
    ensures r == MaterialsHeaderAt(c.data, old(c.pos))
  {
    var w := c.ReadWords(6);
    if w.Failure? {
      return Failure(w.error);
    }
    return Success(MaterialsHeader(w.value[0], w.value[1], w.value[4], w.value[5]));
  }

  /** A texture-table entry: the texture's index in the payload's texture
      list and three unknown u16. */
  datatype TextureRef = TextureRef(textureIndex: nat, unknown1: nat, unknown2: nat, unknown3: nat)

  function TextureRefAt(data: seq<byte>, off: nat): Result<TextureRef>
  {
    if off + 8 > |data| then Failure(Truncated)
    else Success(TextureRef(U16(data, off), U16(data, off + 2), U16(data, off + 4), U16(data, off + 6)))
  }

  function TextureRefEntry(data: seq<byte>, base: nat): nat -> Result<TextureRef>
  {
    (t: nat) => TextureRefAt(data, base + 8 * t)
  }

  function TextureTable(data: seq<byte>, base: nat, n: nat): Result<seq<TextureRef>>
  {
    Table(n, TextureRefEntry(data, base))
  }

  datatype Material = Material(
    index: nat, name: string, baseColour: seq<Word>, textureTable: seq<TextureRef>,
    mirrorFlags: nat, extraDataIndex: nat, extraData: seq<Word>)

  /** Material m's 116-byte record at `off`, 29 words: the name offset, two
      flag words, the base colour (words 3 to 6), a float, the texture
      table's offset and length (words 8 and 9), the mirror flags (word 10)
      and the start of its extra data (word 16). The name and texture table
      lie at offsets from the materials section `mat`. */
  function MaterialAt(data: seq<byte>, mat: nat, off: nat, m: nat): (r: Result<Material>)
    ensures r.Success? ==> r.value.index == m && r.value.extraData == []
  {
    match Words(data, off, 29)
    case Failure(e) => Failure(e)
    case Success(w) => MaterialFrom(data, mat, w, m)
  }

  /** The material a record's words describe, with its name and texture
      table looked up. */
  function MaterialFrom(data: seq<byte>, mat: nat, w: seq<Word>, m: nat): (r: Result<Material>)
    requires |w| == 29
    ensures r.Success? ==> r.value.index == m && r.value.extraData == []
  {
    match CStringAt(data, mat + w[0])
    case Failure(e) => Failure(e)
    case Success(name) =>
      match TextureTable(data, mat + w[8], w[9])
      case Failure(e) => Failure(e)
      case Success(textures) => Success(Material(m, name, w[3..7], textures, w[10], w[16], []))
  }

  method ReadTextureRef(c: Cursor) returns (r: Result<TextureRef>)
    modifies c
    ensures r == TextureRefAt(c.data, old(c.pos))
    ensures r.Success? ==> c.pos == old(c.pos) + 8
  {
    var index :- c.ReadU16();
    var unknown1 :- c.ReadU16();
    var unknown2 :- c.ReadU16();
    var unknown3 :- c.ReadU16();
    return Success(TextureRef(index, unknown1, unknown2, unknown3));
  }

  method ReadTextureTable(c: Cursor, base: nat, n: nat) returns (r: Result<seq<TextureRef>>)
    requires c.pos == base
    modifies c
    ensures r == TextureTable(c.data, base, n)
  {
    var refs: seq<TextureRef> := [];
    var t := 0;
    ghost var entry := TextureRefEntry(c.data, base);
    while t < n
      invariant t <= n && c.pos == base + 8 * t
      invariant Table(t, entry) == Success(refs)
    {
      var ref := ReadTextureRef(c);
      assert entry(t) == ref;
      if ref.Failure? {
        TableFirstFailure(n, entry, t);
        return Failure(ref.error);
      }
      TableStep(t, entry, refs, ref.value);
      refs := refs + [ref.value];
      t := t + 1;
    }
    return Success(refs);
  }

  /** Reads the record's words, then the name and texture table, and
      returns to the end of the record. */
  method ReadMaterial(c: Cursor, mat: nat, m: nat) returns (r: Result<Material>)
    modifies c
    ensures r == MaterialAt(c.data, mat, old(c.pos), m)
    ensures r.Success? ==> c.pos == old(c.pos) + 116
  {
    var w := c.ReadWords(29);
    if w.Failure? {
      return Failure(w.error);
    }
    var end := c.pos;
    r := ReadMaterialFrom(c, mat, w.value, m);
    c.Seek(end);
  }

  method ReadMaterialFrom(c: Cursor, mat: nat, w: seq<Word>, m: nat) returns (r: Result<Material>)
    requires |w| == 29
    modifies c
    ensures r == MaterialFrom(c.data, mat, w, m)
  {
    c.Seek(mat + w[0]);
    var name := c.ReadCString();
    if name.Failure? {
      return Failure(name.error);
    }
    c.Seek(mat + w[8]);
    var textures := ReadTextureTable(c, mat + w[8], w[9]);
    if textures.Failure? {
      return Failure(textures.error);
    }
    return Success(Material(m, name.value, w[3..7], textures.value, w[10], w[16], []));
  }

  function MaterialEntry(data: seq<byte>, mat: nat, base: nat): nat -> Result<Material>
  {
    (m: nat) => MaterialAt(data, mat, base + 116 * m, m)
  }

  function MaterialRecords(data: seq<byte>, mat: nat, mh: MaterialsHeader): Result<seq<Material>>
  {
    Table(mh.count, MaterialEntry(data, mat, mat + mh.headersOffset))
  }

  function MaterialExtraData(data: seq<byte>, mat: nat, mh: MaterialsHeader): Result<seq<Word>>
  {
    Words(data, mat + mh.extraDataOffset, mh.extraDataCount)
  }

  method ReadMaterialRecords(c: Cursor, mat: nat, mh: MaterialsHeader) returns (r: Result<seq<Material>>)
    requires c.pos == mat + mh.headersOffset
    modifies c
    ensures r == MaterialRecords(c.data, mat, mh)
  {
    var base := mat + mh.headersOffset;
    var materials: seq<Material> := [];
    var m := 0;
    ghost var entry := MaterialEntry(c.data, mat, base);
    while m < mh.count
      invariant m <= mh.count && c.pos == base + 116 * m
      invariant Table(m, entry) == Success(materials)
    {
      var material := ReadMaterial(c, mat, m);
      assert entry(m) == material;
      if material.Failure? {
        TableFirstFailure(mh.count, entry, m);
        return Failure(material.error);
      }
      TableStep(m, entry, materials, material.value);
      materials := materials + [material.value];
      m := m + 1;
    }
    return Success(materials);
  }

  /** Where each material's extra data starts in the shared array. */
  function ExtraStarts(materials: seq<Material>): (starts: seq<nat>)
    ensures |starts| == |materials|
    ensures forall k :: 0 <= k < |materials| ==> starts[k] == materials[k].extraDataIndex
  {
    seq(|materials|, k requires 0 <= k < |materials| => materials[k].extraDataIndex)
  }

  /** Material i receives slice i; more slices than materials is an index
      error, and materials past the last slice keep no extra data. */
  function WithExtraData(materials: seq<Material>, slices: seq<seq<Word>>): (r: Result<seq<Material>>)
    ensures r.Success? <==> |slices| <= |materials|
    ensures r.Success? ==> |r.value| == |materials|
    ensures r.Success? ==> forall k :: 0 <= k < |materials| ==>
      r.value[k].(extraData := materials[k].extraData) == materials[k]
    ensures r.Success? ==> forall k :: 0 <= k < |materials| ==>
      r.value[k].extraData == if k < |slices| then slices[k] else materials[k].extraData
  {
    if |slices| > |materials| then Failure(IndexOutOfRange)
    else Success(seq(|materials|, k requires 0 <= k < |materials| =>
                       if k < |slices| then materials[k].(extraData := slices[k]) else materials[k]))
  }

  method AttachExtraData(materials: seq<Material>, slices: seq<seq<Word>>) returns (r: Result<seq<Material>>)
    ensures r == WithExtraData(materials, slices)
  {
    var updated := materials;
    var i := 0;
    while i < |slices|
      invariant i <= |slices| && i <= |materials| && |updated| == |materials|
      invariant forall k :: 0 <= k < |materials| ==>
        updated[k] == if k < i then materials[k].(extraData := slices[k]) else materials[k]
    {
      if i >= |updated| {
        return Failure(IndexOutOfRange);
      }
      updated := updated[i := updated[i].(extraData := slices[i])];
      i := i + 1;
    }
    assert updated == WithExtraData(materials, slices).value;
    return Success(updated);
  }

  function MaterialsAt(data: seq<byte>, mat: nat): Result<seq<Material>>
  {
    match MaterialsHeaderAt(data, mat)
    case Failure(e) => Failure(e)
    case Success(mh) => MaterialsFrom(data, mat, mh)
  }

  /** The records, then the shared extra data, split and attached. */
  function MaterialsFrom(data: seq<byte>, mat: nat, mh: MaterialsHeader): Result<seq<Material>>
  {
    match MaterialRecords(data, mat, mh)
    case Failure(e) => Failure(e)
    case Success(records) =>
      match MaterialExtraData(data, mat, mh)
      case Failure(e) => Failure(e)
      case Success(extra) =>
        match Split(ExtraStarts(records), extra)
        case Failure(e) => Failure(e)
        case Success(slices) => WithExtraData(records, slices)
  }

  method ReadMaterials(c: Cursor, mat: nat) returns (r: Result<seq<Material>>)
    modifies c
    ensures r == MaterialsAt(c.data, mat)
  {
    c.Seek(mat);
    var mh := ReadMaterialsHeader(c);
    if mh.Failure? {
      return Failure(mh.error);
    }
    r := ReadMaterialsFrom(c, mat, mh.value);
  }

  method ReadMaterialsFrom(c: Cursor, mat: nat, mh: MaterialsHeader) returns (r: Result<seq<Material>>)
    modifies c
    ensures r == MaterialsFrom(c.data, mat, mh)
  {
    c.Seek(mat + mh.headersOffset);
    var records := ReadMaterialRecords(c, mat, mh);
    if records.Failure? {
      return Failure(records.error);
    }
    c.Seek(mat + mh.extraDataOffset);
    var extra := c.ReadWords(mh.extraDataCount);
    if extra.Failure? {
      return Failure(extra.error);
    }
    var slices := SplitExtraData(ExtraStarts(records.value), extra.value);
    if slices.Failure? {
      return Failure(slices.error);
    }
    r := AttachExtraData(records.value, slices.value);
  }

  /** The steps of a successful materials decode. */
  lemma MaterialsSteps(data: seq<byte>, mat: nat)
    requires MaterialsAt(data, mat).Success?
    ensures MaterialsHeaderAt(data, mat).Success?
    ensures var mh := MaterialsHeaderAt(data, mat).value;
      && MaterialRecords(data, mat, mh).Success?
      && MaterialExtraData(data, mat, mh).Success?
      && Split(ExtraStarts(MaterialRecords(data, mat, mh).value), MaterialExtraData(data, mat, mh).value).Success?
      && MaterialsAt(data, mat) == WithExtraData(MaterialRecords(data, mat, mh).value,
           Split(ExtraStarts(MaterialRecords(data, mat, mh).value), MaterialExtraData(data, mat, mh).value).value)
  {
  }

  /** A decoded record table has one material per record. */
  lemma RecordCount(data: seq<byte>, mat: nat, mh: MaterialsHeader)
    requires MaterialRecords(data, mat, mh).Success?
    ensures |MaterialRecords(data, mat, mh).value| == mh.count
  {
    TableEntries(mh.count, MaterialEntry(data, mat, mat + mh.headersOffset));
  }

  /** Record k of a decoded record table is the material its 116-byte
      record describes, and carries no extra data yet. */
  lemma RecordLayout(data: seq<byte>, mat: nat, mh: MaterialsHeader, k: nat)
    requires MaterialRecords(data, mat, mh).Success? && k < mh.count
    ensures k < |MaterialRecords(data, mat, mh).value|
    ensures MaterialAt(data, mat, mat + mh.headersOffset + 116 * k, k) == Success(MaterialRecords(data, mat, mh).value[k])
    ensures MaterialRecords(data, mat, mh).value[k].extraData == []
  {
    var base := mat + mh.headersOffset;
    var entry := MaterialEntry(data, mat, base);
    TableEntry(mh.count, entry, k);
    assert entry(k) == MaterialAt(data, mat, base + 116 * k, k);
  }

  /** Freshly decoded records carry no extra data. */
  lemma RecordsWithoutExtraData(data: seq<byte>, mat: nat, mh: MaterialsHeader)
    requires MaterialRecords(data, mat, mh).Success?
    ensures forall k :: 0 <= k < |MaterialRecords(data, mat, mh).value| ==>
      MaterialRecords(data, mat, mh).value[k].extraData == []
  {
    RecordCount(data, mat, mh);
    forall k | 0 <= k < |MaterialRecords(data, mat, mh).value|
      ensures MaterialRecords(data, mat, mh).value[k].extraData == []
    {
      RecordLayout(data, mat, mh, k);
    }
  }

  /** The decoded materials are the records of the table in order, each with
      only its extra data attached. */
  lemma MaterialLayout(data: seq<byte>, mat: nat, k: nat)
    requires MaterialsAt(data, mat).Success?
    ensures |MaterialsAt(data, mat).value| == MaterialsHeaderAt(data, mat).value.count
    ensures k < |MaterialsAt(data, mat).value| ==>
      var mh := MaterialsHeaderAt(data, mat).value;
      MaterialAt(data, mat, mat + mh.headersOffset + 116 * k, k)
        == Success(MaterialsAt(data, mat).value[k].(extraData := []))
  {
    MaterialsSteps(data, mat);
    var mh := MaterialsHeaderAt(data, mat).value;
    var records := MaterialRecords(data, mat, mh).value;
    var slices := Split(ExtraStarts(records), MaterialExtraData(data, mat, mh).value).value;
    var materials := WithExtraData(records, slices).value;
    RecordCount(data, mat, mh);
    if k < mh.count {
      RecordLayout(data, mat, mh, k);
      assert materials[k].(extraData := records[k].extraData) == records[k];
      assert materials[k].(extraData := []) == records[k];
    }
  }

  /** Concatenating n slices padded with empty ones changes nothing. */
  lemma {:induction false} FlattenPadded<T>(slices: seq<seq<T>>, n: nat)
    requires |slices| <= n
    ensures Flatten(seq(n, k requires 0 <= k < n => if k < |slices| then slices[k] else [])) == Flatten(slices)
  {
    var padded := seq(n, k requires 0 <= k < n => if k < |slices| then slices[k] else []);
    if n == |slices| {
      assert padded == slices;
    } else {
      FlattenPadded(slices, n - 1);
      assert padded[..n - 1] == seq(n - 1, k requires 0 <= k < n - 1 => if k < |slices| then slices[k] else []);
    }
  }

  /** Attaching slices to records without extra data, then concatenating the
      records' extra data, gives the slices concatenated. */
  lemma FlattenAttached(records: seq<Material>, slices: seq<seq<Word>>)
    requires |slices| <= |records|
    requires forall k :: 0 <= k < |records| ==> records[k].extraData == []
    ensures var materials := WithExtraData(records, slices).value;
      Flatten(seq(|materials|, k requires 0 <= k < |materials| => materials[k].extraData)) == Flatten(slices)
  {
    var materials := WithExtraData(records, slices).value;
    FlattenPadded(slices, |records|);
    assert seq(|materials|, k requires 0 <= k < |materials| => materials[k].extraData)
        == seq(|records|, k requires 0 <= k < |records| => if k < |slices| then slices[k] else []);
  }

  /** When material extra data is laid out as intended (the first material at
      0, starts increasing, at most the sentinel's worth of values), the
      materials' extra data concatenated in material order is exactly the
      shared array. */
  lemma ExtraDataPartition(data: seq<byte>, mat: nat)
    requires MaterialsAt(data, mat).Success?
    requires OrderedStarts(ExtraStarts(MaterialsAt(data, mat).value))
    requires MaterialsHeaderAt(data, mat).value.extraDataCount <= Sentinel
    ensures var materials := MaterialsAt(data, mat).value;
      Flatten(seq(|materials|, k requires 0 <= k < |materials| => materials[k].extraData))
        == MaterialExtraData(data, mat, MaterialsHeaderAt(data, mat).value).value
  {
    MaterialsSteps(data, mat);
    var mh := MaterialsHeaderAt(data, mat).value;
    var records := MaterialRecords(data, mat, mh).value;
    var extra := MaterialExtraData(data, mat, mh).value;
    var starts := ExtraStarts(records);
    var slices := Split(starts, extra).value;
    RecordsWithoutExtraData(data, mat, mh);
    assert ExtraStarts(MaterialsAt(data, mat).value) == starts;
    SplitMatchesSlices(starts, extra);
    SlicesConcatenate(starts, extra);
    FlattenAttached(records, slices);
  }

  // ---------------------------------------------------------------- package

  /** What the definition import returns: the skeleton's bones, the mesh
      headers, the shape names of the items table and the materials. */
  datatype DefinitionPackage = DefinitionPackage(
    bones: seq<DefinitionBone>, meshHeaders: seq<MeshHeader>,
    shapeHeaders: seq<string>, materials: seq<Material>)

  /** The models section, when its offset is set. */
  function ModelsIn(data: seq<byte>, offset: nat): Result<ModelsSection>
  {
    if offset == 0 then Success(NoModels) else ModelsSectionAt(data, offset)
  }

  /** The materials section, when its offset is set. */
  function MaterialsIn(data: seq<byte>, offset: nat): Result<seq<Material>>
  {
    if offset == 0 then Success([]) else MaterialsAt(data, offset)
  }

  function DefinitionOf(data: seq<byte>): Result<DefinitionPackage>
  {
    if Take(data, 0, 4) != DefinitionMagic then Failure(BadMagic)
    else match HeaderAt(data)
      case Failure(e) => Failure(e)
      case Success(h) => PackageFrom(data, h)
  }

  function PackageFrom(data: seq<byte>, h: Header): Result<DefinitionPackage>
  {
    match ModelsIn(data, h.modelsOffset)
    case Failure(e) => Failure(e)
    case Success(models) =>
      match MaterialsIn(data, h.materialsOffset)
      case Failure(e) => Failure(e)
      case Success(materials) =>
        Success(DefinitionPackage(models.bones, models.meshHeaders, models.shapeHeaders, materials))
  }

  method ReadModelsIn(c: Cursor, offset: nat) returns (r: Result<ModelsSection>)
    modifies c
    ensures r == ModelsIn(c.data, offset)
  {
    if offset == 0 {
      return Success(NoModels);
    }
    r := ReadModelsSection(c, offset);
  }

  method ReadMaterialsIn(c: Cursor, offset: nat) returns (r: Result<seq<Material>>)
    modifies c
    ensures r == MaterialsIn(c.data, offset)
  {
    if offset == 0 {
      return Success([]);
    }
    r := ReadMaterials(c, offset);
  }

  /** The definition import: checks the magic, reads the header, the models
      section and the materials section, each only when its offset is set. */
  method ImportDefinition(data: seq<byte>) returns (r: Result<DefinitionPackage>)
    ensures r == DefinitionOf(data)
    ensures r.Success? ==> |data| >= 40 && data[..4] == DefinitionMagic
  {
    var c := new Cursor(data);
    var magic := c.Read(4);
    if magic != DefinitionMagic {
      return Failure(BadMagic);
    }
    var h := ReadHeader(c);
    if h.Failure? {
      return Failure(h.error);
    }
    r := ReadPackage(c, h.value);
  }

  method ReadPackage(c: Cursor, h: Header) returns (r: Result<DefinitionPackage>)
    modifies c
    ensures r == PackageFrom(c.data, h)
  {
    var models := ReadModelsIn(c, h.modelsOffset);
    if models.Failure? {
      return Failure(models.error);
    }
    var materials := ReadMaterialsIn(c, h.materialsOffset);
    if materials.Failure? {
      return Failure(materials.error);
    }
    var ms := models.value;
    return Success(DefinitionPackage(ms.bones, ms.meshHeaders, ms.shapeHeaders, materials.value));
  }

  /** A file without the magic is rejected before anything else is read,
      whatever follows it. */
  lemma MagicDecides(data: seq<byte>, rest: seq<byte>)
    requires |data| >= 4 && data[..4] != DefinitionMagic
    ensures DefinitionOf(data) == Failure(BadMagic)
    ensures DefinitionOf(data + rest) == Failure(BadMagic)
  {
    assert (data + rest)[..4] == data[..4];
  }
}
