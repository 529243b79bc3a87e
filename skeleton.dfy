/** The skeleton import: the game table, then the "1RAS" (SAR1) archive of
    the games that use one, its table of contents, and the "SKEL" skeletons
    of the entries whose names mark them as skeletons.

    An archive entry holds a "BC" block whose data starts with "SKEL",
    followed by a table of ten items (offset, count). Item 2 holds the
    bones' parents (u16 each), item 3 their name offsets (16 bytes each),
    item 4 their transforms (twelve words each); items 6, 7 and 8 hold the
    same for the endpoints, whose name records are 8 bytes. Every offset is
    relative to the entry. Transforms are stored as position x,y,z,w,
    rotation x,y,z,w and scale x,y,z,w, and the rotation is handed on as
    w,x,y,z. Float fields are kept as their 32-bit patterns. */
module Skeleton {
  import opened Bytes
  import opened Results
  import opened Reader
  import opened Tables
  import opened Lists
  import opened Text

  // ------------------------------------------------------------ game table

  datatype Game = XC1 | XCX | XC2 | XC1DE | XC3

  datatype Endian = Big | Little

  function ExpectedExtension(g: Game): string
  {
    match g
    case XC1 => ".brres"
    case XCX => ".xcx"
    case XC2 => ".arc"
    case XC1DE => ".chr"
    case XC3 => ".chr"
  }

  function ModelFormat(g: Game): string
  {
    match g
    case XC1 => "BRES"
    case XCX => "[xcx]"
    case _ => "SAR1"
  }

  function Endianness(g: Game): Endian
  {
    if g == XC1 || g == XCX then Big else Little
  }

  /** What the importer does with a format name. */
  datatype Branch = NotYetSupported | ParseArchive | UnknownBranch

  /** The format dispatch as the importer writes it: its second test
      compares the format name against ".xcx", the XCX file extension,
      which is no format name. */
  function BranchAsWritten(format: string): Branch
  {
    if format == "BRES" then NotYetSupported
    else if format == ".xcx" then NotYetSupported
    else if format == "SAR1" then ParseArchive
    else UnknownBranch
  }

  /** The dispatch as intended: the XCX format name reaches the "not yet
      supported" branch. */
  function FormatBranch(format: string): Branch
  {
    if format == "BRES" || format == "[xcx]" then NotYetSupported
    else if format == "SAR1" then ParseArchive
    else UnknownBranch
  }

  /** As written, XCX falls through to "Unknown format"; every other game
      is dispatched as intended. */
  lemma XcxFallsThrough()
    ensures BranchAsWritten(ModelFormat(XCX)) == UnknownBranch
    ensures forall g: Game :: g != XCX ==> BranchAsWritten(ModelFormat(g)) == FormatBranch(ModelFormat(g))
  {
    assert ModelFormat(XCX) != ".xcx" by {
      assert ModelFormat(XCX)[0] == '[';
    }
  }

  /** Every game's format has a branch: BRES and XCX are not supported yet,
      and the three SAR1 games, all little-endian, are parsed. */
  lemma FormatBranchSpec()
    ensures forall g: Game :: FormatBranch(ModelFormat(g)) != UnknownBranch
    ensures forall g: Game :: FormatBranch(ModelFormat(g)) == ParseArchive <==> g == XC2 || g == XC1DE || g == XC3
    ensures forall g: Game :: FormatBranch(ModelFormat(g)) == ParseArchive ==> Endianness(g) == Little
  {
  }

  // -------------------------------------------------------- archive header

  /** "1RAS" */
  const ArchiveMagic: seq<byte> := [0x31, 0x52, 0x41, 0x53]

  /** The archive's entry count, where its table of contents starts, and
      its path string. */
  datatype ArchiveHeader = ArchiveHeader(fileCount: nat, tocOffset: nat, path: string)

  /** The magic, seven words (size, version, entry count, table offset,
      data offset and two unknowns) and the path. */
  function ArchiveHeaderAt(data: seq<byte>): Result<ArchiveHeader>
  {
    if Take(data, 0, 4) != ArchiveMagic then Failure(BadMagic)
    else
      match Words(data, 4, 7)
      case Failure(e) => Failure(e)
      case Success(w) =>
        match CStringAt(data, 32)
        case Failure(e) => Failure(e)
        case Success(path) => Success(ArchiveHeader(w[2], w[3], path))
  }

  method ReadArchiveHeader(c: Cursor) returns (r: Result<ArchiveHeader>)
    requires c.pos == 0
    modifies c
    ensures r == ArchiveHeaderAt(c.data)
  {
    var magic := c.Read(4);
    if magic != ArchiveMagic {
      return Failure(BadMagic);
    }
    var w := c.ReadWords(7);
    if w.Failure? {
      return Failure(w.error);
    }
    var path := c.ReadCString();
    if path.Failure? {
      return Failure(path.error);
    }
    return Success(ArchiveHeader(w.value[2], w.value[3], path.value));
  }

  /** An entry of the table of contents: where its data lies, its size and
      its name. */
  datatype TocEntry = TocEntry(offset: nat, size: nat, name: string)

  /** The 0x40-byte entry at `at`: three words and the name. */
  function TocEntryAt(data: seq<byte>, at: nat): Result<TocEntry>
  {
    match Words(data, at, 3)
    case Failure(e) => Failure(e)
    case Success(w) =>
      match CStringAt(data, at + 12)
      case Failure(e) => Failure(e)
      case Success(name) => Success(TocEntry(w[0], w[1], name))
  }

  method ReadTocEntry(c: Cursor, at: nat) returns (r: Result<TocEntry>)
    modifies c
    ensures r == TocEntryAt(c.data, at)
  {
    c.Seek(at);
    var w := c.ReadWords(3);
    if w.Failure? {
      return Failure(w.error);
    }
    var name := c.ReadCString();
    if name.Failure? {
      return Failure(name.error);
    }
    return Success(TocEntry(w.value[0], w.value[1], name.value));
  }

  // ------------------------------------------------------------ skeleton

  /** "BC\0\0" */
  const BlockMagic: seq<byte> := [0x42, 0x43, 0x00, 0x00]
  /** "LCHC" */
  const SkippedMagic: seq<byte> := [0x4C, 0x43, 0x48, 0x43]
  /** "SKEL" */
  const SkelMagic: seq<byte> := [0x53, 0x4B, 0x45, 0x4C]

  /** The word of a float 0.0 (either sign) and of 1.0. */
  predicate IsZeroFloat(w: Word)
  {
    w == 0 || w == 0x8000_0000
  }

  const FloatOne: Word := 0x3F80_0000

  /** The substring that marks an entry as a skeleton. */
  function SkeletonFilename(g: Game): string
  {
    if g == XC3 then "skeleton" else ".skl"
  }

  /** An item of the skeleton's table: where its records start and how many
      there are. */
  datatype TocItem = TocItem(offset: nat, count: nat)

  function TocItemAt(data: seq<byte>, off: nat): Result<TocItem>
  {
    match Words(data, off, 4)
    case Failure(e) => Failure(e)
    case Success(w) => Success(TocItem(w[0], w[2]))
  }

  function TocItemEntry(data: seq<byte>, base: nat): nat -> Result<TocItem>
  {
    (j: nat) => TocItemAt(data, base + 16 * j)
  }

  /** The ten items, read one after the other from `base`. */
  function TocItems(data: seq<byte>, base: nat): Result<seq<TocItem>>
  {
    Table(10, TocItemEntry(data, base))
  }

  method ReadTocItems(c: Cursor, base: nat) returns (r: Result<seq<TocItem>>)
    requires c.pos == base
    modifies c
    ensures r == TocItems(c.data, base)
  {
    ghost var entry := TocItemEntry(c.data, base);
    var items: seq<TocItem> := [];
    var j := 0;
    while j < 10
      invariant j <= 10 && c.pos == base + 16 * j
      invariant Table(j, entry) == Success(items)
    {
      var w := c.ReadWords(4);
      assert entry(j) == TocItemAt(c.data, base + 16 * j);
      if w.Failure? {
        TableFirstFailure(10, entry, j);
        return Failure(w.error);
      }
      var item := TocItem(w.value[0], w.value[2]);
      TableStep(j, entry, items, item);
      items := items + [item];
      j := j + 1;
    }
    return Success(items);
  }

  /** A bone's transform. */
  datatype Transform = Transform(position: seq<Word>, rotation: seq<Word>, scale: seq<Word>)

  /** The twelve stored words as a transform: the rotation reordered to
      w,x,y,z, and an endpoint's position weight 0.0 made 1.0 (0.0 would
      place it relative to the root). */
  function TransformOf(t: seq<Word>, endpoint: bool): Transform
    requires |t| == 12
  {
    var pw := if endpoint && IsZeroFloat(t[3]) then FloatOne else t[3];
    Transform([t[0], t[1], t[2], pw], [t[7], t[4], t[5], t[6]], t[8..12])
  }

  datatype SkeletonBone = SkeletonBone(parent: nat, name: string, transform: Transform, endpoint: bool)

  /** A bone whose parent is at `parentAt`, whose name offset (from the
      entry) is at `nameAt`, and whose transform is at `dataAt`. */
  function BoneAt(data: seq<byte>, entry: nat, parentAt: nat, nameAt: nat, dataAt: nat, endpoint: bool)
    : Result<SkeletonBone>
  {
    if parentAt + 2 > |data| then Failure(Truncated)
    else if nameAt + 4 > |data| then Failure(Truncated)
    else NamedBoneAt(data, U16(data, parentAt), entry + U32(data, nameAt), dataAt, endpoint)
  }

  function NamedBoneAt(data: seq<byte>, parent: nat, nameAt: nat, dataAt: nat, endpoint: bool): Result<SkeletonBone>
  {
    match CStringAt(data, nameAt)
    case Failure(e) => Failure(e)
    case Success(name) =>
      match Words(data, dataAt, 12)
      case Failure(e) => Failure(e)
      case Success(t) => Success(SkeletonBone(parent, name, TransformOf(t, endpoint), endpoint))
  }

  method ReadBone(c: Cursor, entry: nat, parentAt: nat, nameAt: nat, dataAt: nat, endpoint: bool)
    returns (r: Result<SkeletonBone>)
    modifies c
    ensures r == BoneAt(c.data, entry, parentAt, nameAt, dataAt, endpoint)
  {
    c.Seek(parentAt);
    var parent := c.ReadU16();
    if parent.Failure? {
      return Failure(parent.error);
    }
    c.Seek(nameAt);
    var nameOffset := c.ReadU32();
    if nameOffset.Failure? {
      return Failure(nameOffset.error);
    }
    r := ReadNamedBone(c, parent.value, entry + nameOffset.value, dataAt, endpoint);
  }

  method ReadNamedBone(c: Cursor, parent: nat, nameAt: nat, dataAt: nat, endpoint: bool) returns (r: Result<SkeletonBone>)
    modifies c
    ensures r == NamedBoneAt(c.data, parent, nameAt, dataAt, endpoint)
  {
    c.Seek(nameAt);
    var name := c.ReadCString();
    if name.Failure? {
      return Failure(name.error);
    }
    c.Seek(dataAt);
    var t := c.ReadWords(12);
    if t.Failure? {
      return Failure(t.error);
    }
    return Success(SkeletonBone(parent, name.value, TransformOf(t.value, endpoint), endpoint));
  }

  /** Bone b of the records described by three items; names are `stride`
      bytes apart (see `BoneLayout`). */
  function BoneEntry(data: seq<byte>, entry: nat, parents: TocItem, names: TocItem, transforms: TocItem,
                     stride: nat, endpoint: bool)
    : nat -> Result<SkeletonBone>
  {
    (b: nat) => BoneAt(data, entry, entry + parents.offset + 2 * b, RecordOffset(entry + names.offset, stride, b),
                       entry + transforms.offset + 48 * b, endpoint)
  }

  function BoneTable(data: seq<byte>, entry: nat, parents: TocItem, names: TocItem, transforms: TocItem,
                     stride: nat, endpoint: bool)
    : Result<seq<SkeletonBone>>
  {
    Table(parents.count, BoneEntry(data, entry, parents, names, transforms, stride, endpoint))
  }

  /** Bone b of a table, read with the offset of its name record carried in. */
  method ReadBoneEntry(c: Cursor, entry: nat, parents: TocItem, names: TocItem, transforms: TocItem,
                       stride: nat, endpoint: bool, b: nat, nameAt: nat)
    returns (r: Result<SkeletonBone>)
    requires nameAt == RecordOffset(entry + names.offset, stride, b)
    modifies c
    ensures r == BoneEntry(c.data, entry, parents, names, transforms, stride, endpoint)(b)
  {
    r := ReadBone(c, entry, entry + parents.offset + 2 * b, nameAt, entry + transforms.offset + 48 * b, endpoint);
  }

  method ReadBoneTable(c: Cursor, entry: nat, parents: TocItem, names: TocItem, transforms: TocItem,
                       stride: nat, endpoint: bool)
    returns (r: Result<seq<SkeletonBone>>)
    modifies c
    ensures r == BoneTable(c.data, entry, parents, names, transforms, stride, endpoint)
  {
    ghost var f := BoneEntry(c.data, entry, parents, names, transforms, stride, endpoint);
    var bones: seq<SkeletonBone> := [];
    var b := 0;
    var nameAt: nat := entry + names.offset;
    while b < parents.count
      invariant b <= parents.count && nameAt == RecordOffset(entry + names.offset, stride, b)
      invariant Table(b, f) == Success(bones)
    {
      var bone := ReadBoneEntry(c, entry, parents, names, transforms, stride, endpoint, b, nameAt);
      if bone.Failure? {
        TableFirstFailure(parents.count, f, b);
        return Failure(bone.error);
      }
      TableStep(b, f, bones, bone.value);
      bones := bones + [bone.value];
      b := b + 1;
      nameAt := nameAt + stride;
    }
    return Success(bones);
  }

  /** Bone counts that disagree cancel the import; the bones come first,
      then (when asked for) the endpoints. An endpoint count mismatch is
      only a warning: the endpoints are read with the count of item 6. */
  function BonesOf(data: seq<byte>, entry: nat, items: seq<TocItem>, importEndpoints: bool): Result<seq<SkeletonBone>>
    requires |items| == 10
  {
    if items[2].count != items[3].count || items[3].count != items[4].count then Failure(CountMismatch)
    else
      match BoneTable(data, entry, items[2], items[3], items[4], 16, false)
      case Failure(e) => Failure(e)
      case Success(bones) =>
        if !importEndpoints then Success(bones)
        else
          match BoneTable(data, entry, items[6], items[7], items[8], 8, true)
          case Failure(e) => Failure(e)
          case Success(endpoints) => Success(bones + endpoints)
  }

  method ReadBones(c: Cursor, entry: nat, items: seq<TocItem>, importEndpoints: bool) returns (r: Result<seq<SkeletonBone>>)
    requires |items| == 10
    modifies c
    ensures r == BonesOf(c.data, entry, items, importEndpoints)
  {
    if items[2].count != items[3].count || items[3].count != items[4].count {
      return Failure(CountMismatch);
    }
    var bones := ReadBoneTable(c, entry, items[2], items[3], items[4], 16, false);
    if bones.Failure? || !importEndpoints {
      return bones;
    }
    var endpoints := ReadBoneTable(c, entry, items[6], items[7], items[8], 8, true);
    if endpoints.Failure? {
      return Failure(endpoints.error);
    }
    return Success(bones.value + endpoints.value);
  }

  /** The skeleton whose "SKEL" magic is expected at `at`; its item table
      follows the magic and two unknown words. */
  function SkelAt(data: seq<byte>, entry: nat, at: nat, importEndpoints: bool): Result<seq<SkeletonBone>>
  {
    if Take(data, at, 4) != SkelMagic then Failure(BadMagic)
    else
      match TocItems(data, at + 12)
      case Failure(e) => Failure(e)
      case Success(items) =>
        TableEntries(10, TocItemEntry(data, at + 12));
        BonesOf(data, entry, items, importEndpoints)
  }

  method ReadSkel(c: Cursor, entry: nat, at: nat, importEndpoints: bool) returns (r: Result<seq<SkeletonBone>>)
    modifies c
    ensures r == SkelAt(c.data, entry, at, importEndpoints)
  {
    c.Seek(at);
    var magic := c.Read(4);
    if magic != SkelMagic {
      return Failure(BadMagic);
    }
    c.Skip(8);
    var items := ReadTocItems(c, at + 12);
    if items.Failure? {
      return Failure(items.error);
    }
    TableEntries(10, TocItemEntry(c.data, at + 12));
    r := ReadBones(c, entry, items.value, importEndpoints);
  }

  /** What one entry of the table of contents yields: nothing when its name
      does not mark a skeleton, otherwise what its block yields. */
  function EntrySkeleton(data: seq<byte>, e: TocEntry, g: Game, importEndpoints: bool): Result<Option<seq<SkeletonBone>>>
  {
    if !Contains(e.name, SkeletonFilename(g)) then Success(None)
    else BlockSkeleton(data, e.offset, importEndpoints)
  }

  /** The block at `offset`: nothing when it is an "LCHC" block or not a
      "BC" block (reported); otherwise the skeleton whose data offset is the
      block header's fourth word. */
  function BlockSkeleton(data: seq<byte>, offset: nat, importEndpoints: bool): Result<Option<seq<SkeletonBone>>>
  {
    if Take(data, offset, 4) == SkippedMagic then Success(None)
    else if Take(data, offset, 4) != BlockMagic then Success(None)
    else
      match Words(data, offset + 4, 4)
      case Failure(err) => Failure(err)
      case Success(h) =>
        match SkelAt(data, offset, offset + h[3] + 4, importEndpoints)
        case Failure(err) => Failure(err)
        case Success(bones) => Success(Some(bones))
  }

  method ReadEntrySkeleton(c: Cursor, e: TocEntry, g: Game, importEndpoints: bool)
    returns (r: Result<Option<seq<SkeletonBone>>>)
    modifies c
    ensures r == EntrySkeleton(c.data, e, g, importEndpoints)
  {
    if !Contains(e.name, SkeletonFilename(g)) {
      return Success(None);
    }
    r := ReadBlockSkeleton(c, e.offset, importEndpoints);
  }

  method ReadBlockSkeleton(c: Cursor, offset: nat, importEndpoints: bool) returns (r: Result<Option<seq<SkeletonBone>>>)
    modifies c
    ensures r == BlockSkeleton(c.data, offset, importEndpoints)
  {
    c.Seek(offset);
    var magic := c.Read(4);
    if magic == SkippedMagic || magic != BlockMagic {
      return Success(None);
    }
    var h := c.ReadWords(4);
    if h.Failure? {
      return Failure(h.error);
    }
    var bones := ReadSkel(c, offset, offset + h.value[3] + 4, importEndpoints);
    if bones.Failure? {
      return Failure(bones.error);
    }
    return Success(Some(bones.value));
  }

  /** Entry i of the table of contents and what it yields. */
  function EntryAt(data: seq<byte>, h: ArchiveHeader, g: Game, importEndpoints: bool, i: nat)
    : Result<Option<seq<SkeletonBone>>>
  {
    match TocEntryAt(data, h.tocOffset + 0x40 * i)
    case Failure(e) => Failure(e)
    case Success(e) => EntrySkeleton(data, e, g, importEndpoints)
  }

  function EntryOutcome(data: seq<byte>, h: ArchiveHeader, g: Game, importEndpoints: bool)
    : nat -> Result<Option<seq<SkeletonBone>>>
  {
    (i: nat) => EntryAt(data, h, g, importEndpoints, i)
  }

  /** The skeletons of the first k entries, in entry order. */
  function ArchiveSkeletons(data: seq<byte>, h: ArchiveHeader, g: Game, importEndpoints: bool, k: nat)
    : Result<seq<seq<SkeletonBone>>>
    requires k <= h.fileCount
  {
    Fold(Collect(EntryOutcome(data, h, g, importEndpoints)), [], Range(h.fileCount), k)
  }

  method ReadSkeletonStep(c: Cursor, h: ArchiveHeader, g: Game, importEndpoints: bool,
                          found: seq<seq<SkeletonBone>>, i: nat)
    returns (r: Result<seq<seq<SkeletonBone>>>)
    modifies c
    ensures r == Collect(EntryOutcome(c.data, h, g, importEndpoints))(found, i)
  {
    var e := ReadTocEntry(c, h.tocOffset + 0x40 * i);
    if e.Failure? {
      return Failure(e.error);
    }
    var s := ReadEntrySkeleton(c, e.value, g, importEndpoints);
    if s.Failure? {
      return Failure(s.error);
    }
    if s.value.None? {
      return Success(found);
    }
    return Success(found + [s.value.value]);
  }

  method ReadArchiveSkeletons(c: Cursor, h: ArchiveHeader, g: Game, importEndpoints: bool)
    returns (r: Result<seq<seq<SkeletonBone>>>)
    modifies c
    ensures r == ArchiveSkeletons(c.data, h, g, importEndpoints, h.fileCount)
  {
    ghost var step := Collect(EntryOutcome(c.data, h, g, importEndpoints));
    ghost var indices := Range(h.fileCount);
    var found: seq<seq<SkeletonBone>> := [];
    var i := 0;
    while i < h.fileCount
      invariant i <= h.fileCount
      invariant Fold(step, [], indices, i) == Success(found)
    {
      var next := ReadSkeletonStep(c, h, g, importEndpoints, found, i);
      assert indices[i] == i;
      FoldStep(step, [], indices, i, found);
      if next.Failure? {
        FoldFailure(step, [], indices, i + 1, h.fileCount);
        return next;
      }
      found := next.value;
      i := i + 1;
    }
    return Success(found);
  }

  // --------------------------------------------------------------- import

  /** The whole import: the extension check, the format dispatch as written, and the
      archive's skeletons, of which there must be at least one. */
  function SkeletonImport(data: seq<byte>, g: Game, extension: string, importEndpoints: bool)
    : Result<seq<seq<SkeletonBone>>>
  {
    if extension != ExpectedExtension(g) then Failure(WrongExtension)
    else
      match BranchAsWritten(ModelFormat(g))
      case NotYetSupported => Failure(Unsupported)
      case UnknownBranch => Failure(UnknownFormat)
      case ParseArchive =>
        match ArchiveHeaderAt(data)
        case Failure(e) => Failure(e)
        case Success(h) =>
          match ArchiveSkeletons(data, h, g, importEndpoints, h.fileCount)
          case Failure(e) => Failure(e)
          case Success(found) => if found == [] then Failure(NoSkeleton) else Success(found)
  }

  method ImportSkeleton(data: seq<byte>, g: Game, extension: string, importEndpoints: bool)
    returns (r: Result<seq<seq<SkeletonBone>>>)
    ensures r == SkeletonImport(data, g, extension, importEndpoints)
  {
    if extension != ExpectedExtension(g) {
      return Failure(WrongExtension);
    }
    var branch := BranchAsWritten(ModelFormat(g));
    if branch == NotYetSupported {
      return Failure(Unsupported);
    } else if branch == UnknownBranch {
      return Failure(UnknownFormat);
    }
    var c := new Cursor(data);
    var h := ReadArchiveHeader(c);
    if h.Failure? {
      return Failure(h.error);
    }
    var found := ReadArchiveSkeletons(c, h.value, g, importEndpoints);
    if found.Failure? {
      return found;
    }
    if found.value == [] {
      return Failure(NoSkeleton);
    }
    return found;
  }

  // ------------------------------------------------------------ properties

  /** Every skeleton found comes from one of the entries read, and each
      entry yields at most one. */
  lemma ArchiveSkeletonsSpec(data: seq<byte>, h: ArchiveHeader, g: Game, importEndpoints: bool, k: nat)
    requires k <= h.fileCount
    requires ArchiveSkeletons(data, h, g, importEndpoints, k).Success?
    ensures var found := ArchiveSkeletons(data, h, g, importEndpoints, k).value;
      && |found| <= k
      && forall j :: 0 <= j < |found| ==>
           exists i :: 0 <= i < k && EntryAt(data, h, g, importEndpoints, i) == Success(Some(found[j]))
  {
    var outcome := EntryOutcome(data, h, g, importEndpoints);
    CollectSpec(outcome, Range(h.fileCount), k);
    var found := ArchiveSkeletons(data, h, g, importEndpoints, k).value;
    forall j | 0 <= j < |found|
      ensures exists i :: 0 <= i < k && EntryAt(data, h, g, importEndpoints, i) == Success(Some(found[j]))
    {
      var i :| 0 <= i < k && outcome(i) == Success(Some(found[j]));
      assert EntryAt(data, h, g, importEndpoints, i) == outcome(i);
    }
  }

  /** XC1 is not yet supported, XCX reaches "Unknown format" (see
      XcxFallsThrough), only the SAR1 games are parsed, and a parsed
      archive yields at least one skeleton and at most one per entry. */
  lemma SkeletonImportSpec(data: seq<byte>, g: Game, extension: string, importEndpoints: bool)
    ensures extension != ExpectedExtension(g) ==> SkeletonImport(data, g, extension, importEndpoints) == Failure(WrongExtension)
    ensures extension == ExpectedExtension(g) && g == XC1 ==>
      SkeletonImport(data, g, extension, importEndpoints) == Failure(Unsupported)
    ensures extension == ExpectedExtension(g) && g == XCX ==>
      SkeletonImport(data, g, extension, importEndpoints) == Failure(UnknownFormat)
    ensures SkeletonImport(data, g, extension, importEndpoints).Success? ==>
      && (g == XC2 || g == XC1DE || g == XC3)
      && ArchiveHeaderAt(data).Success?
      && 0 < |SkeletonImport(data, g, extension, importEndpoints).value| <= ArchiveHeaderAt(data).value.fileCount
  {
    XcxFallsThrough();
    if SkeletonImport(data, g, extension, importEndpoints).Success? {
      var h := ArchiveHeaderAt(data).value;
      ArchiveSkeletonsSpec(data, h, g, importEndpoints, h.fileCount);
    }
  }

  /** The bones of a skeleton: the bones of items 2 to 4, whose counts
      agree, then, when they are imported, the endpoints of items 6 to 8. */
  lemma BonesSpec(data: seq<byte>, entry: nat, items: seq<TocItem>, importEndpoints: bool)
    requires |items| == 10
    ensures BonesOf(data, entry, items, importEndpoints).Failure? && items[2].count != items[3].count ==>
      BonesOf(data, entry, items, importEndpoints).error == CountMismatch
    ensures BonesOf(data, entry, items, importEndpoints).Success? ==>
      && items[2].count == items[3].count == items[4].count
      && BoneTable(data, entry, items[2], items[3], items[4], 16, false).Success?
      && (importEndpoints ==> BoneTable(data, entry, items[6], items[7], items[8], 8, true).Success?)
      && BonesOf(data, entry, items, importEndpoints).value ==
           BoneTable(data, entry, items[2], items[3], items[4], 16, false).value +
           (if importEndpoints then BoneTable(data, entry, items[6], items[7], items[8], 8, true).value else [])
  {
  }

  /** A decoded bone table holds one bone per record, bone b read at its
      record of each of the three tables; every bone carries the table's
      endpoint flag, and no endpoint keeps a position weight of 0.0. */
  lemma BoneTableSpec(data: seq<byte>, entry: nat, parents: TocItem, names: TocItem, transforms: TocItem,
                      stride: nat, endpoint: bool)
    requires BoneTable(data, entry, parents, names, transforms, stride, endpoint).Success?
    ensures var bones := BoneTable(data, entry, parents, names, transforms, stride, endpoint).value;
      && |bones| == parents.count
      && forall b :: 0 <= b < parents.count ==>
           && BoneEntry(data, entry, parents, names, transforms, stride, endpoint)(b) == Success(bones[b])
           && bones[b].endpoint == endpoint
           && (endpoint ==> !IsZeroFloat(bones[b].transform.position[3]))
  {
    var f := BoneEntry(data, entry, parents, names, transforms, stride, endpoint);
    TableEntries(parents.count, f);
    var bones := BoneTable(data, entry, parents, names, transforms, stride, endpoint).value;
    forall b | 0 <= b < parents.count
      ensures bones[b].endpoint == endpoint
      ensures endpoint ==> !IsZeroFloat(bones[b].transform.position[3])
    {
      BoneFlag(data, entry, parents, names, transforms, stride, endpoint, b, bones[b]);
    }
  }

  /** Bone b's parent is the u16 at record b of the parents (2 bytes
      each), its name offset at record b of the names (`stride` bytes each)
      and its transform at record b of the transforms (48 bytes each). */
  lemma BoneLayout(data: seq<byte>, entry: nat, parents: TocItem, names: TocItem, transforms: TocItem,
                   stride: nat, endpoint: bool, b: nat, nameAt: nat)
    requires nameAt == entry + names.offset + stride * b
    ensures BoneEntry(data, entry, parents, names, transforms, stride, endpoint)(b) ==
      BoneAt(data, entry, entry + parents.offset + 2 * b, nameAt, entry + transforms.offset + 48 * b, endpoint)
  {
    RecordOffsetIs(entry + names.offset, stride, b);
  }

  /** A decoded bone carries the table's endpoint flag and, as an endpoint,
      a position weight that is not 0.0. */
  lemma BoneFlag(data: seq<byte>, entry: nat, parents: TocItem, names: TocItem, transforms: TocItem,
                 stride: nat, endpoint: bool, b: nat, bone: SkeletonBone)
    requires BoneEntry(data, entry, parents, names, transforms, stride, endpoint)(b) == Success(bone)
    ensures bone.endpoint == endpoint
    ensures endpoint ==> !IsZeroFloat(bone.transform.position[3])
  {
  }

  /** A bone's transform is its stored words, with the rotation's w moved to
      the front. */
  lemma TransformLayout(t: seq<Word>, endpoint: bool)
    requires |t| == 12
    ensures TransformOf(t, endpoint).rotation == [t[7]] + t[4..7]
    ensures TransformOf(t, endpoint).scale == t[8..12]
    ensures TransformOf(t, endpoint).position[..3] == t[..3]
    ensures TransformOf(t, endpoint).position[3] == t[3] || (endpoint && IsZeroFloat(t[3]))
  {
  }
}
