/** The payload container (`.wismt`) index: its header, the content
    pointers that locate model, shader and texture content inside the
    subfiles, and the texture directory (the texture headers with their
    names, and the list that maps uncached textures to texture headers).

    All offsets of the index are relative to the header's main offset. */
module Payload {
  import opened Bytes
  import opened Results
  import opened Reader
  import opened Tables

  /** "DRSM" */
  const PayloadMagic: seq<byte> := [0x44, 0x52, 0x53, 0x4D]

  // ---------------------------------------------------------------- header

  datatype PayloadHeader = PayloadHeader(
    mainOffset: nat, contentPointersCount: nat, contentPointersOffset: nat,
    subfileCount: nat, subfileHeadersOffset: nat,
    textureIDsCount: nat, textureIDsOffset: nat, textureCountOffset: nat)

  /** After the magic: version, header size, main offset, tag, revision,
      the content-pointer count and offset and the subfile count and
      headers offset; seven skipped words; then the texture-ID count and
      offset and the texture-count offset. */
  function PayloadHeaderAt(data: seq<byte>): Result<PayloadHeader>
  {
    match Words(data, 4, 9)
    case Failure(e) => Failure(e)
    case Success(w) =>
      match Words(data, 68, 3)
      case Failure(e) => Failure(e)
      case Success(t) => Success(PayloadHeader(w[2], w[5], w[6], w[7], w[8], t[0], t[1], t[2]))
  }

  method ReadPayloadHeader(c: Cursor) returns (r: Result<PayloadHeader>)
    requires c.pos == 4
    modifies c
    ensures r == PayloadHeaderAt(c.data)
  {
    var w := c.ReadWords(9);
    if w.Failure? {
      return Failure(w.error);
    }
    c.Skip(7 * 4);
    var t := c.ReadWords(3);
    if t.Failure? {
      return Failure(t.error);
    }
    return Success(PayloadHeader(w.value[2], w.value[5], w.value[6], w.value[7], w.value[8], t.value[0], t.value[1], t.value[2]));
  }

  // ------------------------------------------------------ content pointers

  /** Where content lies in its subfile, the subfile of its highest
      resolution (stored one higher; -1 when there is none) and its kind:
      0 model, 1 shader, 2 cached textures, 3 uncached texture. */
  datatype ContentPointer = ContentPointer(
    internalOffset: nat, contentSize: nat, highResSubfileIndex: int, contentType: nat)

  /** A 20-byte content pointer; its kind indexes a four-entry list of
      flags, so a kind past 3 is an IndexError. */
  function ContentPointerAt(data: seq<byte>, off: nat): (r: Result<ContentPointer>)
    ensures r.Success? ==> r.value.contentType < 4 && r.value.highResSubfileIndex >= -1
  {
    if off + 12 > |data| then Failure(Truncated)
    else if U16(data, off + 10) >= 4 then Failure(IndexOutOfRange)
    else Success(ContentPointer(U32(data, off), U32(data, off + 4), U16(data, off + 8) - 1, U16(data, off + 10)))
  }

  method ReadContentPointer(c: Cursor) returns (r: Result<ContentPointer>)
    modifies c
    ensures r == ContentPointerAt(c.data, old(c.pos))
  {
    var internalOffset :- c.ReadU32();
    var contentSize :- c.ReadU32();
    var highRes :- c.ReadU16();
    var contentType :- c.ReadU16();
    if contentType >= 4 {
      return Failure(IndexOutOfRange);
    }
    return Success(ContentPointer(internalOffset, contentSize, highRes as int - 1, contentType));
  }

  function ContentPointerEntry(data: seq<byte>, base: nat): nat -> Result<ContentPointer>
  {
    (i: nat) => ContentPointerAt(data, base + 20 * i)
  }

  function ContentPointers(data: seq<byte>, h: PayloadHeader): Result<seq<ContentPointer>>
  {
    Table(h.contentPointersCount, ContentPointerEntry(data, h.mainOffset + h.contentPointersOffset))
  }

  /** Each pointer is read at its own seek. */
  method ReadContentPointers(c: Cursor, h: PayloadHeader) returns (r: Result<seq<ContentPointer>>)
    modifies c
    ensures r == ContentPointers(c.data, h)
  {
    var base := h.mainOffset + h.contentPointersOffset;
    var n := h.contentPointersCount;
    var cps: seq<ContentPointer> := [];
    var i := 0;
    ghost var entry := ContentPointerEntry(c.data, base);
    while i < n
      invariant i <= n
      invariant Table(i, entry) == Success(cps)
    {
      c.Seek(base + 20 * i);
      var cp := ReadContentPointer(c);
      assert entry(i) == cp;
      if cp.Failure? {
        TableFirstFailure(n, entry, i);
        return Failure(cp.error);
      }
      TableStep(i, entry, cps, cp.value);
      cps := cps + [cp.value];
      i := i + 1;
    }
    return Success(cps);
  }

  /** `hasContentType[t]`: some pointer is of kind t. */
  predicate HasContentType(cps: seq<ContentPointer>, t: nat)
  {
    exists i :: 0 <= i < |cps| && cps[i].contentType == t
  }

  method FindContentType(cps: seq<ContentPointer>, t: nat) returns (found: bool)
    ensures found <==> HasContentType(cps, t)
  {
    found := false;
    var i := 0;
    while i < |cps|
      invariant i <= |cps|
      invariant found <==> exists j :: 0 <= j < i && cps[j].contentType == t
    {
      if cps[i].contentType == t {
        found := true;
      }
      i := i + 1;
    }
  }

  /** A decoded table of content pointers holds pointer i at its 20-byte
      slot, and every kind is one of the four. */
  lemma ContentPointerLayout(data: seq<byte>, h: PayloadHeader, i: nat)
    requires ContentPointers(data, h).Success? && i < h.contentPointersCount
    ensures var cps := ContentPointers(data, h).value;
      && |cps| == h.contentPointersCount
      && ContentPointerAt(data, h.mainOffset + h.contentPointersOffset + 20 * i) == Success(cps[i])
      && cps[i].contentType < 4
  {
    var entry := ContentPointerEntry(data, h.mainOffset + h.contentPointersOffset);
    TableEntry(h.contentPointersCount, entry, i);
    assert entry(i) == ContentPointerAt(data, h.mainOffset + h.contentPointersOffset + 20 * i);
  }

  // ----------------------------------------------------- texture directory

  /** A texture header: the size and offset of its data in the cached
      texture content, and its name. */
  datatype TextureHeader = TextureHeader(fileSize: nat, offset: nat, nameOffset: nat, name: string)

  /** The texture header at `off`: four words, the last the name's offset
      from `table`, the start of the texture table. */
  function TextureHeaderAt(data: seq<byte>, table: nat, off: nat): Result<TextureHeader>
  {
    match Words(data, off, 4)
    case Failure(e) => Failure(e)
    case Success(w) =>
      match CStringAt(data, table + w[3])
      case Failure(e) => Failure(e)
      case Success(name) => Success(TextureHeader(w[1], w[2], w[3], name))
  }

  /** Reads the four words, follows the name offset and returns to where
      the next header starts. */
  method ReadTextureHeader(c: Cursor, table: nat) returns (r: Result<TextureHeader>)
    modifies c
    ensures r == TextureHeaderAt(c.data, table, old(c.pos))
    ensures r.Success? ==> c.pos == old(c.pos) + 16
  {
    var w := c.ReadWords(4);
    if w.Failure? {
      return Failure(w.error);
    }
    var back := c.pos;
    c.Seek(table + w.value[3]);
    var name := c.ReadCString();
    if name.Failure? {
      return Failure(name.error);
    }
    c.Seek(back);
    return Success(TextureHeader(w.value[1], w.value[2], w.value[3], name.value));
  }

  function TextureHeaderEntry(data: seq<byte>, table: nat): nat -> Result<TextureHeader>
  {
    (i: nat) => TextureHeaderAt(data, table, table + 16 + 16 * i)
  }

  function TextureHeaderTable(data: seq<byte>, table: nat, n: nat): Result<seq<TextureHeader>>
  {
    Table(n, TextureHeaderEntry(data, table))
  }

  method ReadTextureHeaderTable(c: Cursor, table: nat, n: nat) returns (r: Result<seq<TextureHeader>>)
    requires c.pos == table + 16
    modifies c
    ensures r == TextureHeaderTable(c.data, table, n)
    ensures r.Success? ==> c.pos == table + 16 + 16 * n
  {
    var headers: seq<TextureHeader> := [];
    var i := 0;
    ghost var entry := TextureHeaderEntry(c.data, table);
    while i < n
      invariant i <= n && c.pos == table + 16 + 16 * i
      invariant Table(i, entry) == Success(headers)
    {
      var h := ReadTextureHeader(c, table);
      assert entry(i) == h;
      if h.Failure? {
        TableFirstFailure(n, entry, i);
        return Failure(h.error);
      }
      TableStep(i, entry, headers, h.value);
      headers := headers + [h.value];
      i := i + 1;
    }
    return Success(headers);
  }

  /** The texture headers, and the texture-ID list that maps the uncached
      textures (in content-pointer order, from the fourth pointer on) to
      texture headers. */
  datatype TextureDirectory = TextureDirectory(headers: seq<TextureHeader>, ids: seq<nat>)

  /** The texture IDs at their own offset, when it is set. */
  function TextureIDs(data: seq<byte>, h: PayloadHeader): Result<seq<nat>>
  {
    if h.textureIDsOffset > 0 then U16s(data, h.mainOffset + h.textureIDsOffset, h.textureIDsCount)
    else Success([])
  }

  /** The directory: the IDs, then, when the texture-count offset is set,
      the count, the headers after the four-word table head, and, when the
      two offsets coincide, the IDs again from right after the headers, one
      per texture. */
  function DirectoryOf(data: seq<byte>, h: PayloadHeader): Result<TextureDirectory>
  {
    match TextureIDs(data, h)
    case Failure(e) => Failure(e)
    case Success(ids) =>
      if h.textureCountOffset == 0 then Success(TextureDirectory([], ids))
      else
        var table := h.mainOffset + h.textureCountOffset;
        match Words(data, table, 4)
        case Failure(e) => Failure(e)
        case Success(head) => HeadersAndIDs(data, h, table, head[0], ids)
  }

  function HeadersAndIDs(data: seq<byte>, h: PayloadHeader, table: nat, count: nat, ids: seq<nat>)
    : Result<TextureDirectory>
  {
    match TextureHeaderTable(data, table, count)
    case Failure(e) => Failure(e)
    case Success(headers) =>
      if h.textureIDsOffset != h.textureCountOffset then Success(TextureDirectory(headers, ids))
      else
        match U16s(data, table + 16 + 16 * count, count)
        case Failure(e) => Failure(e)
        case Success(inline) => Success(TextureDirectory(headers, inline))
  }

  method ReadDirectory(c: Cursor, h: PayloadHeader) returns (r: Result<TextureDirectory>)
    modifies c
    ensures r == DirectoryOf(c.data, h)
  {
    var ids: seq<nat> := [];
    if h.textureIDsOffset > 0 {
      c.Seek(h.mainOffset + h.textureIDsOffset);
      var read := c.ReadU16s(h.textureIDsCount);
      if read.Failure? {
        return Failure(read.error);
      }
      ids := read.value;
    }
    if h.textureCountOffset == 0 {
      return Success(TextureDirectory([], ids));
    }
    var table := h.mainOffset + h.textureCountOffset;
    c.Seek(table);
    var head := c.ReadWords(4);
    if head.Failure? {
      return Failure(head.error);
    }
    r := ReadHeadersAndIDs(c, h, table, head.value[0], ids);
  }

  method ReadHeadersAndIDs(c: Cursor, h: PayloadHeader, table: nat, count: nat, ids: seq<nat>)
    returns (r: Result<TextureDirectory>)
    requires c.pos == table + 16
    modifies c
    ensures r == HeadersAndIDs(c.data, h, table, count, ids)
  {
    var headers := ReadTextureHeaderTable(c, table, count);
    if headers.Failure? {
      return Failure(headers.error);
    }
    if h.textureIDsOffset != h.textureCountOffset {
      return Success(TextureDirectory(headers.value, ids));
    }
    var inline := c.ReadU16s(count);
    if inline.Failure? {
      return Failure(inline.error);
    }
    return Success(TextureDirectory(headers.value, inline.value));
  }

  /** Texture header i is the record 16 * i after the table head, and its
      name is the string at its name offset from the table. */
  lemma TextureHeaderLayout(data: seq<byte>, table: nat, n: nat, i: nat)
    requires TextureHeaderTable(data, table, n).Success? && i < n
    ensures var hs := TextureHeaderTable(data, table, n).value;
      && |hs| == n
      && table + 16 + 16 * i + 16 <= |data|
      && hs[i].nameOffset == U32(data, table + 16 + 16 * i + 12)
      && hs[i].fileSize == U32(data, table + 16 + 16 * i + 4)
      && hs[i].offset == U32(data, table + 16 + 16 * i + 8)
      && CStringAt(data, table + hs[i].nameOffset) == Success(hs[i].name)
  {
    var entry := TextureHeaderEntry(data, table);
    TableEntry(n, entry, i);
    var off := table + 16 + 16 * i;
    assert entry(i) == TextureHeaderAt(data, table, off);
    var w := Words(data, off, 4).value;
    assert w[1] == WordAt(data, off + 4) && w[2] == WordAt(data, off + 8) && w[3] == WordAt(data, off + 12);
  }

  /** When the ID and texture-count offsets coincide, the IDs are the ones
      after the headers, as many as there are textures. */
  lemma SharedOffsetIDs(data: seq<byte>, h: PayloadHeader)
    requires DirectoryOf(data, h).Success? && h.textureCountOffset > 0
    requires h.textureIDsOffset == h.textureCountOffset
    ensures var d := DirectoryOf(data, h).value;
      var table := h.mainOffset + h.textureCountOffset;
      U16s(data, table + 16 + 16 * |d.headers|, |d.headers|) == Success(d.ids)
  {
    var table := h.mainOffset + h.textureCountOffset;
    var count := Words(data, table, 4).value[0];
    TableSucceeds(count, TextureHeaderEntry(data, table));
    TableEntries(count, TextureHeaderEntry(data, table));
  }

  // ------------------------------------------------------------ the index

  datatype PayloadIndex = PayloadIndex(
    header: PayloadHeader, contentPointers: seq<ContentPointer>, directory: TextureDirectory)

  /** The magic (a mismatch is a ValueError), the header, the content
      pointers and the texture directory. */
  function IndexOf(data: seq<byte>): Result<PayloadIndex>
  {
    if Take(data, 0, 4) != PayloadMagic then Failure(BadMagic)
    else
      match PayloadHeaderAt(data)
      case Failure(e) => Failure(e)
      case Success(h) =>
        match ContentPointers(data, h)
        case Failure(e) => Failure(e)
        case Success(cps) =>
          match DirectoryOf(data, h)
          case Failure(e) => Failure(e)
          case Success(d) => Success(PayloadIndex(h, cps, d))
  }

  method ReadIndex(c: Cursor) returns (r: Result<PayloadIndex>)
    requires c.pos == 0
    modifies c
    ensures r == IndexOf(c.data)
  {
    var magic := c.Read(4);
    if magic != PayloadMagic {
      return Failure(BadMagic);
    }
    var h := ReadPayloadHeader(c);
    if h.Failure? {
      return Failure(h.error);
    }
    var cps := ReadContentPointers(c, h.value);
    if cps.Failure? {
      return Failure(cps.error);
    }
    var d := ReadDirectory(c, h.value);
    if d.Failure? {
      return Failure(d.error);
    }
    return Success(PayloadIndex(h.value, cps.value, d.value));
  }

  /** A payload whose first four bytes are not "DRSM" is rejected before
      anything else is read; one that has them needs at least the 80
      header bytes. */
  lemma PayloadMagicDecides(data: seq<byte>)
    ensures Take(data, 0, 4) != PayloadMagic ==> IndexOf(data) == Failure(BadMagic)
    ensures IndexOf(data).Success? ==> |data| >= 80 && data[..4] == PayloadMagic
  {
  }

  /** Where the header of subfile k lies: three words per subfile. */
  function SubfileHeaderOffset(h: PayloadHeader, k: nat): nat
  {
    h.mainOffset + h.subfileHeadersOffset + 12 * k
  }
}
