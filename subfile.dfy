/** The compressed sub-containers ("xbc1" blocks) of the payload container
    and of the external texture files.

    A subfile is located through a three-word header (compressed size,
    uncompressed size, data offset). The block at the data offset starts
    with the "xbc1" magic, four words (version, uncompressed size,
    compressed size, unknown) and a 28-byte name, and the compressed bytes
    follow. A headless file has no three-word header in front: its block
    starts at the header offset itself. Decompression is a parameter of the
    model (`inflate`), which reports a block it cannot decompress with
    `None`. */
module Subfile {
  import opened Bytes
  import opened Results
  import opened Reader

  const BlockMagic: seq<byte> := [0x78, 0x62, 0x63, 0x31]

  datatype Subfile = Subfile(name: string, content: seq<byte>)

  /** The block at `at`: magic, four words, the name, then the compressed
      bytes, which must decompress to the declared size. */
  function BlockAt(data: seq<byte>, at: nat, inflate: seq<byte> -> Option<seq<byte>>): Result<Subfile>
  {
    if Take(data, at, 4) != BlockMagic then Failure(BadMagic)
    else
      match Words(data, at + 4, 4)
      case Failure(e) => Failure(e)
      case Success(w) => NamedBlockAt(data, at, w[1], w[2], inflate)
  }

  /** The name and the decompressed content of a block whose declared
      uncompressed size is `size` and compressed size `packed`. */
  function NamedBlockAt(data: seq<byte>, at: nat, size: nat, packed: nat, inflate: seq<byte> -> Option<seq<byte>>): Result<Subfile>
  {
    match FixedStringAt(data, at + 20, 28)
    case Failure(e) => Failure(e)
    case Success(name) =>
      match inflate(Take(data, at + 48, packed))
      case None => Failure(BadCompression)
      case Some(content) =>
        if |content| != size then Failure(SizeMismatch) else Success(Subfile(name, content))
  }

  /** Where the block of the subfile whose header is at `headerOffset`
      starts: at the header's data offset, or, headless, at the header
      offset itself. The three header words are read in both cases. */
  function BlockOffset(data: seq<byte>, headerOffset: nat, headless: bool): Result<nat>
  {
    match Words(data, headerOffset, 3)
    case Failure(e) => Failure(e)
    case Success(w) => Success(if headless then headerOffset else w[2])
  }

  function SubfileAt(data: seq<byte>, headerOffset: nat, headless: bool, inflate: seq<byte> -> Option<seq<byte>>): Result<Subfile>
  {
    match BlockOffset(data, headerOffset, headless)
    case Failure(e) => Failure(e)
    case Success(at) => BlockAt(data, at, inflate)
  }

  method ReadNamedBlock(c: Cursor, at: nat, size: nat, packed: nat, inflate: seq<byte> -> Option<seq<byte>>) returns (r: Result<Subfile>)
    requires c.pos == at + 20
    modifies c
    ensures r == NamedBlockAt(c.data, at, size, packed, inflate)
  {
    var name := c.ReadFixedString(28);
    if name.Failure? {
      return Failure(name.error);
    }
    var block := c.Read(packed);
    var content := inflate(block);
    if content.None? {
      return Failure(BadCompression);
    }
    if |content.value| != size {
      return Failure(SizeMismatch);
    }
    return Success(Subfile(name.value, content.value));
  }

  method ReadBlock(c: Cursor, inflate: seq<byte> -> Option<seq<byte>>) returns (r: Result<Subfile>)
    modifies c
    ensures r == BlockAt(c.data, old(c.pos), inflate)
  {
    var at := c.pos;
    var magic := c.Read(4);
    if magic != BlockMagic {
      return Failure(BadMagic);
    }
    c.Seek(at + 4);
    var w := c.ReadWords(4);
    if w.Failure? {
      return Failure(w.error);
    }
    r := ReadNamedBlock(c, at, w.value[1], w.value[2], inflate);
  }

  /** The subfile whose header is at `headerOffset`, its name and its
      decompressed content. */
  method ExtractSubfile(c: Cursor, headerOffset: nat, headless: bool, inflate: seq<byte> -> Option<seq<byte>>) returns (r: Result<Subfile>)
    modifies c
    ensures r == SubfileAt(c.data, headerOffset, headless, inflate)
  {
    c.Seek(headerOffset);
    var header := c.ReadWords(3);
    if header.Failure? {
      return Failure(header.error);
    }
    c.Seek(header.value[2]);
    if headless {
      c.Seek(headerOffset);
    }
    r := ReadBlock(c, inflate);
  }

  /** A block is rejected with BadMagic exactly when its first four bytes
      are not "xbc1". */
  lemma BlockMagicDecides(data: seq<byte>, at: nat, inflate: seq<byte> -> Option<seq<byte>>)
    ensures BlockAt(data, at, inflate) == Failure(BadMagic) <==> Take(data, at, 4) != BlockMagic
  {
  }

  /** An extracted subfile has exactly the uncompressed size its block
      declares, and its name is the block's 28-byte name field. */
  lemma SubfileSized(data: seq<byte>, at: nat, inflate: seq<byte> -> Option<seq<byte>>)
    requires BlockAt(data, at, inflate).Success?
    ensures at + 48 <= |data|
    ensures |BlockAt(data, at, inflate).value.content| == U32(data, at + 8)
    ensures Success(BlockAt(data, at, inflate).value.name) == FixedStringAt(data, at + 20, 28)
  {
    var w := Words(data, at + 4, 4).value;
    assert w[1] == WordAt(data, at + 8);
  }

  /** A content that decompresses to another size than declared is a
      SizeMismatch, whatever else is in the block. */
  lemma SizeMismatchRejected(data: seq<byte>, at: nat, inflate: seq<byte> -> Option<seq<byte>>)
    requires Take(data, at, 4) == BlockMagic && at + 48 <= |data|
    requires inflate(Take(data, at + 48, U32(data, at + 12))).Some?
    requires |inflate(Take(data, at + 48, U32(data, at + 12))).value| != U32(data, at + 8)
    ensures BlockAt(data, at, inflate) == Failure(SizeMismatch)
  {
    var w := Words(data, at + 4, 4).value;
    assert w[1] == WordAt(data, at + 8) && w[2] == WordAt(data, at + 12);
  }

  /** Headless, the magic is read at the header offset, whatever the data
      offset field holds; otherwise it is read at the data offset. */
  lemma HeadlessReadsAtHeader(data: seq<byte>, headerOffset: nat, inflate: seq<byte> -> Option<seq<byte>>)
    requires headerOffset + 12 <= |data|
    ensures SubfileAt(data, headerOffset, true, inflate) == BlockAt(data, headerOffset, inflate)
    ensures SubfileAt(data, headerOffset, false, inflate) == BlockAt(data, U32(data, headerOffset + 8), inflate)
  {
    var w := Words(data, headerOffset, 3).value;
    assert w[2] == WordAt(data, headerOffset + 8);
  }
}
