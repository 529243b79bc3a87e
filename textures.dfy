/** Texture content of the payload: the cached (low-resolution) textures,
    all stored in one content block, and the uncached textures, one content
    pointer each, with an optional high-resolution subfile.

    A texture's properties are stored after its pixel data in reverse: the
    last four bytes are the "LBIM" magic, and nine words start 0x28 bytes
    before the end (width, height, image type and version among them). A
    texture without the magic is reported and skipped. Decoding the pixels
    is a parameter of the model (`codec`): it is given the texture's name,
    properties, bytes and decoder options, and returns the name the image is
    known by afterwards. The alignment maps each internal texture name to
    that final name; a later texture of the same name replaces an earlier
    one. */
module Textures {
  import opened Bytes
  import opened Results
  import opened Reader
  import opened Tables
  import opened Lists
  import opened Text
  import opened Subfile
  import opened Payload
  import opened ImportSettings

  /** "LBIM" */
  const TextureMagic: seq<byte> := [0x4C, 0x42, 0x49, 0x4D]

  /** What the texture decoder is given. */
  datatype TextureJob = TextureJob(
    name: string, version: nat, imageType: nat, width: nat, height: nat,
    data: seq<byte>, blueBC5: bool, dechannelise: bool)

  /** The properties before the trailing magic that the decoder needs. */
  datatype Trailer = Trailer(width: nat, height: nat, imageType: nat, version: nat)

  /** The textures decoded so far, in order, and the name alignment. */
  datatype TextureState = TextureState(alignment: map<string, string>, decoded: seq<TextureJob>)

  const NoTextures := TextureState(map[], [])

  /** One decoded texture: recorded under its internal name. */
  function Record(s: TextureState, key: string, job: TextureJob, codec: TextureJob -> string): TextureState
  {
    TextureState(s.alignment[key := codec(job)], s.decoded + [job])
  }

  // --------------------------------------------------------------- trailer

  /** The trailer of texture data that ends at `end`. Both seeks subtract
      from the end, so an end before 4, or a magic with an end before 0x28,
      is a negative seek; a short read of the magic is a missing magic. A
      magic that is read whole ends at `end`, so the property words before
      it are always there. */
  function TrailerAt(data: seq<byte>, end: nat): Result<Option<Trailer>>
  {
    if end < 4 then Failure(BadSeek)
    else if Take(data, end - 4, 4) != TextureMagic then Success(None)
    else if end < 0x28 then Failure(BadSeek)
    else
      assert |Take(data, end - 4, 4)| == 4;
      Success(Some(Trailer(U32(data, end - 0x20), U32(data, end - 0x1C), U32(data, end - 0x10), U32(data, end - 0x08))))
  }

  method ReadTrailer(c: Cursor, end: nat) returns (r: Result<Option<Trailer>>)
    modifies c
    ensures r == TrailerAt(c.data, end)
  {
    var seek := c.SeekSigned(end - 4);
    if seek.Fail? {
      return Failure(seek.error);
    }
    var magic := c.Read(4);
    if magic != TextureMagic {
      return Success(None);
    }
    seek := c.SeekSigned(end - 0x28);
    if seek.Fail? {
      return Failure(seek.error);
    }
    var w := c.ReadWords(9);
    assert w.Success?;
    var words := w.value;
    assert words[2] == WordAt(c.data, end - 0x28 + 8) && words[3] == WordAt(c.data, end - 0x28 + 12);
    assert words[6] == WordAt(c.data, end - 0x28 + 24) && words[8] == WordAt(c.data, end - 0x28 + 32);
    return Success(Some(Trailer(words[2], words[3], words[6], words[8])));
  }

  /** A trailer fails only on a negative seek; a texture is skipped exactly
      when its magic is missing; one that has it is decoded, with the words
      at 0x20, 0x1C, 0x10 and 0x08 bytes before the end as its width,
      height, image type and version. */
  lemma TrailerSpec(data: seq<byte>, end: nat)
    ensures TrailerAt(data, end).Failure? <==>
      end < 4 || (Take(data, end - 4, 4) == TextureMagic && end < 0x28)
    ensures TrailerAt(data, end).Failure? ==> TrailerAt(data, end).error == BadSeek
    ensures TrailerAt(data, end) == Success(None) <==> end >= 4 && Take(data, end - 4, 4) != TextureMagic
    ensures TrailerAt(data, end).Success? && TrailerAt(data, end).value.Some? ==>
      && 0x28 <= end <= |data|
      && TrailerAt(data, end).value.value ==
           Trailer(U32(data, end - 0x20), U32(data, end - 0x1C), U32(data, end - 0x10), U32(data, end - 0x08))
  {
    if end >= 4 && Take(data, end - 4, 4) == TextureMagic {
      assert |Take(data, end - 4, 4)| == 4;
    }
  }

  /** The name the decoder is given: prefixed with the payload's file name
      when textures are told apart by file. */
  function NameToUse(filename: string, name: string, cfg: Settings): (r: string)
    ensures cfg.differentiateTextures ==> r == filename + "_" + name && EndsWith(r, name)
    ensures !cfg.differentiateTextures ==> r == name
  {
    if cfg.differentiateTextures then filename + "_" + name else name
  }

  /** Channel splitting applies to the textures named "temp…". */
  predicate Dechannelise(cfg: Settings, name: string)
  {
    cfg.splitTemps && StartsWith(name, "temp")
  }

  /** The job for a texture of internal name `name`, its trailer, its bytes
      and the resolution factor (2 for a high-resolution subfile). */
  function JobOf(filename: string, name: string, t: Trailer, data: seq<byte>, scale: nat, cfg: Settings): TextureJob
  {
    TextureJob(NameToUse(filename, name, cfg), t.version, t.imageType, t.width * scale, t.height * scale,
               data, cfg.blueBC5, Dechannelise(cfg, name))
  }

  // -------------------------------------------------------- cached textures

  /** One texture header against the cached texture content: its trailer
      ends at offset + size, and its bytes are the size bytes at offset. */
  function CachedStep(data: seq<byte>, filename: string, cfg: Settings, codec: TextureJob -> string)
    : (TextureState, TextureHeader) -> Result<TextureState>
  {
    (s: TextureState, th: TextureHeader) =>
      match TrailerAt(data, th.offset + th.fileSize)
      case Failure(e) => Failure(e)
      case Success(None) => Success(s)
      case Success(Some(t)) =>
        Success(Record(s, th.name, JobOf(filename, th.name, t, Take(data, th.offset, th.fileSize), 1, cfg), codec))
  }

  /** The cached texture content, tried against every texture header. */
  function CachedTextures(data: seq<byte>, headers: seq<TextureHeader>, filename: string, cfg: Settings,
                          codec: TextureJob -> string, s0: TextureState, k: nat)
    : Result<TextureState>
    requires k <= |headers|
  {
    Fold(CachedStep(data, filename, cfg, codec), s0, headers, k)
  }

  method ReadCachedTexture(c: Cursor, th: TextureHeader, filename: string, cfg: Settings,
                           codec: TextureJob -> string, s: TextureState)
    returns (r: Result<TextureState>)
    modifies c
    ensures r == CachedStep(c.data, filename, cfg, codec)(s, th)
  {
    var t := ReadTrailer(c, th.offset + th.fileSize);
    if t.Failure? {
      return Failure(t.error);
    }
    if t.value.None? {
      return Success(s);
    }
    c.Seek(th.offset);
    var bytes := c.Read(th.fileSize);
    var job := JobOf(filename, th.name, t.value.value, bytes, 1, cfg);
    return Success(Record(s, th.name, job, codec));
  }

  /** The importer's loop over the texture headers, on its own stream over
      the content. */
  method DecodeCachedTextures(data: seq<byte>, headers: seq<TextureHeader>, filename: string, cfg: Settings,
                              codec: TextureJob -> string, s0: TextureState)
    returns (r: Result<TextureState>)
    ensures r == CachedTextures(data, headers, filename, cfg, codec, s0, |headers|)
  {
    var c := new Cursor(data);
    ghost var step := CachedStep(data, filename, cfg, codec);
    var s := s0;
    var i := 0;
    while i < |headers|
      invariant i <= |headers|
      invariant CachedTextures(data, headers, filename, cfg, codec, s0, i) == Success(s)
    {
      var next := ReadCachedTexture(c, headers[i], filename, cfg, codec, s);
      FoldStep(step, s0, headers, i, s);
      if next.Failure? {
        FoldFailure(step, s0, headers, i + 1, |headers|);
        return next;
      }
      s := next.value;
      i := i + 1;
    }
    return Success(s);
  }

  /** A header whose texture is decoded. */
  predicate Decodable(data: seq<byte>, th: TextureHeader)
  {
    TrailerAt(data, th.offset + th.fileSize).Success? && TrailerAt(data, th.offset + th.fileSize).value.Some?
  }

  /** The job of a decodable header. */
  function CachedJob(data: seq<byte>, th: TextureHeader, filename: string, cfg: Settings): TextureJob
    requires Decodable(data, th)
  {
    JobOf(filename, th.name, TrailerAt(data, th.offset + th.fileSize).value.value,
          Take(data, th.offset, th.fileSize), 1, cfg)
  }

  /** The last of the first k headers that is decodable and named `name`. */
  function LastDecodable(data: seq<byte>, headers: seq<TextureHeader>, name: string, k: nat): (r: Option<nat>)
    requires k <= |headers|
    ensures r.Some? ==> r.value < k && headers[r.value].name == name && Decodable(data, headers[r.value])
  {
    if k == 0 then None
    else if headers[k - 1].name == name && Decodable(data, headers[k - 1]) then Some(k - 1)
    else LastDecodable(data, headers, name, k - 1)
  }

  /** After the cached content, a name is aligned exactly when it was
      before or some header of that name was decoded, and then to the final
      name of the last such header: later textures win. */
  lemma CachedAlignment(data: seq<byte>, headers: seq<TextureHeader>, filename: string, cfg: Settings,
                        codec: TextureJob -> string, s0: TextureState, k: nat)
    requires k <= |headers|
    requires CachedTextures(data, headers, filename, cfg, codec, s0, k).Success?
    ensures var a := CachedTextures(data, headers, filename, cfg, codec, s0, k).value.alignment;
      forall name ::
        && (name in a <==> name in s0.alignment || LastDecodable(data, headers, name, k).Some?)
        && (LastDecodable(data, headers, name, k).Some? ==>
              a[name] == codec(CachedJob(data, headers[LastDecodable(data, headers, name, k).value], filename, cfg)))
        && (LastDecodable(data, headers, name, k).None? && name in s0.alignment ==> a[name] == s0.alignment[name])
  {
    forall name: string {
      CachedAlignmentOf(data, headers, filename, cfg, codec, s0, k, name);
    }
  }

  /** CachedAlignment for one name. */
  lemma {:induction false} CachedAlignmentOf(data: seq<byte>, headers: seq<TextureHeader>, filename: string, cfg: Settings,
                                             codec: TextureJob -> string, s0: TextureState, k: nat, name: string)
    requires k <= |headers|
    requires CachedTextures(data, headers, filename, cfg, codec, s0, k).Success?
    ensures var a := CachedTextures(data, headers, filename, cfg, codec, s0, k).value.alignment;
      && (name in a <==> name in s0.alignment || LastDecodable(data, headers, name, k).Some?)
      && (LastDecodable(data, headers, name, k).Some? ==>
            a[name] == codec(CachedJob(data, headers[LastDecodable(data, headers, name, k).value], filename, cfg)))
      && (LastDecodable(data, headers, name, k).None? && name in s0.alignment ==> a[name] == s0.alignment[name])
  {
    if k > 0 {
      var step := CachedStep(data, filename, cfg, codec);
      FoldPrefix(step, s0, headers, k - 1, k);
      CachedAlignmentOf(data, headers, filename, cfg, codec, s0, k - 1, name);
      var s := CachedTextures(data, headers, filename, cfg, codec, s0, k - 1).value;
      FoldStep(step, s0, headers, k - 1, s);
      var th := headers[k - 1];
      if Decodable(data, th) {
        assert CachedTextures(data, headers, filename, cfg, codec, s0, k).value
          == Record(s, th.name, CachedJob(data, th, filename, cfg), codec);
      } else {
        assert CachedTextures(data, headers, filename, cfg, codec, s0, k).value == s;
      }
    }
  }

  /** The cached content fails exactly when the trailer of one of its
      headers cannot be read. */
  lemma CachedFailure(data: seq<byte>, headers: seq<TextureHeader>, filename: string, cfg: Settings,
                      codec: TextureJob -> string, s0: TextureState, k: nat)
    requires k <= |headers|
    ensures CachedTextures(data, headers, filename, cfg, codec, s0, k).Success? <==>
      forall j :: 0 <= j < k ==> TrailerAt(data, headers[j].offset + headers[j].fileSize).Success?
  {
    var step := CachedStep(data, filename, cfg, codec);
    var ok := (th: TextureHeader) => TrailerAt(data, th.offset + th.fileSize).Success?;
    forall s, th
      ensures step(s, th).Success? <==> ok(th)
    {
    }
    FoldSucceeds(step, s0, headers, k, ok);
  }

  // ------------------------------------------------------ uncached textures

  /** A content pointer with its position in the pointer list. */
  datatype Indexed = Indexed(index: nat, pointer: ContentPointer)

  function Enumerate(cps: seq<ContentPointer>): (r: seq<Indexed>)
    ensures |r| == |cps| && forall i :: 0 <= i < |cps| ==> r[i] == Indexed(i, cps[i])
  {
    seq(|cps|, i requires 0 <= i < |cps| => Indexed(i, cps[i]))
  }

  /** The internal name of the uncached texture of pointer `index`: its
      texture ID sits three places before the pointer's own (as a Python
      index, so the first pointers count from the end), and names a header. */
  function UncachedName(dir: TextureDirectory, index: nat): Result<string>
  {
    match Lookup(dir.ids, index - 3)
    case Failure(e) => Failure(e)
    case Success(id) =>
      if id < |dir.headers| then Success(dir.headers[id].name) else Failure(IndexOutOfRange)
  }

  /** What the uncached content needs besides the texture state. */
  datatype UncachedSources = UncachedSources(
    payload: seq<byte>, header: PayloadHeader, directory: TextureDirectory, content: seq<byte>,
    filename: string, cfg: Settings, codec: TextureJob -> string, inflate: seq<byte> -> Option<seq<byte>>)

  /** One uncached texture: its name, its content's trailer, then the
      medium resolution when it is the best or every resolution is kept,
      and the high resolution (twice as wide and high, from a subfile of
      the payload) when there is one. */
  function UncachedTexture(u: UncachedSources, s: TextureState, ip: Indexed): Result<TextureState>
  {
    var cp := ip.pointer;
    match UncachedName(u.directory, ip.index)
    case Failure(e) => Failure(e)
    case Success(name) =>
      var data := Take(u.content, cp.internalOffset, cp.contentSize);
      match TrailerAt(data, cp.contentSize)
      case Failure(e) => Failure(e)
      case Success(None) => Success(s)
      case Success(Some(t)) =>
        var medium := if u.cfg.keepAllResolutions || cp.highResSubfileIndex <= 0
          then Record(s, name, JobOf(u.filename, name, t, data, 1, u.cfg), u.codec) else s;
        HighRes(u, medium, name, t, cp.highResSubfileIndex)
  }

  function HighRes(u: UncachedSources, s: TextureState, name: string, t: Trailer, index: int): Result<TextureState>
  {
    if index <= 0 then Success(s)
    else
      match SubfileAt(u.payload, SubfileHeaderOffset(u.header, index as nat), false, u.inflate)
      case Failure(e) => Failure(e)
      case Success(sub) => Success(Record(s, name, JobOf(u.filename, name, t, sub.content, 2, u.cfg), u.codec))
  }

  /** Only pointers of kind 3 are uncached textures. */
  function UncachedStep(u: UncachedSources): (TextureState, Indexed) -> Result<TextureState>
  {
    (s: TextureState, ip: Indexed) => if ip.pointer.contentType != 3 then Success(s) else UncachedTexture(u, s, ip)
  }

  function UncachedTextures(u: UncachedSources, cps: seq<ContentPointer>, s0: TextureState, k: nat): Result<TextureState>
    requires k <= |cps|
  {
    Fold(UncachedStep(u), s0, Enumerate(cps), k)
  }

  /** `payload` is the cursor over the whole payload file, used for the
      high-resolution subfiles. */
  method ReadUncachedTexture(payload: Cursor, u: UncachedSources, s: TextureState, ip: Indexed)
    returns (r: Result<TextureState>)
    requires payload.data == u.payload
    modifies payload
    ensures r == UncachedTexture(u, s, ip)
  {
    var cp := ip.pointer;
    var name := UncachedName(u.directory, ip.index);
    if name.Failure? {
      return Failure(name.error);
    }
    var data := Take(u.content, cp.internalOffset, cp.contentSize);
    var sf := new Cursor(data);
    var t := ReadTrailer(sf, cp.contentSize);
    if t.Failure? {
      return Failure(t.error);
    }
    if t.value.None? {
      return Success(s);
    }
    var medium := s;
    if u.cfg.keepAllResolutions || cp.highResSubfileIndex <= 0 {
      sf.Seek(0);
      var bytes := sf.ReadRest();
      assert bytes == data;
      medium := Record(s, name.value, JobOf(u.filename, name.value, t.value.value, bytes, 1, u.cfg), u.codec);
    }
    if cp.highResSubfileIndex <= 0 {
      return Success(medium);
    }
    var sub := ExtractSubfile(payload, SubfileHeaderOffset(u.header, cp.highResSubfileIndex as nat), false, u.inflate);
    if sub.Failure? {
      return Failure(sub.error);
    }
    return Success(Record(medium, name.value, JobOf(u.filename, name.value, t.value.value, sub.value.content, 2, u.cfg), u.codec));
  }

  method DecodeUncachedTextures(payload: Cursor, u: UncachedSources, cps: seq<ContentPointer>, s0: TextureState)
    returns (r: Result<TextureState>)
    requires payload.data == u.payload
    modifies payload
    ensures r == UncachedTextures(u, cps, s0, |cps|)
  {
    ghost var step := UncachedStep(u);
    var pointers := Enumerate(cps);
    var s := s0;
    var i := 0;
    while i < |cps|
      invariant i <= |cps|
      invariant UncachedTextures(u, cps, s0, i) == Success(s)
    {
      FoldStep(step, s0, pointers, i, s);
      var next := Success(s);
      if cps[i].contentType == 3 {
        next := ReadUncachedTexture(payload, u, s, pointers[i]);
      }
      assert step(s, pointers[i]) == next;
      if next.Failure? {
        FoldFailure(step, s0, pointers, i + 1, |cps|);
        return next;
      }
      s := next.value;
      i := i + 1;
    }
    return Success(s);
  }

  /** An uncached texture with a high-resolution subfile ends up aligned to
      the high-resolution image, whatever the resolutions kept; without
      one, to its medium resolution. */
  lemma HighResolutionWins(u: UncachedSources, s: TextureState, ip: Indexed)
    requires UncachedTexture(u, s, ip).Success?
    requires UncachedName(u.directory, ip.index).Success?
    ensures var name := UncachedName(u.directory, ip.index).value;
      var cp := ip.pointer;
      var data := Take(u.content, cp.internalOffset, cp.contentSize);
      var r := UncachedTexture(u, s, ip).value;
      && (TrailerAt(data, cp.contentSize).value.None? ==> r == s)
      && (TrailerAt(data, cp.contentSize).value.Some? ==>
            var t := TrailerAt(data, cp.contentSize).value.value;
            && name in r.alignment
            && (cp.highResSubfileIndex > 0 ==>
                  var sub := SubfileAt(u.payload, SubfileHeaderOffset(u.header, cp.highResSubfileIndex as nat), false, u.inflate);
                  sub.Success? && r.alignment[name] == u.codec(JobOf(u.filename, name, t, sub.value.content, 2, u.cfg)))
            && (cp.highResSubfileIndex <= 0 ==>
                  r.alignment[name] == u.codec(JobOf(u.filename, name, t, data, 1, u.cfg))))
  {
  }
}
