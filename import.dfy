/** The payload (`.wismt`) import, from its magic to the imported package.

    The root subfile (subfile 0) is extracted when some content pointer is
    of kind 0 (model), 1 (shader) or 2 (cached textures); its pointers are
    then visited in order: a model chunk adds its meshes and carries the
    weight sets on to the next chunk, the cached texture content adds to
    the texture alignment, and shaders are skipped. The uncached textures
    come from the next subfile (1 after a root subfile, 0 without one),
    when some pointer is of kind 3 and the importer is set to read them.
    Last, every material of the definition file is readied with the final
    names of the textures its texture table refers to. */
module Import {
  import opened Bytes
  import opened Results
  import opened Reader
  import opened Tables
  import opened Subfile
  import opened Payload
  import opened Textures
  import opened Vertices
  import opened Assembly
  import opened ImportSettings
  import Definition

  type Material = Definition.Material
  type TextureRef = Definition.TextureRef
  type DefinitionPackage = Definition.DefinitionPackage
  type DefinitionBone = Definition.DefinitionBone

  // ------------------------------------------------------------ materials

  /** A material as handed to the scene builder: its viewport colour starts
      as its base colour, and its textures are final image names. */
  datatype ImportedMaterial = ImportedMaterial(
    index: nat, name: string, baseColour: seq<Word>, viewportColour: seq<Word>,
    extraData: seq<Word>, textures: seq<string>)

  /** A texture reference that names a texture header whose texture was
      decoded. */
  predicate Linkable(headers: seq<TextureHeader>, alignment: map<string, string>, t: TextureRef)
  {
    t.textureIndex < |headers| && headers[t.textureIndex].name in alignment
  }

  /** The final name of the texture a reference indexes: a header index past
      the headers is an IndexError, a texture that was never decoded a
      KeyError. */
  function LinkedName(headers: seq<TextureHeader>, alignment: map<string, string>, t: TextureRef): Result<string>
  {
    if t.textureIndex >= |headers| then Failure(IndexOutOfRange)
    else if headers[t.textureIndex].name !in alignment then Failure(MissingKey)
    else Success(alignment[headers[t.textureIndex].name])
  }

  function LinkedNameEntry(headers: seq<TextureHeader>, alignment: map<string, string>, refs: seq<TextureRef>)
    : nat -> Result<string>
  {
    (j: nat) => if j < |refs| then LinkedName(headers, alignment, refs[j]) else Failure(IndexOutOfRange)
  }

  /** The final names of a texture table, in its order. */
  function LinkedNames(headers: seq<TextureHeader>, alignment: map<string, string>, refs: seq<TextureRef>)
    : Result<seq<string>>
  {
    Table(|refs|, LinkedNameEntry(headers, alignment, refs))
  }

  method LinkTextureTable(headers: seq<TextureHeader>, alignment: map<string, string>, refs: seq<TextureRef>)
    returns (r: Result<seq<string>>)
    ensures r == LinkedNames(headers, alignment, refs)
  {
    ghost var entry := LinkedNameEntry(headers, alignment, refs);
    var names: seq<string> := [];
    var i := 0;
    while i < |refs|
      invariant i <= |refs| && |names| == i
      invariant Table(i, entry) == Success(names)
    {
      var name := LinkedName(headers, alignment, refs[i]);
      assert entry(i) == name;
      if name.Failure? {
        TableFirstFailure(|refs|, entry, i);
        return Failure(name.error);
      }
      TableStep(i, entry, names, name.value);
      names := names + [name.value];
      i := i + 1;
    }
    return Success(names);
  }

  /** A texture table links exactly when every reference is linkable; it
      then holds, reference by reference, the final name of the referenced
      header's texture, and otherwise fails with an IndexError or a
      KeyError. */
  lemma LinkedNamesSpec(headers: seq<TextureHeader>, alignment: map<string, string>, refs: seq<TextureRef>)
    ensures LinkedNames(headers, alignment, refs).Success? <==>
      forall j :: 0 <= j < |refs| ==> Linkable(headers, alignment, refs[j])
    ensures LinkedNames(headers, alignment, refs).Failure? ==>
      LinkedNames(headers, alignment, refs).error in {IndexOutOfRange, MissingKey}
    ensures LinkedNames(headers, alignment, refs).Success? ==>
      var names := LinkedNames(headers, alignment, refs).value;
      && |names| == |refs|
      && forall j :: 0 <= j < |refs| ==> names[j] == alignment[headers[refs[j].textureIndex].name]
  {
    var entry := LinkedNameEntry(headers, alignment, refs);
    TableSucceeds(|refs|, entry);
    assert forall j :: 0 <= j < |refs| ==> (entry(j).Success? <==> Linkable(headers, alignment, refs[j]));
    if LinkedNames(headers, alignment, refs).Failure? {
      TableFailureIs(|refs|, entry);
    } else {
      TableEntries(|refs|, entry);
    }
  }

  function ReadiedMaterial(headers: seq<TextureHeader>, alignment: map<string, string>, m: Material)
    : Result<ImportedMaterial>
  {
    match LinkedNames(headers, alignment, m.textureTable)
    case Failure(e) => Failure(e)
    case Success(names) => Success(ImportedMaterial(m.index, m.name, m.baseColour, m.baseColour, m.extraData, names))
  }

  function ReadiedEntry(headers: seq<TextureHeader>, alignment: map<string, string>, materials: seq<Material>)
    : nat -> Result<ImportedMaterial>
  {
    (j: nat) => if j < |materials| then ReadiedMaterial(headers, alignment, materials[j]) else Failure(IndexOutOfRange)
  }

  /** Every material of the definition file, in order. */
  function ReadiedMaterials(headers: seq<TextureHeader>, alignment: map<string, string>, materials: seq<Material>)
    : Result<seq<ImportedMaterial>>
  {
    Table(|materials|, ReadiedEntry(headers, alignment, materials))
  }

  method ReadyMaterial(headers: seq<TextureHeader>, alignment: map<string, string>, m: Material)
    returns (r: Result<ImportedMaterial>)
    ensures r == ReadiedMaterial(headers, alignment, m)
  {
    var names := LinkTextureTable(headers, alignment, m.textureTable);
    if names.Failure? {
      return Failure(names.error);
    }
    return Success(ImportedMaterial(m.index, m.name, m.baseColour, m.baseColour, m.extraData, names.value));
  }

  method ReadyMaterials(headers: seq<TextureHeader>, alignment: map<string, string>, materials: seq<Material>)
    returns (r: Result<seq<ImportedMaterial>>)
    ensures r == ReadiedMaterials(headers, alignment, materials)
  {
    ghost var entry := ReadiedEntry(headers, alignment, materials);
    var readied: seq<ImportedMaterial> := [];
    var i := 0;
    while i < |materials|
      invariant i <= |materials| && |readied| == i
      invariant Table(i, entry) == Success(readied)
    {
      var m := ReadyMaterial(headers, alignment, materials[i]);
      assert entry(i) == m;
      if m.Failure? {
        TableFirstFailure(|materials|, entry, i);
        return Failure(m.error);
      }
      TableStep(i, entry, readied, m.value);
      readied := readied + [m.value];
      i := i + 1;
    }
    return Success(readied);
  }

  /** The readied materials are the definition's materials one for one:
      same index, name, base colour (also as viewport colour) and extra
      data, and as textures the linked names of their texture tables. They
      are readied exactly when every texture reference of every material
      is linkable. */
  lemma ReadiedMaterialsSpec(headers: seq<TextureHeader>, alignment: map<string, string>, materials: seq<Material>)
    ensures ReadiedMaterials(headers, alignment, materials).Success? <==>
      forall j :: 0 <= j < |materials| ==> LinkedNames(headers, alignment, materials[j].textureTable).Success?
    ensures ReadiedMaterials(headers, alignment, materials).Success? ==>
      var ms := ReadiedMaterials(headers, alignment, materials).value;
      && |ms| == |materials|
      && forall j :: 0 <= j < |materials| ==>
           && ms[j].index == materials[j].index
           && ms[j].name == materials[j].name
           && ms[j].baseColour == ms[j].viewportColour == materials[j].baseColour
           && ms[j].extraData == materials[j].extraData
           && Success(ms[j].textures) == LinkedNames(headers, alignment, materials[j].textureTable)
  {
    var entry := ReadiedEntry(headers, alignment, materials);
    TableSucceeds(|materials|, entry);
    assert forall j :: 0 <= j < |materials| ==>
      (entry(j).Success? <==> LinkedNames(headers, alignment, materials[j].textureTable).Success?);
    if ReadiedMaterials(headers, alignment, materials).Success? {
      TableEntries(|materials|, entry);
    }
  }

  // ----------------------------------------------------------- root stage

  /** What the import needs besides the payload: the definition file's
      package, the best level of detail, the payload's file name, the
      settings, the texture decoder and the decompressor. */
  datatype Inputs = Inputs(
    definition: DefinitionPackage, bestLOD: int, filename: string, cfg: Settings,
    codec: TextureJob -> string, inflate: seq<byte> -> Option<seq<byte>>)

  /** The meshes, the weight sets and the textures imported so far. */
  datatype RootState = RootState(meshes: seq<Mesh>, weightSets: seq<WeightSet>, textures: TextureState)

  const NothingImported := RootState([], [], NoTextures)

  /** Content pointers of kind 0, 1 or 2 point into the root subfile. */
  predicate HasRootContent(cps: seq<ContentPointer>)
  {
    HasContentType(cps, 0) || HasContentType(cps, 1) || HasContentType(cps, 2)
  }

  /** A model chunk's meshes follow those of earlier chunks; its weight sets
      replace the running ones. */
  function ModelContent(inp: Inputs, s: RootState, data: seq<byte>): Result<RootState>
  {
    match ModelChunk(data, inp.definition.shapeHeaders, s.weightSets, inp.definition.meshHeaders, inp.bestLOD, inp.cfg)
    case Failure(e) => Failure(e)
    case Success(chunk) => Success(RootState(s.meshes + chunk.meshes, chunk.weightSets, s.textures))
  }

  function CachedContent(inp: Inputs, headers: seq<TextureHeader>, s: RootState, data: seq<byte>): Result<RootState>
  {
    match CachedTextures(data, headers, inp.filename, inp.cfg, inp.codec, s.textures, |headers|)
    case Failure(e) => Failure(e)
    case Success(t) => Success(RootState(s.meshes, s.weightSets, t))
  }

  /** One content pointer against the root subfile's content: its bytes are
      the (clamped) slice it locates. */
  function RootStep(inp: Inputs, headers: seq<TextureHeader>, content: seq<byte>)
    : (RootState, ContentPointer) -> Result<RootState>
  {
    (s: RootState, cp: ContentPointer) =>
      var data := Take(content, cp.internalOffset, cp.contentSize);
      if cp.contentType == 0 then ModelContent(inp, s, data)
      else if cp.contentType == 2 then CachedContent(inp, headers, s, data)
      else Success(s)
  }

  /** The root stage's result and the index of the next subfile. */
  datatype Staged = Staged(state: RootState, nextSubfile: nat)

  function RootStage(payload: seq<byte>, idx: PayloadIndex, inp: Inputs): Result<Staged>
  {
    var cps := idx.contentPointers;
    if !HasRootContent(cps) then Success(Staged(NothingImported, 0))
    else
      match SubfileAt(payload, SubfileHeaderOffset(idx.header, 0), false, inp.inflate)
      case Failure(e) => Failure(e)
      case Success(sub) =>
        match Fold(RootStep(inp, idx.directory.headers, sub.content), NothingImported, cps, |cps|)
        case Failure(e) => Failure(e)
        case Success(s) => Success(Staged(s, 1))
  }

  method ReadRootItem(inp: Inputs, headers: seq<TextureHeader>, content: seq<byte>, s: RootState, cp: ContentPointer)
    returns (r: Result<RootState>)
    ensures r == RootStep(inp, headers, content)(s, cp)
  {
    var data := Take(content, cp.internalOffset, cp.contentSize);
    if cp.contentType == 0 {
      var chunk := ImportModelChunk(data, inp.definition.shapeHeaders, s.weightSets, inp.definition.meshHeaders,
                                    inp.bestLOD, inp.cfg);
      if chunk.Failure? {
        return Failure(chunk.error);
      }
      return Success(RootState(s.meshes + chunk.value.meshes, chunk.value.weightSets, s.textures));
    } else if cp.contentType == 2 {
      var t := DecodeCachedTextures(data, headers, inp.filename, inp.cfg, inp.codec, s.textures);
      if t.Failure? {
        return Failure(t.error);
      }
      return Success(RootState(s.meshes, s.weightSets, t.value));
    }
    return Success(s);
  }

  method ReadRootContent(inp: Inputs, headers: seq<TextureHeader>, content: seq<byte>, cps: seq<ContentPointer>)
    returns (r: Result<RootState>)
    ensures r == Fold(RootStep(inp, headers, content), NothingImported, cps, |cps|)
  {
    ghost var step := RootStep(inp, headers, content);
    var s := NothingImported;
    var i := 0;
    while i < |cps|
      invariant i <= |cps|
      invariant Fold(step, NothingImported, cps, i) == Success(s)
    {
      var next := ReadRootItem(inp, headers, content, s, cps[i]);
      FoldStep(step, NothingImported, cps, i, s);
      if next.Failure? {
        FoldFailure(step, NothingImported, cps, i + 1, |cps|);
        return next;
      }
      s := next.value;
      i := i + 1;
    }
    return Success(s);
  }

  method ReadRootStage(c: Cursor, idx: PayloadIndex, inp: Inputs) returns (r: Result<Staged>)
    modifies c
    ensures r == RootStage(c.data, idx, inp)
  {
    var cps := idx.contentPointers;
    var models := FindContentType(cps, 0);
    var shaders := FindContentType(cps, 1);
    var cached := FindContentType(cps, 2);
    if !(models || shaders || cached) {
      return Success(Staged(NothingImported, 0));
    }
    var sub := ExtractSubfile(c, SubfileHeaderOffset(idx.header, 0), false, inp.inflate);
    if sub.Failure? {
      return Failure(sub.error);
    }
    var s := ReadRootContent(inp, idx.directory.headers, sub.value.content, cps);
    if s.Failure? {
      return Failure(s.error);
    }
    return Success(Staged(s.value, 1));
  }

  /** Only model chunks add meshes and weight sets, and only cached texture
      content adds textures in the root stage; the next subfile is the one
      after the root subfile exactly when there is root content. */
  lemma {:induction false} RootStageSpec(payload: seq<byte>, idx: PayloadIndex, inp: Inputs)
    requires RootStage(payload, idx, inp).Success?
    ensures var st := RootStage(payload, idx, inp).value;
      && st.nextSubfile == (if HasRootContent(idx.contentPointers) then 1 else 0)
      && (!HasContentType(idx.contentPointers, 0) ==> st.state.meshes == [] && st.state.weightSets == [])
      && (!HasContentType(idx.contentPointers, 2) ==> st.state.textures == NoTextures)
  {
    var cps := idx.contentPointers;
    if HasRootContent(cps) {
      var sub := SubfileAt(payload, SubfileHeaderOffset(idx.header, 0), false, inp.inflate).value;
      var step := RootStep(inp, idx.directory.headers, sub.content);
      if !HasContentType(cps, 0) {
        NoModelsKeepMeshes(step, inp, idx.directory.headers, sub.content, cps);
      }
      if !HasContentType(cps, 2) {
        NoCachedKeepTextures(step, inp, idx.directory.headers, sub.content, cps);
      }
    }
  }

  lemma NoModelsKeepMeshes(step: (RootState, ContentPointer) -> Result<RootState>, inp: Inputs,
                           headers: seq<TextureHeader>, content: seq<byte>, cps: seq<ContentPointer>)
    requires step == RootStep(inp, headers, content) && !HasContentType(cps, 0)
    ensures var r := Fold(step, NothingImported, cps, |cps|);
      r.Success? ==> r.value.meshes == [] && r.value.weightSets == []
  {
    var inv := (s: RootState) => s.meshes == [] && s.weightSets == [];
    forall s, j | 0 <= j < |cps| && inv(s) && step(s, cps[j]).Success?
      ensures inv(step(s, cps[j]).value)
    {
      assert cps[j].contentType != 0;
    }
    FoldInvariant(step, NothingImported, cps, |cps|, inv);
  }

  lemma NoCachedKeepTextures(step: (RootState, ContentPointer) -> Result<RootState>, inp: Inputs,
                             headers: seq<TextureHeader>, content: seq<byte>, cps: seq<ContentPointer>)
    requires step == RootStep(inp, headers, content) && !HasContentType(cps, 2)
    ensures var r := Fold(step, NothingImported, cps, |cps|);
      r.Success? ==> r.value.textures == NoTextures
  {
    var inv := (s: RootState) => s.textures == NoTextures;
    forall s, j | 0 <= j < |cps| && inv(s) && step(s, cps[j]).Success?
      ensures inv(step(s, cps[j]).value)
    {
      assert cps[j].contentType != 2;
    }
    FoldInvariant(step, NothingImported, cps, |cps|, inv);
  }

  // ------------------------------------------------------- uncached stage

  /** Pointers of kind 3 need the uncached textures to be read at all. */
  predicate ReadsUncached(cps: seq<ContentPointer>, cfg: Settings)
  {
    HasContentType(cps, 3) && cfg.importUncachedTextures
  }

  function UncachedStage(payload: seq<byte>, idx: PayloadIndex, inp: Inputs, st: Staged): Result<TextureState>
  {
    var cps := idx.contentPointers;
    if !ReadsUncached(cps, inp.cfg) then Success(st.state.textures)
    else
      match SubfileAt(payload, SubfileHeaderOffset(idx.header, st.nextSubfile), false, inp.inflate)
      case Failure(e) => Failure(e)
      case Success(sub) =>
        var u := UncachedSources(payload, idx.header, idx.directory, sub.content, inp.filename, inp.cfg, inp.codec, inp.inflate);
        UncachedTextures(u, cps, st.state.textures, |cps|)
  }

  method ReadUncachedStage(c: Cursor, idx: PayloadIndex, inp: Inputs, st: Staged) returns (r: Result<TextureState>)
    modifies c
    ensures r == UncachedStage(c.data, idx, inp, st)
  {
    var cps := idx.contentPointers;
    var uncached := FindContentType(cps, 3);
    if !(uncached && inp.cfg.importUncachedTextures) {
      return Success(st.state.textures);
    }
    var sub := ExtractSubfile(c, SubfileHeaderOffset(idx.header, st.nextSubfile), false, inp.inflate);
    if sub.Failure? {
      return Failure(sub.error);
    }
    var u := UncachedSources(c.data, idx.header, idx.directory, sub.value.content, inp.filename, inp.cfg, inp.codec, inp.inflate);
    r := DecodeUncachedTextures(c, u, cps, st.state.textures);
  }

  // -------------------------------------------------------------- package

  /** What the import returns: the definition's skeleton, the meshes and
      the readied materials. */
  datatype ImportedPackage = ImportedPackage(
    bones: seq<DefinitionBone>, meshes: seq<Mesh>, materials: seq<ImportedMaterial>)

  function PayloadImport(payload: seq<byte>, inp: Inputs): Result<ImportedPackage>
  {
    match IndexOf(payload)
    case Failure(e) => Failure(e)
    case Success(idx) =>
      match RootStage(payload, idx, inp)
      case Failure(e) => Failure(e)
      case Success(st) =>
        match UncachedStage(payload, idx, inp, st)
        case Failure(e) => Failure(e)
        case Success(textures) =>
          match ReadiedMaterials(idx.directory.headers, textures.alignment, inp.definition.materials)
          case Failure(e) => Failure(e)
          case Success(materials) => Success(ImportedPackage(inp.definition.bones, st.state.meshes, materials))
  }

  method ImportPayload(payload: seq<byte>, inp: Inputs) returns (r: Result<ImportedPackage>)
    ensures r == PayloadImport(payload, inp)
  {
    var c := new Cursor(payload);
    var idx := ReadIndex(c);
    if idx.Failure? {
      return Failure(idx.error);
    }
    var st := ReadRootStage(c, idx.value, inp);
    if st.Failure? {
      return Failure(st.error);
    }
    var textures := ReadUncachedStage(c, idx.value, inp, st.value);
    if textures.Failure? {
      return Failure(textures.error);
    }
    var materials := ReadyMaterials(idx.value.directory.headers, textures.value.alignment, inp.definition.materials);
    if materials.Failure? {
      return Failure(materials.error);
    }
    return Success(ImportedPackage(inp.definition.bones, st.value.state.meshes, materials.value));
  }

  /** The imported package carries the definition's skeleton and one
      readied material per definition material; a payload without the
      "DRSM" magic is rejected. */
  lemma PackageSpec(payload: seq<byte>, inp: Inputs)
    ensures Take(payload, 0, 4) != PayloadMagic ==> PayloadImport(payload, inp) == Failure(BadMagic)
    ensures PayloadImport(payload, inp).Success? ==>
      var p := PayloadImport(payload, inp).value;
      && p.bones == inp.definition.bones
      && |p.materials| == |inp.definition.materials|
      && forall j :: 0 <= j < |p.materials| ==> p.materials[j].name == inp.definition.materials[j].name
  {
    PayloadMagicDecides(payload);
    if PayloadImport(payload, inp).Success? {
      var idx := IndexOf(payload).value;
      var st := RootStage(payload, idx, inp).value;
      var textures := UncachedStage(payload, idx, inp, st).value;
      ReadiedMaterialsSpec(idx.directory.headers, textures.alignment, inp.definition.materials);
    }
  }

  /** A payload without any texture content to decode (no cached texture
      content, and no uncached textures read) imports only when no material
      refers to a texture. */
  lemma NoTexturesNoReferences(payload: seq<byte>, inp: Inputs)
    requires IndexOf(payload).Success?
    requires var cps := IndexOf(payload).value.contentPointers;
      !HasContentType(cps, 2) && !ReadsUncached(cps, inp.cfg)
    requires RootStage(payload, IndexOf(payload).value, inp).Success?
    ensures PayloadImport(payload, inp).Success? <==>
      forall j :: 0 <= j < |inp.definition.materials| ==> inp.definition.materials[j].textureTable == []
  {
    var idx := IndexOf(payload).value;
    RootStageSpec(payload, idx, inp);
    var st := RootStage(payload, idx, inp).value;
    var headers := idx.directory.headers;
    var materials := inp.definition.materials;
    assert UncachedStage(payload, idx, inp, st) == Success(NoTextures);
    ReadiedMaterialsSpec(headers, map[], materials);
    forall j | 0 <= j < |materials|
      ensures LinkedNames(headers, map[], materials[j].textureTable).Success? <==> materials[j].textureTable == []
    {
      var refs := materials[j].textureTable;
      LinkedNamesSpec(headers, map[], refs);
      if refs != [] {
        assert !Linkable(headers, map[], refs[0]);
      }
    }
  }
}
