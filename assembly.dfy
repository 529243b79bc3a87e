/** Mesh assembly of a model chunk.

    Once a chunk's vertex, face and shape data are decoded and its vertices
    carry their weights, every mesh header of the definition file makes one
    mesh: the vertex list and face list it names, the weight sets, its
    material index and the shapes made for its vertex table. A header of a
    level of detail worse than the best is skipped unless every level is
    imported, but its tables still count as used. */
module Assembly {
  import opened Bytes
  import opened Results
  import opened Lists
  import opened Tables
  import opened Reader
  import opened Chunk
  import opened Vertices
  import opened Faces
  import opened Shapes
  import opened Binding
  import opened ImportSettings
  import Definition

  type MeshHeader = Definition.MeshHeader

  // ------------------------------------------------------ shapes by table

  /** The shapes made for one vertex table, in the order they were made. */
  function ShapesOf(shapes: seq<Shape>, table: nat): seq<Shape>
  {
    if shapes == [] then []
    else
      var last := shapes[|shapes| - 1];
      ShapesOf(shapes[..|shapes| - 1], table) + (if last.vertexTable == table then [last] else [])
  }

  /** A table's shapes are exactly the shapes of that table, none repeated
      that was not repeated before, and there are none exactly when no
      shape names that table. */
  lemma {:induction false} ShapesOfSpec(shapes: seq<Shape>, table: nat)
    ensures |ShapesOf(shapes, table)| <= |shapes|
    ensures forall s :: s in ShapesOf(shapes, table) <==> s in shapes && s.vertexTable == table
    ensures ShapesOf(shapes, table) == [] <==> forall i :: 0 <= i < |shapes| ==> shapes[i].vertexTable != table
  {
    if shapes != [] {
      var init := shapes[..|shapes| - 1];
      ShapesOfSpec(init, table);
      assert shapes == init + [shapes[|shapes| - 1]];
      assert forall i :: 0 <= i < |init| ==> init[i] == shapes[i];
    }
  }

  /** The importer's dictionary of shapes by vertex table. */
  method GroupShapes(shapes: seq<Shape>) returns (groups: map<nat, seq<Shape>>)
    ensures forall t :: t in groups <==> exists i :: 0 <= i < |shapes| && shapes[i].vertexTable == t
    ensures forall t :: t in groups ==> groups[t] == ShapesOf(shapes, t)
  {
    groups := map[];
    var i := 0;
    while i < |shapes|
      invariant i <= |shapes|
      invariant forall t :: t in groups <==> exists j :: 0 <= j < i && shapes[j].vertexTable == t
      invariant forall t :: t in groups ==> groups[t] == ShapesOf(shapes[..i], t)
    {
      var s := shapes[i];
      assert shapes[..i + 1] == shapes[..i] + [s];
      if s.vertexTable !in groups {
        ShapesOfSpec(shapes[..i], s.vertexTable);
        groups := groups[s.vertexTable := [s]];
      } else {
        groups := groups[s.vertexTable := groups[s.vertexTable] + [s]];
      }
      i := i + 1;
    }
    assert shapes[..i] == shapes;
  }

  /** The shapes a mesh of vertex table `table` gets from the dictionary. */
  method GroupedShapes(groups: map<nat, seq<Shape>>, ghost shapes: seq<Shape>, table: nat) returns (r: seq<Shape>)
    requires forall t :: t in groups <==> exists i :: 0 <= i < |shapes| && shapes[i].vertexTable == t
    requires forall t :: t in groups ==> groups[t] == ShapesOf(shapes, t)
    ensures r == ShapesOf(shapes, table)
  {
    if table in groups {
      return groups[table];
    }
    ShapesOfSpec(shapes, table);
    return [];
  }

  // ------------------------------------------------------------ the meshes

  datatype Mesh = Mesh(
    vertices: seq<Vertex>, faces: seq<Face>, weightSets: seq<WeightSet>, material: nat, shapes: seq<Shape>)

  /** What every mesh of a chunk is built from. */
  datatype MeshSources = MeshSources(
    vertexData: seq<seq<Vertex>>, faceData: seq<seq<Face>>, weightSets: seq<WeightSet>,
    shapes: seq<Shape>, alsoImportLODs: bool, bestLOD: int)

  /** The tables not yet named by any mesh header, and the meshes so far. */
  datatype MeshState = MeshState(unusedVertexTables: seq<nat>, unusedFaceTables: seq<nat>, meshes: seq<Mesh>)

  predicate Kept(src: MeshSources, h: MeshHeader)
  {
    src.alsoImportLODs || h.lod <= src.bestLOD
  }

  predicate Present(src: MeshSources, h: MeshHeader)
  {
    h.vertexTable < |src.vertexData| && h.faceTable < |src.faceData|
  }

  function MeshOf(src: MeshSources, h: MeshHeader): Mesh
    requires Present(src, h)
  {
    Mesh(src.vertexData[h.vertexTable], src.faceData[h.faceTable], src.weightSets, h.material,
         ShapesOf(src.shapes, h.vertexTable))
  }

  /** One mesh header: its tables are marked used, then it is skipped for
      its level of detail, or its tables are looked up (a KeyError for an
      absent one) and its mesh appended. */
  function MeshStep(src: MeshSources): (MeshState, MeshHeader) -> Result<MeshState>
  {
    (s: MeshState, h: MeshHeader) =>
      var used := MeshState(RemoveIfPresent(s.unusedVertexTables, h.vertexTable),
                            RemoveIfPresent(s.unusedFaceTables, h.faceTable), s.meshes);
      if !Kept(src, h) then Success(used)
      else if !Present(src, h) then Failure(MissingKey)
      else Success(used.(meshes := s.meshes + [MeshOf(src, h)]))
  }

  function MeshesUpTo(src: MeshSources, headers: seq<MeshHeader>, unusedV: seq<nat>, unusedF: seq<nat>, k: nat)
    : Result<MeshState>
    requires k <= |headers|
  {
    Fold(MeshStep(src), MeshState(unusedV, unusedF, []), headers, k)
  }

  function Meshes(src: MeshSources, headers: seq<MeshHeader>, unusedV: seq<nat>, unusedF: seq<nat>): Result<MeshState>
  {
    MeshesUpTo(src, headers, unusedV, unusedF, |headers|)
  }

  /** The importer's loop over the mesh headers. */
  method AssembleMeshes(src: MeshSources, headers: seq<MeshHeader>, unusedV: seq<nat>, unusedF: seq<nat>)
    returns (r: Result<MeshState>)
    ensures r == Meshes(src, headers, unusedV, unusedF)
  {
    var groups := GroupShapes(src.shapes);
    var s := MeshState(unusedV, unusedF, []);
    ghost var step := MeshStep(src);
    var i := 0;
    while i < |headers|
      invariant i <= |headers|
      invariant MeshesUpTo(src, headers, unusedV, unusedF, i) == Success(s)
    {
      var h := headers[i];
      FoldStep(step, MeshState(unusedV, unusedF, []), headers, i, s);
      var uv := RemoveIfPresent(s.unusedVertexTables, h.vertexTable);
      var uf := RemoveIfPresent(s.unusedFaceTables, h.faceTable);
      if src.alsoImportLODs || h.lod <= src.bestLOD {
        if h.vertexTable >= |src.vertexData| || h.faceTable >= |src.faceData| {
          assert step(s, h) == Failure(MissingKey);
          FoldFailure(step, MeshState(unusedV, unusedF, []), headers, i + 1, |headers|);
          return Failure(MissingKey);
        }
        var shapes := GroupedShapes(groups, src.shapes, h.vertexTable);
        var mesh := Mesh(src.vertexData[h.vertexTable], src.faceData[h.faceTable], src.weightSets, h.material, shapes);
        s := MeshState(uv, uf, s.meshes + [mesh]);
      } else {
        s := MeshState(uv, uf, s.meshes);
      }
      i := i + 1;
    }
    return Success(s);
  }

  // ---------------------------------------------------------------- lemmas

  /** The headers that make a mesh, in header order. */
  function KeptHeaders(src: MeshSources, headers: seq<MeshHeader>): seq<MeshHeader>
  {
    if headers == [] then []
    else
      var last := headers[|headers| - 1];
      KeptHeaders(src, headers[..|headers| - 1]) + (if Kept(src, last) then [last] else [])
  }

  /** With every level of detail imported, every header is kept. */
  lemma {:induction false} AllLODsKept(src: MeshSources, headers: seq<MeshHeader>)
    requires src.alsoImportLODs
    ensures KeptHeaders(src, headers) == headers
  {
    if headers != [] {
      AllLODsKept(src, headers[..|headers| - 1]);
    }
  }

  /** Assembly succeeds exactly when every kept header names tables that
      exist, and fails otherwise with a KeyError; then mesh j is the mesh of
      the j-th kept header: its vertex and face lists, the weight sets, its
      material and the shapes of its vertex table. */
  lemma {:induction false} MeshesSpec(src: MeshSources, headers: seq<MeshHeader>, unusedV: seq<nat>, unusedF: seq<nat>, k: nat)
    requires k <= |headers|
    ensures var kept := KeptHeaders(src, headers[..k]);
      && (MeshesUpTo(src, headers, unusedV, unusedF, k).Success? <==>
            forall j :: 0 <= j < |kept| ==> Present(src, kept[j]))
      && (MeshesUpTo(src, headers, unusedV, unusedF, k).Failure? ==>
            MeshesUpTo(src, headers, unusedV, unusedF, k).error == MissingKey)
      && (MeshesUpTo(src, headers, unusedV, unusedF, k).Success? ==>
            var ms := MeshesUpTo(src, headers, unusedV, unusedF, k).value.meshes;
            |ms| == |kept| && forall j :: 0 <= j < |ms| ==> Present(src, kept[j]) && ms[j] == MeshOf(src, kept[j]))
  {
    if k > 0 {
      var step := MeshStep(src);
      var s0 := MeshState(unusedV, unusedF, []);
      MeshesSpec(src, headers, unusedV, unusedF, k - 1);
      var prev := KeptHeaders(src, headers[..k - 1]);
      var h := headers[k - 1];
      assert headers[..k][..k - 1] == headers[..k - 1];
      var kept := KeptHeaders(src, headers[..k]);
      assert kept == prev + (if Kept(src, h) then [h] else []);
      assert forall j :: 0 <= j < |prev| ==> kept[j] == prev[j];
      match MeshesUpTo(src, headers, unusedV, unusedF, k - 1)
      case Failure(e) =>
        assert !(forall j :: 0 <= j < |prev| ==> Present(src, prev[j]));
      case Success(s) =>
        FoldStep(step, s0, headers, k - 1, s);
        if Kept(src, h) && !Present(src, h) {
          assert !Present(src, kept[|prev|]);
        }
    }
  }

  /** In lists without repeats, a table stays unused exactly when no header
      so far names it, skipped headers included, and the lists keep having
      no repeats. */
  lemma {:induction false} UnusedSpec(src: MeshSources, headers: seq<MeshHeader>, unusedV: seq<nat>, unusedF: seq<nat>, k: nat)
    requires k <= |headers| && Distinct(unusedV) && Distinct(unusedF)
    requires MeshesUpTo(src, headers, unusedV, unusedF, k).Success?
    ensures var s := MeshesUpTo(src, headers, unusedV, unusedF, k).value;
      && Distinct(s.unusedVertexTables) && Distinct(s.unusedFaceTables)
      && (forall t :: t in s.unusedVertexTables <==> t in unusedV && forall j :: 0 <= j < k ==> headers[j].vertexTable != t)
      && (forall t :: t in s.unusedFaceTables <==> t in unusedF && forall j :: 0 <= j < k ==> headers[j].faceTable != t)
  {
    if k > 0 {
      var step := MeshStep(src);
      var s0 := MeshState(unusedV, unusedF, []);
      var h := headers[k - 1];
      FoldPrefix(step, s0, headers, k - 1, k);
      var s := MeshesUpTo(src, headers, unusedV, unusedF, k - 1).value;
      UnusedSpec(src, headers, unusedV, unusedF, k - 1);
      FoldStep(step, s0, headers, k - 1, s);
      StepMarksUsed(src, s, h);
      RemoveIfPresentSpec(s.unusedVertexTables, h.vertexTable);
      RemoveIfPresentSpec(s.unusedFaceTables, h.faceTable);
      var next := MeshesUpTo(src, headers, unusedV, unusedF, k).value;
      UnusedStep(headers, k, (m: MeshHeader) => m.vertexTable, unusedV, s.unusedVertexTables, next.unusedVertexTables);
      UnusedStep(headers, k, (m: MeshHeader) => m.faceTable, unusedF, s.unusedFaceTables, next.unusedFaceTables);
    }
  }

  /** One header more: the tables still unused are those unused before
      that this header does not name. */
  lemma UnusedStep(headers: seq<MeshHeader>, k: nat, table: MeshHeader -> nat, unused: seq<nat>, before: seq<nat>, after: seq<nat>)
    requires 0 < k <= |headers|
    requires forall t :: t in before <==> t in unused && forall j :: 0 <= j < k - 1 ==> table(headers[j]) != t
    requires forall t :: t in after <==> t in before && t != table(headers[k - 1])
    ensures forall t :: t in after <==> t in unused && forall j :: 0 <= j < k ==> table(headers[j]) != t
  {
  }

  /** A header marks its tables used whether or not it makes a mesh. */
  lemma StepMarksUsed(src: MeshSources, s: MeshState, h: MeshHeader)
    requires MeshStep(src)(s, h).Success?
    ensures MeshStep(src)(s, h).value.unusedVertexTables == RemoveIfPresent(s.unusedVertexTables, h.vertexTable)
    ensures MeshStep(src)(s, h).value.unusedFaceTables == RemoveIfPresent(s.unusedFaceTables, h.faceTable)
  {
  }

  /** `if x in s: s.remove(x)` on a list without repeats: exactly x is gone. */
  lemma RemoveIfPresentSpec(s: seq<nat>, x: nat)
    requires Distinct(s)
    ensures Distinct(RemoveIfPresent(s, x))
    ensures forall y :: y in RemoveIfPresent(s, x) <==> y in s && y != x
  {
    RemoveSpec(s, x);
  }

  // --------------------------------------------------- the model chunk

  /** The vertices of the decoded vertex tables, without their weight sets. */
  function VertexLists(decoded: seq<seq<Decoded>>): (r: seq<seq<Vertex>>)
    ensures |r| == |decoded|
    ensures forall i :: 0 <= i < |r| ==> |r[i]| == |decoded[i]|
    ensures forall i, j :: 0 <= i < |r| && 0 <= j < |r[i]| ==> r[i][j] == decoded[i][j].vertex
  {
    seq(|decoded|, i requires 0 <= i < |decoded| =>
      seq(|decoded[i]|, j requires 0 <= j < |decoded[i]| => decoded[i][j].vertex))
  }

  method SplitVertices(decoded: seq<seq<Decoded>>) returns (r: seq<seq<Vertex>>)
    ensures r == VertexLists(decoded)
  {
    r := [];
    var i := 0;
    while i < |decoded|
      invariant i <= |decoded| && |r| == i
      invariant forall k :: 0 <= k < i ==> r[k] == VertexLists(decoded)[k]
    {
      var vs: seq<Vertex> := [];
      var j := 0;
      while j < |decoded[i]|
        invariant j <= |decoded[i]| && |vs| == j
        invariant forall k :: 0 <= k < j ==> vs[k] == decoded[i][k].vertex
      {
        vs := vs + [decoded[i][j].vertex];
        j := j + 1;
      }
      r := r + [vs];
      i := i + 1;
    }
  }

  /** What a model chunk yields: its meshes, the weight-set list the next
      chunk continues, whether a vertex's weight set was out of range, the
      attribute tags that were skipped and the tables no mesh named. */
  datatype ChunkResult = ChunkResult(
    meshes: seq<Mesh>, weightSets: seq<WeightSet>, badWeightTable: bool,
    unknownTags: map<nat, nat>, unusedVertexTables: seq<nat>, unusedFaceTables: seq<nat>)

  /** The weight tables of the chunk, none without weight data. */
  function WeightTablesOf(weights: Option<WeightData>): seq<WeightTable>
  {
    match weights
    case None => []
    case Some(w) => w.tables
  }

  /** The decoded chunk, bound and assembled: the weight sets are gathered
      and the override applied, every vertex is bound, and the meshes are
      made with every vertex and face table initially unused. */
  function Assemble(decoded: seq<seq<Decoded>>, faceData: seq<seq<Face>>, shaped: ShapeState, weights: Option<WeightData>,
                    unknown: map<nat, nat>, sets: seq<WeightSet>, headers: seq<MeshHeader>, bestLOD: int, cfg: Settings)
    : Result<ChunkResult>
  {
    match Gather(decoded, weights, Range(|decoded|), sets)
    case Failure(e) => Failure(e)
    case Success(g) =>
      var ws := Override(g.sets, cfg.weightTableOverride, WeightTablesOf(weights));
      var bound := BindTables(shaped.vertexData, ws);
      var src := MeshSources(bound.tables, faceData, ws, shaped.shapes, cfg.alsoImportLODs, bestLOD);
      match Meshes(src, headers, g.unused, Range(|faceData|))
      case Failure(e) => Failure(e)
      case Success(ms) =>
        Success(ChunkResult(ms.meshes, ws, bound.bad, unknown, ms.unusedVertexTables, ms.unusedFaceTables))
  }

  method AssembleChunk(decoded: seq<seq<Decoded>>, faceData: seq<seq<Face>>, shaped: ShapeState, weights: Option<WeightData>,
                       unknown: map<nat, nat>, sets: seq<WeightSet>, headers: seq<MeshHeader>, bestLOD: int, cfg: Settings)
    returns (r: Result<ChunkResult>)
    ensures r == Assemble(decoded, faceData, shaped, weights, unknown, sets, headers, bestLOD, cfg)
  {
    var g := GatherWeights(decoded, weights, Range(|decoded|), sets);
    if g.Failure? {
      return Failure(g.error);
    }
    var ws := Override(g.value.sets, cfg.weightTableOverride, WeightTablesOf(weights));
    var bound := BindAll(shaped.vertexData, ws);
    var src := MeshSources(bound.tables, faceData, ws, shaped.shapes, cfg.alsoImportLODs, bestLOD);
    var ms := AssembleMeshes(src, headers, g.value.unused, Range(|faceData|));
    if ms.Failure? {
      return Failure(ms.error);
    }
    return Success(ChunkResult(ms.value.meshes, ws, bound.bad, unknown, ms.value.unusedVertexTables, ms.value.unusedFaceTables));
  }

  /** A model chunk: its tables, then its vertex, face and shape data, then
      binding and assembly. `names` are the first names of
      the definition file's shape items. */
  function ModelChunk(chunk: seq<byte>, names: seq<string>, sets: seq<WeightSet>, headers: seq<MeshHeader>,
                      bestLOD: int, cfg: Settings)
    : Result<ChunkResult>
  {
    match ChunkTablesOf(chunk)
    case Failure(e) => Failure(e)
    case Success(ct) => ChunkData(chunk, ct, names, sets, headers, bestLOD, cfg)
  }

  function ChunkData(chunk: seq<byte>, ct: ChunkTables, names: seq<string>, sets: seq<WeightSet>, headers: seq<MeshHeader>,
                     bestLOD: int, cfg: Settings)
    : Result<ChunkResult>
  {
    match AllVertices(chunk, ct.header.dataOffset, ct.vertexTables)
    case Failure(e) => Failure(e)
    case Success(decoded) =>
      match AllFaces(ct.faceTables)
      case Failure(e) => Failure(e)
      case Success(faceData) =>
        match AllShapes(chunk, ct.header.dataOffset, ct.shapes, names, VertexLists(decoded))
        case Failure(e) => Failure(e)
        case Success(shaped) =>
          Assemble(decoded, faceData, shaped, ct.weights, AllUnknown(ct.vertexTables), sets, headers, bestLOD, cfg)
  }

  method ImportModelChunk(chunk: seq<byte>, names: seq<string>, sets: seq<WeightSet>, headers: seq<MeshHeader>,
                          bestLOD: int, cfg: Settings)
    returns (r: Result<ChunkResult>)
    ensures r == ModelChunk(chunk, names, sets, headers, bestLOD, cfg)
  {
    var c := new Cursor(chunk);
    var ct := ReadChunkTables(c);
    if ct.Failure? {
      return Failure(ct.error);
    }
    r := ReadChunkData(c, ct.value, names, sets, headers, bestLOD, cfg);
  }

  method ReadChunkData(c: Cursor, ct: ChunkTables, names: seq<string>, sets: seq<WeightSet>, headers: seq<MeshHeader>,
                       bestLOD: int, cfg: Settings)
    returns (r: Result<ChunkResult>)
    modifies c
    ensures r == ChunkData(c.data, ct, names, sets, headers, bestLOD, cfg)
  {
    var decoded, unknown := ReadAllVertices(c, ct.header.dataOffset, ct.vertexTables);
    if decoded.Failure? {
      return Failure(decoded.error);
    }
    var faceData := GroupAllFaces(ct.faceTables);
    if faceData.Failure? {
      return Failure(faceData.error);
    }
    var vertexData := SplitVertices(decoded.value);
    var shaped := ReadAllShapes(c, ct.header.dataOffset, ct.shapes, names, vertexData);
    if shaped.Failure? {
      return Failure(shaped.error);
    }
    r := AssembleChunk(decoded.value, faceData.value, shaped.value, ct.weights, unknown, sets, headers, bestLOD, cfg);
  }

  /** A chunk's meshes carry the weight sets the chunk ends with, and each
      mesh's shapes are shapes of its own vertex table. */
  lemma ChunkMeshesShareSets(decoded: seq<seq<Decoded>>, faceData: seq<seq<Face>>, shaped: ShapeState, weights: Option<WeightData>,
                             unknown: map<nat, nat>, sets: seq<WeightSet>, headers: seq<MeshHeader>, bestLOD: int, cfg: Settings)
    requires Assemble(decoded, faceData, shaped, weights, unknown, sets, headers, bestLOD, cfg).Success?
    ensures var r := Assemble(decoded, faceData, shaped, weights, unknown, sets, headers, bestLOD, cfg).value;
      forall j :: 0 <= j < |r.meshes| ==> r.meshes[j].weightSets == r.weightSets
  {
    var g := Gather(decoded, weights, Range(|decoded|), sets).value;
    var ws := Override(g.sets, cfg.weightTableOverride, WeightTablesOf(weights));
    var bound := BindTables(shaped.vertexData, ws);
    var src := MeshSources(bound.tables, faceData, ws, shaped.shapes, cfg.alsoImportLODs, bestLOD);
    MeshesSpec(src, headers, g.unused, Range(|faceData|), |headers|);
    assert headers[..|headers|] == headers;
  }
}
