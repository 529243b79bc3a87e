/** Triangle grouping: a face table's flat index list read three at a time. */
module Faces {
  import opened Results
  import opened Tables
  import opened Chunk

  /** A triangle: three vertex indices into the mesh's vertex table. */
  datatype Face = Face(corners: seq<nat>)

  /** The faces of an index list: face j is indices 3j, 3j+1 and 3j+2. A
      list whose length is not a multiple of three runs past its end while
      the last face is read, which is an IndexError. */
  function Triangles(indices: seq<nat>): (r: Result<seq<Face>>)
  {
    if |indices| % 3 != 0 then Failure(IndexOutOfRange)
    else Success(seq(|indices| / 3, j requires 0 <= j < |indices| / 3 =>
      Face([indices[3 * j], indices[3 * j + 1], indices[3 * j + 2]])))
  }

  /** The importer's loop: a step of three over the list. */
  method GroupFaces(indices: seq<nat>) returns (r: Result<seq<Face>>)
    ensures r == Triangles(indices)
  {
    var faces: seq<Face> := [];
    var j := 0;
    while j < |indices|
      invariant j <= |indices| && j == 3 * |faces| && j % 3 == 0
      invariant forall k :: 0 <= k < |faces| ==>
        faces[k] == Face([indices[3 * k], indices[3 * k + 1], indices[3 * k + 2]])
    {
      if j + 2 >= |indices| {
        ghost var f := |faces|;
        assert |indices| == 3 * f + 1 || |indices| == 3 * f + 2;
        assert (3 * f + 1) % 3 == 1 && (3 * f + 2) % 3 == 2;
        return Failure(IndexOutOfRange);
      }
      faces := faces + [Face([indices[j], indices[j + 1], indices[j + 2]])];
      j := j + 3;
    }
    ghost var f := |faces|;
    assert |indices| == 3 * f && (3 * f) % 3 == 0 && (3 * f) / 3 == f;
    assert faces == Triangles(indices).value;
    return Success(faces);
  }

  /** The corners of the faces, in order. */
  function Corners(faces: seq<Face>): seq<nat>
  {
    if faces == [] then [] else Corners(faces[..|faces| - 1]) + faces[|faces| - 1].corners
  }

  /** Grouping loses nothing and reorders nothing: the faces' corners in order
      are the index list. */
  lemma {:induction false} TrianglesRoundTrip(indices: seq<nat>)
    requires |indices| % 3 == 0
    ensures Corners(Triangles(indices).value) == indices
    decreases |indices|
  {
    if indices != [] {
      var n := |indices| - 3;
      var init := indices[..n];
      TrianglesRoundTrip(init);
      var faces := Triangles(indices).value;
      assert faces[..|faces| - 1] == Triangles(init).value;
      assert faces[|faces| - 1].corners == indices[n..];
      assert init + indices[n..] == indices;
    }
  }

  /** Grouping succeeds exactly for lists whose length is a multiple of three,
      and then yields a third as many faces. */
  lemma TrianglesCount(indices: seq<nat>)
    ensures Triangles(indices).Success? <==> |indices| % 3 == 0
    ensures Triangles(indices).Success? ==> 3 * |Triangles(indices).value| == |indices|
  {
  }

  function FacesEntry(fts: seq<FaceTable>): nat -> Result<seq<Face>>
  {
    (i: nat) => if i < |fts| then Triangles(fts[i].indices) else Success([])
  }

  /** The faces of every face table, in table order. */
  function AllFaces(fts: seq<FaceTable>): Result<seq<seq<Face>>>
  {
    Table(|fts|, FacesEntry(fts))
  }

  method GroupAllFaces(fts: seq<FaceTable>) returns (r: Result<seq<seq<Face>>>)
    ensures r == AllFaces(fts)
  {
    var tables: seq<seq<Face>> := [];
    var i := 0;
    ghost var entry := FacesEntry(fts);
    while i < |fts|
      invariant i <= |fts|
      invariant Table(i, entry) == Success(tables)
    {
      var faces := GroupFaces(fts[i].indices);
      assert entry(i) == faces;
      if faces.Failure? {
        TableFirstFailure(|fts|, entry, i);
        return Failure(faces.error);
      }
      TableStep(i, entry, tables, faces.value);
      tables := tables + [faces.value];
      i := i + 1;
    }
    return Success(tables);
  }
}
