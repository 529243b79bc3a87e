# Monado Forge importer core, modelled in Dafny

Monado Forge is a Blender add-on that imports Xenoblade Chronicles models. This
project models its parsing core.

- The `.wimdo` **definition** container (magic `DMXM`). Its models section holds
  mesh groups and mesh headers, the bone table, shape items and shape names.
  Its materials section holds records, texture tables and the shared extra-data
  array. That array is split into one slice per material.
- The `.wismt` **payload** container (magic `DRSM`). It holds content pointers,
  texture headers and texture IDs, and zlib-compressed `xbc1` subfiles. It is
  imported in stages:
  - the root subfile, with model chunks, skipped shaders and cached textures;
  - the uncached-texture subfile and its high-resolution subfiles.

  A model chunk is decoded into:
  - vertex tables with typed field descriptors;
  - index lists grouped into triangles;
  - the weight table stream;
  - base-shape overwrites and morph targets.

  Vertices are then bound to weight sets and meshes are assembled from the
  definition's mesh headers. After that, textures are linked to materials by name
  through the texture alignment map.
- The `SAR1` **skeleton archive** (magic `1RAS`). Its table of contents is
  scanned for skeleton entries. Each entry's `BC` block holds a `SKEL` header with
  ten table-of-contents items. These give the bone and endpoint parent, name and
  transform tables.
- The **bone-name rules** of the skeleton tools:
  - which bones the flip and mirror operators select (`_R`, optionally `_R_`);
  - the mirror-name computation;
  - the armature name derived from the first bone;
  - the "non-final L/R fix" rename, which moves `_L_`/`_R_` to the end of a name.

How the model is built:
- Byte streams are `seq<byte>`. Reads go through a `Cursor` class with a fixed
  `data` and a mutable `pos`.
- Each cursor method is proved equal to a pure reader function of the bytes and
  the starting offset.
- Layout lemmas then say where each field of a decoded record comes from.
- The other lemmas state what the importer promises: round trips, counts,
  error cases, which texture wins, which tables stay unused, and how names are
  rewritten.
- The Python code modifies objects in place. The model turns that in-place
  mutation into new values returned by folds.
- Floats are carried as raw 32-bit words, because the importer only copies
  them, negates them or compares them with zero.
- Several inputs come from outside the core, and the model takes each one as a
  parameter:
  - the user settings (`ImportSettings.Settings`);
  - zlib decompression (`inflate`);
  - the texture decoder `parse_texture` (`codec`, which returns the final image
    name);
  - the best level of detail (`bestLOD`).

## Model

| member | source | states |
|---|---|---|
| Definition.ImportDefinition | monado_forge/import_funcs.py:11-224 | the definition import yields exactly the package decoded from the bytes; a success implies at least 40 bytes and the `DMXM` magic |
| Definition.MagicDecides | monado_forge/import_funcs.py:14-16 | a file whose first four bytes are not `DMXM` fails with BadMagic, whatever follows |
| Definition.ReadHeader | monado_forge/import_funcs.py:17-25 | reads the nine little-endian header words after the magic, as the header decoder defines them |
| Definition.ReadPackage | monado_forge/import_funcs.py:219-224 | builds the package from the models section (if its offset is non-zero) and the materials section (if its offset is non-zero) |
| Definition.ReadModelsIn | monado_forge/import_funcs.py:34-35 | an offset of 0 yields an empty models section; otherwise the section at the offset is decoded |
| Definition.ReadModelsHeader | monado_forge/import_funcs.py:35-47 | reads mesh data offset and count and the bones offset; skips 21 words to the shape offsets; rereads the LOD offset at models+84 |
| Definition.ReadModelsSection | monado_forge/import_funcs.py:34-134 | decodes mesh headers, bones, shape items and shape names, each only when its offset (or the mesh count) is non-zero |
| Definition.ReadModelsSectionFrom | monado_forge/import_funcs.py:49-134 | given the models header, reads the four sub-tables in the source's order |
| Definition.ReadMeshGroup | monado_forge/import_funcs.py:52-57 | reads one 40-byte mesh group record: table offset, table count and skipped bounds; the cursor ends 40 bytes on |
| Definition.ReadMeshHeader | monado_forge/import_funcs.py:60-69 | reads one 48-byte mesh header: id, flags, vertex table, face table, material index (after a skipped u16), LOD (after 14 skipped bytes) |
| Definition.ReadMeshTable | monado_forge/import_funcs.py:59-69 | reads n consecutive mesh headers; the cursor ends at base + 48n |
| Definition.ReadGroupHeaders | monado_forge/import_funcs.py:51-69 | reads a group and its mesh table; the cursor ends where the table ended, which is where the next group is read |
| Definition.MeshGroupsKeepPrefix | monado_forge/import_funcs.py:51-69 | headers gathered so far are never lost: the accumulated list is a prefix of the result |
| Definition.ReadMeshGroups | monado_forge/import_funcs.py:49-69 | reads meshCount groups, each from where the previous group's table ended, and concatenates their headers |
| Definition.FirstGroupLayout | monado_forge/import_funcs.py:50-58 | the j-th header of the result is the header at models + tableOffset + 48j of the first group |
| Definition.GroupLayout | monado_forge/import_funcs.py:58-69 | each header of a group is the 48-byte record at models + tableOffset + 48j |
| Definition.MeshTableLayout | monado_forge/import_funcs.py:59-69 | a decoded table has exactly n headers and header j is the record at base + 48j |
| Definition.ReadBonesHeader | monado_forge/import_funcs.py:75-81 | reads bone count, header offset and matrix offset from the bones header |
| Definition.NegateAll | monado_forge/import_funcs.py:95 | every component of the position row is negated, and no other change is made |
| Definition.ReadBoneMatrix | monado_forge/import_funcs.py:91-95 | reads the 16-word matrix: three axis rows as stored and the position row negated |
| Definition.ReadNamedBone | monado_forge/import_funcs.py:89-95 | reads the bone's NUL-terminated name and then its matrix |
| Definition.ReadBone | monado_forge/import_funcs.py:84-95 | reads bone b from its 24-byte header record (name offset) and its 64-byte matrix record |
| Definition.ReadBoneTable | monado_forge/import_funcs.py:83-104 | reads boneCount bones in index order |
| Definition.ReadBones | monado_forge/import_funcs.py:73-104 | reads the bones header at models + bonesOffset, then the bone table |
| Definition.MatrixLayout | monado_forge/import_funcs.py:91-95 | the matrix needs 64 bytes; negating the decoded position gives back the stored words at +48 |
| Definition.BoneLayout | monado_forge/import_funcs.py:84-91 | bone b's name is the C string at base + the name offset in its header record; its matrix is the record at base + matrixes + 64b |
| Definition.BonesLayout | monado_forge/import_funcs.py:83-104 | the table has boneCount entries and entry b is the bone decoded at index b |
| Definition.ReadFirstOfTwoNames | monado_forge/import_funcs.py:118-122 | reads both names (so both must decode) and keeps only the first |
| Definition.ReadShapeItem | monado_forge/import_funcs.py:113-122 | reads shape header i from the 28-byte record at items + headerOffset + 28i |
| Definition.ReadShapeItemTable | monado_forge/import_funcs.py:112-122 | reads the shape header names in order |
| Definition.ReadShapeItems | monado_forge/import_funcs.py:108-122 | reads the table head at models + shapeItemsOffset, then the items |
| Definition.ReadShapeName | monado_forge/import_funcs.py:131-134 | reads shape name i through the name offset in its 16-byte record |
| Definition.ReadShapeNameTable | monado_forge/import_funcs.py:130-134 | reads the shape names in order |
| Definition.ShapeItemsLayout | monado_forge/import_funcs.py:112-122 | a decoded items table has count entries; entry i is the string at the first offset of the 28-byte record i, and the second offset names a string too |
| Definition.ShapeNamesLayout | monado_forge/import_funcs.py:130-134 | a decoded names table has count entries; entry i is the string at the offset at the head of the 16-byte record i |
| Definition.ReadShapeNames | monado_forge/import_funcs.py:126-134 | reads the table head at models + shapeNamesOffset, then the names |
| Definition.ReadMaterialsHeader | monado_forge/import_funcs.py:137-143 | reads headers offset, count and the extra-data offset and count |
| Definition.ReadMaterialsIn | monado_forge/import_funcs.py:136-137 | an offset of 0 yields no materials; otherwise the section at the offset is decoded |
| Definition.MaterialAt | monado_forge/import_funcs.py:147-188 | a decoded material record keeps its position m as its index and has no extra data yet |
| Definition.MaterialFrom | monado_forge/import_funcs.py:173-188 | from the 29 record words: the name, colour, texture table and extra-data index; index m; no extra data |
| Definition.ReadTextureRef | monado_forge/import_funcs.py:179 | reads the four u16 fields of one texture reference; the cursor ends 8 bytes on |
| Definition.ReadTextureTable | monado_forge/import_funcs.py:176-179 | reads n texture references in order |
| Definition.ReadMaterial | monado_forge/import_funcs.py:147-188 | reads one material; the cursor ends 116 bytes on, as the saved `ftemp` position restores |
| Definition.ReadMaterialFrom | monado_forge/import_funcs.py:173-188 | reads the name and texture table referred to by the record's words |
| Definition.ReadMaterialRecords | monado_forge/import_funcs.py:145-188 | reads materialCount consecutive records |
| Definition.RecordCount | monado_forge/import_funcs.py:146 | exactly materialCount materials are read |
| Definition.RecordLayout | monado_forge/import_funcs.py:146-172 | material k is the record at materials + headersOffset + 116k and has no extra data yet |
| Definition.RecordsWithoutExtraData | monado_forge/import_funcs.py:182-188 | no material has extra data before the split |
| Definition.ExtraStarts | monado_forge/import_funcs.py:195-200 | the split's start list is each material's extra-data index, in order |
| Definition.WithExtraData | monado_forge/import_funcs.py:204-205 | it succeeds iff there are no more slices than materials; material k gets slice k if it has one; no other field changes |
| Definition.AttachExtraData | monado_forge/import_funcs.py:204-205 | the loop attaches the slices exactly as WithExtraData says |
| Definition.ReadMaterials | monado_forge/import_funcs.py:136-205 | reads header, records and the extra-data words, splits them and attaches the slices |
| Definition.ReadMaterialsFrom | monado_forge/import_funcs.py:145-205 | the same, given the materials header |
| Definition.MaterialsSteps | monado_forge/import_funcs.py:136-205 | a successful materials read means each stage succeeded; the result is the records with the split slices attached |
| Definition.MaterialLayout | monado_forge/import_funcs.py:145-188 | materialCount materials are returned; apart from its extra data, material k is the record at headersOffset + 116k |
| Definition.FlattenAttached | monado_forge/import_funcs.py:204-205 | concatenating the materials' extra data gives back the concatenated slices |
| Definition.ExtraDataPartition | monado_forge/import_funcs.py:189-205 | with increasing starts from 0, the materials' extra data, concatenated, is exactly the extra-data array: nothing lost or duplicated |
| ExtraData.SplitExtraData | monado_forge/import_funcs.py:193-203 | the split loop computes the Split function |
| ExtraData.SplitFailurePersists | monado_forge/import_funcs.py:196-203 | once the split fails at an element, it fails with the same error at every later element |
| ExtraData.FirstStartPositiveFails | monado_forge/import_funcs.py:195-203 | if the first material's start is above 0 and there is extra data, element 0 has no slice to go into: IndexError |
| ExtraData.AtMostOneSlicePerMaterial | monado_forge/import_funcs.py:199-205 | while fewer than 10000000 elements are read, no more slices are opened than there are materials |
| ExtraData.CountBelow | monado_forge/import_funcs.py:196-200 | the number of leading starts below a bound, which is the number of slices opened before that element |
| ExtraData.Slices | monado_forge/import_funcs.py:193-203 | the reference split: one slice per start below the array length, running from that start to the next |
| ExtraData.SplitMatchesSlices | monado_forge/import_funcs.py:193-203 | with increasing starts beginning at 0, the loop's split equals the reference slices |
| ExtraData.SlicesConcatenate | monado_forge/import_funcs.py:193-203 | concatenating the reference slices gives back the whole array |
| Subfile.ExtractSubfile | monado_forge/import_funcs.py:226-245 | extracting reads the block at the header's data offset, or at the header itself when headless |
| Subfile.HeadlessReadsAtHeader | monado_forge/import_funcs.py:227-233 | headless reads the block at headerOffset; otherwise at the u32 eight bytes into the header |
| Subfile.ReadBlock | monado_forge/import_funcs.py:234-245 | reads the `xbc1` block at the cursor as the block decoder defines it |
| Subfile.ReadNamedBlock | monado_forge/import_funcs.py:237-245 | after the size words, reads the 28-byte name and inflates the compressed bytes |
| Subfile.BlockMagicDecides | monado_forge/import_funcs.py:234-236 | the block fails with BadMagic exactly when its first four bytes are not `xbc1` |
| Subfile.SubfileSized | monado_forge/import_funcs.py:237-245 | a block that decodes has its 48-byte header, content of the declared size, and the NUL-trimmed 28-byte name |
| Subfile.SizeMismatchRejected | monado_forge/import_funcs.py:242-244 | if inflating gives a length other than the declared size, the block fails with SizeMismatch |
| Payload.ReadIndex | monado_forge/import_funcs.py:261-323 | reads the payload header, content pointers and texture directory as the index decoder defines them |
| Payload.PayloadMagicDecides | monado_forge/import_funcs.py:261-263 | without the `DRSM` magic the index fails with BadMagic; a success implies the magic and an 80-byte header |
| Payload.ReadPayloadHeader | monado_forge/import_funcs.py:264-276 | reads the header words; 7 words are skipped before the texture ID fields |
| Payload.ContentPointerAt | monado_forge/import_funcs.py:290-294 | a decoded pointer has content type below 4 (higher types fail, as the 4-entry flag list does) and a high-res index of at least -1 |
| Payload.ReadContentPointer | monado_forge/import_funcs.py:290-295 | reads offset, size, high-res index minus one, and type |
| Payload.ReadContentPointers | monado_forge/import_funcs.py:285-295 | reads contentPointersCount pointers |
| Payload.ContentPointerLayout | monado_forge/import_funcs.py:288-295 | pointer i is the 20-byte record at main + contentPointersOffset + 20i and has a valid type |
| Payload.FindContentType | monado_forge/import_funcs.py:286-294 | true exactly when some pointer has the given type |
| Payload.ReadTextureHeader | monado_forge/import_funcs.py:309-317 | reads file size, offset and name offset, and the name at table + nameOffset; the cursor ends 16 bytes on |
| Payload.ReadTextureHeaderTable | monado_forge/import_funcs.py:308-317 | reads textureCount headers; the cursor ends right after them |
| Payload.TextureHeaderLayout | monado_forge/import_funcs.py:308-317 | header i's fields are the u32s of the record at table + 16 + 16i; its name is the C string at table + nameOffset |
| Payload.ReadDirectory | monado_forge/import_funcs.py:296-323 | reads the texture IDs (if their offset is non-zero) and the texture headers (if their offset is non-zero) |
| Payload.ReadHeadersAndIDs | monado_forge/import_funcs.py:308-323 | reads the headers, then rereads the IDs right after them when both offsets coincide |
| Payload.SharedOffsetIDs | monado_forge/import_funcs.py:320-323 | when both offsets are equal, the IDs are the textureCount u16s right after the headers |
| Chunk.ReadChunkTables | monado_forge/import_funcs.py:343-432 | reads a model chunk's header and its vertex, face, weight and shape tables |
| Chunk.ReadChunkHeader | monado_forge/import_funcs.py:343-352 | reads the chunk header at offset 0 |
| Chunk.ChunkHeaderLayout | monado_forge/import_funcs.py:343-352 | the header fields are the u32s at 0, 4, 8, 12 (after them, six skipped words), 40, 48 and 56 |
| Chunk.EmptyChunk | monado_forge/import_funcs.py:360-432 | with every section offset 0, the chunk has no tables at all |
| Chunk.ReadDescriptor | monado_forge/import_funcs.py:372-374 | reads one (type, size) descriptor; the cursor ends 4 bytes on |
| Chunk.ReadDescriptors | monado_forge/import_funcs.py:369-374 | reads vtDescCount descriptors |
| Chunk.ReadVertexTable | monado_forge/import_funcs.py:362-375 | reads one 32-byte vertex table record and its descriptors |
| Chunk.ReadVertexTableList | monado_forge/import_funcs.py:361-375 | reads n vertex table records |
| Chunk.ReadVertexTables | monado_forge/import_funcs.py:360-375 | there are no vertex tables when the offset is 0 |
| Chunk.VertexTableLayout | monado_forge/import_funcs.py:361-375 | vertexTableCount tables are read; table j is the record at vertexTableOffset + 32j |
| Chunk.VertexTableFields | monado_forge/import_funcs.py:362-374 | a vertex table's data offset and count are the first two u32s; its descriptors are read at the offset and count in words 3-4 |
| Chunk.ReadFaceTable | monado_forge/import_funcs.py:380-388 | reads one face table record and its index list at dataOffset + ftDataOffset |
| Chunk.ReadFaceTableList | monado_forge/import_funcs.py:379-388 | reads n face tables |
| Chunk.ReadFaceTables | monado_forge/import_funcs.py:378-388 | there are no face tables when the offset is 0 |
| Chunk.FaceTableLayout | monado_forge/import_funcs.py:379-388 | faceTableCount tables are read; table j is the record at faceTableOffset + 20j |
| Chunk.FaceTableFields | monado_forge/import_funcs.py:380-388 | a face table holds exactly count indices; index k is the u16 at dataOffset + ftDataOffset + 2k |
| Chunk.ReadWeightTable | monado_forge/import_funcs.py:400-406 | reads one 40-byte weight table entry (data offset, count, LOD byte); the cursor ends 40 bytes on |
| Chunk.ReadWeightTableList | monado_forge/import_funcs.py:397-406 | reads weightTableCount entries consecutively |
| Chunk.WeightTableLayout | monado_forge/import_funcs.py:398-406 | entry j holds the u32s at +4 and +8 and the byte at +29 of the record at base + 40j |
| Chunk.ReadWeightData | monado_forge/import_funcs.py:392-406 | reads the weight header (count, offset, vertex table index) and its entries |
| Chunk.ReadWeights | monado_forge/import_funcs.py:391-406 | there is no weight data when the offset is 0 |
| Chunk.ReadShapeHeader | monado_forge/import_funcs.py:419-424 | reads one 20-byte shape header; the cursor ends 20 bytes on |
| Chunk.ReadShapeHeaderList | monado_forge/import_funcs.py:417-424 | reads shapeHeaderCount headers |
| Chunk.ReadShapeTarget | monado_forge/import_funcs.py:427-432 | reads one 16-byte shape target; the cursor ends 16 bytes on |
| Chunk.ReadShapeTargetList | monado_forge/import_funcs.py:425-432 | reads shapeTargetCount targets |
| Chunk.ReadShapeTablesAt | monado_forge/import_funcs.py:412-432 | reads the shape section header, then the headers and the targets |
| Chunk.ReadShapeTables | monado_forge/import_funcs.py:411-432 | there are no shape tables when the offset is 0 |
| Chunk.ReadWeightsAndShapes | monado_forge/import_funcs.py:391-432 | reads the weight section and then the shape section |
| Vertices.ReadAllVertices | monado_forge/import_funcs.py:441-483 | decodes every vertex table; the unknown-type map collects the descriptors of unknown type |
| Vertices.ReadTableVertices | monado_forge/import_funcs.py:441-479 | decodes one table's vtDataCount vertices from dataOffset + vtDataOffset |
| Vertices.ReadVertexList | monado_forge/import_funcs.py:446-479 | decodes n consecutive vertices; unknown types are recorded only if a vertex was read |
| Vertices.VertexLayout | monado_forge/import_funcs.py:446-479 | vertex j starts at dataOffset + vtDataOffset + j times the summed field size |
| Vertices.ReadVertex | monado_forge/import_funcs.py:447-479 | reads one vertex field by field; the cursor ends one stride on |
| Vertices.ReadNextField | monado_forge/import_funcs.py:450-476 | decoding one more descriptor extends the prefix decode; a failure is the whole vertex's failure |
| Vertices.ReadField | monado_forge/import_funcs.py:450-476 | a known type reads its fixed size (position 12, UVs 8, weight values 8, the rest 4 bytes); an unknown type skips its declared size |
| Vertices.ReadKnownField | monado_forge/import_funcs.py:452-473 | each known type tag reads its fixed-size field |
| Vertices.ReadByteField | monado_forge/import_funcs.py:462-473 | the colour and weight-ID fields read four single bytes |
| Vertices.PrefixFailure | monado_forge/import_funcs.py:450-476 | a field that fails makes the whole vertex fail the same way |
| Vertices.VertexDecodes | monado_forge/import_funcs.py:450-476 | a vertex decodes iff every known field lies within the data; otherwise the failure is Truncated |
| Vertices.UnknownNeverFails | monado_forge/import_funcs.py:474-476 | vertices with only unknown types always decode: skipping never fails |
| Vertices.DeclaredSizeIgnored | monado_forge/import_funcs.py:450-476 | the declared size of a known type has no effect on the stride or the decoded vertex |
| Vertices.ColourReordered | monado_forge/import_funcs.py:462-464 | the colour is stored a, r, g, b and kept as r, g, b, a |
| Vertices.UnknownTagsExact | monado_forge/import_funcs.py:474-475 | a tag is recorded as unknown iff some descriptor has it and it is not a known type |
| Faces.GroupAllFaces | monado_forge/import_funcs.py:484-490 | groups every face table's indices into triangles |
| Faces.GroupFaces | monado_forge/import_funcs.py:487-490 | the loop groups the indices in threes as Triangles defines |
| Faces.TrianglesCount | monado_forge/import_funcs.py:487-490 | grouping succeeds iff there are 3k indices (otherwise `ftVertexes[j+1]` raises), and then yields k faces |
| Faces.TrianglesRoundTrip | monado_forge/import_funcs.py:487-490 | the faces' corners, read back in order, are the original index list |
| Shapes.ReadAllShapes | monado_forge/import_funcs.py:493-531 | processes every shape header in order: base overwrite first, then morph targets |
| Shapes.ReadNextShapes | monado_forge/import_funcs.py:493-531 | one header extends the prefix result; a failure is the failure of the whole |
| Shapes.ReadHeaderShapes | monado_forge/import_funcs.py:493-531 | one header reads its target IDs, overwrites the base vertices and reads the morph shapes |
| Shapes.ShapesKeepTables | monado_forge/import_funcs.py:493-531 | processing shapes never changes how many vertex tables there are or how many vertices each has |
| Shapes.HeaderKeepsTables | monado_forge/import_funcs.py:503-509 | the same, for one header |
| Shapes.ReadBaseEntry | monado_forge/import_funcs.py:505-506 | reads a position and three normal bytes; the cursor ends 15 bytes on |
| Shapes.Overwritten | monado_forge/import_funcs.py:503-509 | overwriting keeps the number of vertices |
| Shapes.OverwriteBase | monado_forge/import_funcs.py:500-509 | overwrites the first targetVertexCount vertices, one record per block-size stride |
| Shapes.BaseOverwriteEntry | monado_forge/import_funcs.py:503-509 | vertex k < count is overwritten by the record at base + stride·k; later vertices are unchanged |
| Shapes.ApplyBaseTarget | monado_forge/import_funcs.py:494-509 | applies the base target to the vertex table the shape header names |
| Shapes.ApplyBaseTables | monado_forge/import_funcs.py:503-509 | only the named table changes, and then only by the base overwrite; with count 0 nothing is indexed |
| Shapes.ReadMorphEntry | monado_forge/import_funcs.py:519-525 | reads position, normal and vertex index from a 32-byte record; the cursor ends 32 bytes on |
| Shapes.ReadMorphEntries | monado_forge/import_funcs.py:517-528 | reads targetVertexCount entries |
| Shapes.MorphEntryLayout | monado_forge/import_funcs.py:517-525 | entry k's vertex index is the u32 at base + 32k + 28 |
| Shapes.ReadMorphShape | monado_forge/import_funcs.py:514-530 | morph j reads target index + j + 1 and is named by entry j of the name list |
| Shapes.ReadMorphShapes | monado_forge/import_funcs.py:510-531 | reads shapes 1..counts (the basis is skipped) |
| Shapes.MorphShapesSpec | monado_forge/import_funcs.py:510-531 | one shape per count; shape j belongs to the header's vertex table, takes entry j of ["basis"] + the first names of the definition's shape items, and holds the entries of target index+j+1 |
| Assembly.ImportModelChunk | monado_forge/import_funcs.py:337-600 | a model chunk yields the meshes, weight sets and unused tables the chunk assembly defines |
| Assembly.ReadChunkData | monado_forge/import_funcs.py:436-598 | from the tables, decodes vertices, faces and shapes, then binds and assembles |
| Assembly.AssembleChunk | monado_forge/import_funcs.py:534-598 | gathers the weights, applies the override, binds the vertices and builds the meshes |
| Assembly.ChunkMeshesShareSets | monado_forge/import_funcs.py:588 | every mesh of a chunk carries the same (overridden) weight set list, the chunk's list |
| Assembly.VertexLists | monado_forge/import_funcs.py:477-479 | the vertex lists keep every table and vertex in order, without the weight-only data |
| Assembly.SplitVertices | monado_forge/import_funcs.py:477-479 | the loop computes VertexLists |
| Assembly.GroupShapes | monado_forge/import_funcs.py:534-540 | the map has a key exactly for each table some shape names; each key holds that table's shapes in order |
| Assembly.ShapesOfSpec | monado_forge/import_funcs.py:534-540 | a table's shapes are exactly the shapes naming it; none iff no shape names it |
| Assembly.GroupedShapes | monado_forge/import_funcs.py:590-591 | the lookup returns the table's shapes, and none for a table absent from the map |
| Assembly.AssembleMeshes | monado_forge/import_funcs.py:573-592 | the mesh loop computes Meshes |
| Assembly.MeshesSpec | monado_forge/import_funcs.py:573-592 | succeeds iff every kept header's vertex and face tables exist (else MissingKey); mesh j is built from kept header j |
| Assembly.AllLODsKept | monado_forge/import_funcs.py:582-584 | with alsoImportLODs every header is kept |
| Assembly.UnusedSpec | monado_forge/import_funcs.py:577-580 | a table stays unused iff it started unused and no header so far names it, including dropped-LOD headers; the lists stay duplicate-free |
| Assembly.StepMarksUsed | monado_forge/import_funcs.py:577-581 | each header removes its tables from the unused lists before the LOD check |
| Assembly.RemoveIfPresentSpec | monado_forge/import_funcs.py:577-580 | removing a present or absent table keeps the list distinct and drops exactly that table |
| Binding.GatherWeights | monado_forge/import_funcs.py:542-549 | the weight-gathering step computes Gather |
| Binding.GatherSpec | monado_forge/import_funcs.py:542-549 | succeeds iff the weight vertex table exists (else the `remove` ValueError); it is then unused no more; its sets are appended |
| Binding.WeightSetsOf | monado_forge/import_funcs.py:548-549 | one weight set per weight-stream vertex, in order |
| Binding.AppendWeightSets | monado_forge/import_funcs.py:548-549 | appends the stream's weight sets to the existing list |
| Binding.OverrideSpec | monado_forge/import_funcs.py:551-557 | an override outside 1..len-1 keeps every set; otherwise the list is the suffix from that table's data offset |
| Binding.BindAll | monado_forge/import_funcs.py:560-569 | the binding loop computes BindTables |
| Binding.BindTablesSpec | monado_forge/import_funcs.py:560-571 | every table is bound vertex by vertex; the bad flag is raised iff some table raised it |
| Binding.BindTable | monado_forge/import_funcs.py:561-569 | the loop over one table computes BindList |
| Binding.BindListSpec | monado_forge/import_funcs.py:561-569 | vertex i is bound alone; the flag is raised iff some vertex raised it |
| Binding.BindVertex | monado_forge/import_funcs.py:562-569 | the per-vertex loop computes Bind |
| Binding.BindSpec | monado_forge/import_funcs.py:562-569 | only weights change, only by appending positive values; index -1 is untouched; bad iff out of range (Python negatives count) or too few values |
| Binding.SlotsSpec | monado_forge/import_funcs.py:565-567 | the weights appended are exactly the group/value pairs with positive value |
| Binding.SlotsAllPositive | monado_forge/import_funcs.py:565-567 | when every value is positive, every pair is appended, in order |
| Textures.ReadTrailer | monado_forge/import_funcs.py:613-627 | reads the `LBIM` trailer that ends at the given offset |
| Textures.TrailerSpec | monado_forge/import_funcs.py:613-627 | fails (BadSeek) iff a seek is negative; no magic: no trailer; otherwise width, height, type and version sit at end-0x20, -0x1C, -0x10 and -0x08 |
| Textures.NameToUse | monado_forge/import_funcs.py:631-633 | with differentiate the name is prefixed with the file name and "_", which keeps the name as its suffix; without it the name is unchanged |
| Textures.DecodeCachedTextures | monado_forge/import_funcs.py:610-637 | the cached-texture loop computes CachedTextures |
| Textures.ReadCachedTexture | monado_forge/import_funcs.py:611-637 | one header either is skipped (bad magic) or decodes its bytes and records its final name |
| Textures.CachedAlignment | monado_forge/import_funcs.py:610-637 | a name is aligned iff it was before or some header of that name decoded; the last such header's final name wins |
| Textures.LastDecodable | monado_forge/import_funcs.py:637 | the last decodable header with the given name among the first k |
| Textures.CachedFailure | monado_forge/import_funcs.py:613-618 | the cached pass succeeds iff every header's trailer can be read |
| Textures.Enumerate | monado_forge/import_funcs.py:645 | pairs each content pointer with its position |
| Textures.DecodeUncachedTextures | monado_forge/import_funcs.py:645-690 | the uncached loop computes UncachedTextures |
| Textures.ReadUncachedTexture | monado_forge/import_funcs.py:646-690 | one type-3 pointer decodes its medium texture and then, if it has one, its high-resolution subfile |
| Textures.HighResolutionWins | monado_forge/import_funcs.py:669-688 | no trailer: nothing changes; with a high-res subfile, it wins at double size; else the medium texture is recorded |
| Import.ImportPayload | monado_forge/import_funcs.py:247-777 | the payload import yields exactly what PayloadImport defines |
| Import.ReadRootStage | monado_forge/import_funcs.py:330-641 | reads subfile 0 only if some pointer has type 0, 1 or 2 and processes every pointer against it |
| Import.RootStageSpec | monado_forge/import_funcs.py:330-641 | the next subfile is 1 after a root stage, else 0; no model pointer: no meshes or sets; no cached pointer: no textures |
| Import.ReadRootContent | monado_forge/import_funcs.py:335-640 | the pointer loop folds the root step over every pointer |
| Import.ReadRootItem | monado_forge/import_funcs.py:336-637 | a model pointer imports its chunk; a shader is skipped; a cached-texture pointer decodes its textures |
| Import.NoModelsKeepMeshes | monado_forge/import_funcs.py:335-600 | without model pointers the root stage produces no meshes and no weight sets |
| Import.NoCachedKeepTextures | monado_forge/import_funcs.py:606-639 | without cached-texture pointers the root stage aligns no textures |
| Import.ReadUncachedStage | monado_forge/import_funcs.py:642-692 | reads the next subfile only if some pointer has type 3 and uncached import is on |
| Import.LinkTextureTable | monado_forge/import_funcs.py:759-765 | the linking loop computes LinkedNames |
| Import.LinkedNamesSpec | monado_forge/import_funcs.py:759-765 | succeeds iff each reference and its name resolve (else IndexError or KeyError); name j is the aligned name of header refs[j] |
| Import.ReadyMaterial | monado_forge/import_funcs.py:752-766 | readies one material as ReadiedMaterial defines |
| Import.ReadyMaterials | monado_forge/import_funcs.py:749-766 | readies every material in order |
| Import.ReadiedMaterialsSpec | monado_forge/import_funcs.py:749-766 | succeeds iff every texture table links; each material keeps index, name, colour (twice) and extra data, and gets its linked names |
| Import.PackageSpec | monado_forge/import_funcs.py:771-777 | without `DRSM` the import fails with BadMagic; a package keeps the definition's bones and one material per material, same names |
| Import.NoTexturesNoReferences | monado_forge/import_funcs.py:759-762 | with no texture pointers read, the import succeeds iff no material references a texture |
| Lists.PyIndex | monado_forge/import_funcs.py:651 | Python indexing: defined iff -n <= i < n, and then it is i or n + i |
| Lists.LookupNatural | monado_forge/import_funcs.py:651 | a non-negative index in range looks up that element; beyond the end it fails with IndexOutOfRange |
| Lists.LookupNegative | monado_forge/import_funcs.py:651 | a negative index counts from the end |
| Lists.DropFront | monado_forge/import_funcs.py:557 | the Python slice `s[k:]`: the suffix from k, or empty past the end |
| Lists.Remove | monado_forge/import_funcs.py:547 | list removal fails only with NotInList (the ValueError) |
| Lists.RemoveSpec | monado_forge/import_funcs.py:547 | succeeds iff the element is present, removes one occurrence, and on a distinct list drops exactly that element |
| Lists.RangeDistinct | monado_forge/import_funcs.py:542-543 | the key list of a table dictionary is 0..n-1 without duplicates |
| Bytes.LittleEndianOfEncode | monado_forge/import_funcs.py:13 | encoding a value of n bytes and decoding it little-endian gives the value back |
| Bytes.EncodeOfLittleEndian | monado_forge/import_funcs.py:13 | decoding any byte string and re-encoding it at its length gives it back |
| Bytes.Signed8 | monado_forge/import_funcs.py:466 | a signed byte lies in -128..127 and equals the unsigned byte modulo 256 |
| Bytes.Negate | monado_forge/import_funcs.py:95 | float negation flips the sign bit and nothing else |
| Bytes.NegateTwice | monado_forge/import_funcs.py:95 | negating twice gives the word back, and zero stays zero |
| Reader.FieldsReencode | monado_forge/import_funcs.py:17-25 | a decoded u32 or u16, re-encoded, is exactly the bytes it was read from |
| Reader.Cursor.ReadU32 | monado_forge/import_funcs.py:17-25 | `readAndParseInt(f,4)`: the little-endian u32 at the position, which moves 4 on; Truncated past the end |
| Reader.Cursor.ReadU16 | monado_forge/import_funcs.py:62-67 | `readAndParseInt(f,2)`: the u16 at the position, which moves 2 on; Truncated past the end |
| Reader.Cursor.ReadU8 | monado_forge/import_funcs.py:404 | `readAndParseInt(f,1)`: the byte, which moves 1 on; Truncated past the end |
| Reader.Cursor.ReadI8 | monado_forge/import_funcs.py:466 | the signed byte, read as such; Truncated past the end |
| Reader.Cursor.ReadWords | monado_forge/import_funcs.py:92-95 | n raw float words; the position moves 4n on |
| Reader.Cursor.Read | monado_forge/import_funcs.py:14 | `f.read(n)`: up to n bytes, fewer at the end, never failing |
| Reader.Cursor.ReadCString | monado_forge/import_funcs.py:90 | `readStr`: the bytes up to the first NUL, after which the position moves |
| Reader.CStringAtStops | monado_forge/import_funcs.py:90 | a decoded string is followed by a NUL and holds no NUL itself; each char is its byte |
| Reader.NulFromFirst | monado_forge/import_funcs.py:90 | the NUL found is the first at or after the offset; none means there is none |
| Reader.Cursor.ReadFixedString | monado_forge/import_funcs.py:241 | `readFixedLenStr(f,28)`: 28 bytes with the trailing NULs dropped; the position moves 28 on |
| Reader.TrimNuls | monado_forge/import_funcs.py:241 | trimming drops only trailing NULs and leaves no NUL at the end |
| Reader.Cursor.SeekSigned | monado_forge/import_funcs.py:613 | a negative seek fails with BadSeek; any other seek moves the position there |
| Skeleton.ImportSkeleton | monado_forge/skeleton.py:41-226 | the skeleton import, with the format dispatch as written, yields exactly what SkeletonImport defines |
| Skeleton.SkeletonImportSpec | monado_forge/skeleton.py:41-226 | wrong extension: WrongExtension; XC1: Unsupported; XCX: UnknownFormat, as written; success: a SAR1 game, 1 to numFiles skeletons |
| Skeleton.FormatBranchSpec | monado_forge/skeleton.py:48-72 | (corrected dispatch, not used by the import) every game has a branch; exactly XC2, XC1DE and XC3 parse SAR1, all little-endian |
| Skeleton.XcxFallsThrough | monado_forge/skeleton.py:51-71 | as written (the dispatch the import uses), XCX reaches "Unknown format"; every other game's branch matches the corrected one |
| Skeleton.ReadArchiveHeader | monado_forge/skeleton.py:73-84 | reads magic `1RAS`, file count, TOC offset and the path string |
| Skeleton.ReadTocEntry | monado_forge/skeleton.py:87-91 | reads entry i at tocOffset + 0x40i: offset, size and file name |
| Skeleton.ReadArchiveSkeletons | monado_forge/skeleton.py:86-220 | the entry loop folds every TOC entry in order |
| Skeleton.ReadSkeletonStep | monado_forge/skeleton.py:86-220 | an entry either adds a skeleton, is skipped, or cancels the import |
| Skeleton.ArchiveSkeletonsSpec | monado_forge/skeleton.py:86-220 | at most one skeleton per entry; each one is what some entry i < numFiles decodes to |
| Skeleton.ReadEntrySkeleton | monado_forge/skeleton.py:92-106 | entries without "skeleton" (XC3) or ".skl" in the name are skipped; else their block is read |
| Skeleton.ReadBlockSkeleton | monado_forge/skeleton.py:100-110 | `LCHC` and non-`BC` blocks are skipped; a `BC` block's SKEL is read at offset + dataOffset + 4 |
| Skeleton.ReadSkel | monado_forge/skeleton.py:112-126 | a missing `SKEL` magic cancels the import; else the ten TOC items and the bones are read |
| Skeleton.ReadTocItems | monado_forge/skeleton.py:120-126 | reads the ten four-word TOC items |
| Skeleton.ReadBones | monado_forge/skeleton.py:140-219 | reads the bone table, then the endpoint table if endpoints are imported |
| Skeleton.BonesSpec | monado_forge/skeleton.py:140-219 | unequal bone counts: CountMismatch; the result is the bones then (if imported) the endpoints, whose mismatch only warns |
| Skeleton.ReadBoneTable | monado_forge/skeleton.py:152-184 | reads parents.count bones in order |
| Skeleton.ReadBoneEntry | monado_forge/skeleton.py:153-184 | reads bone b from its three table records |
| Skeleton.BoneTableSpec | monado_forge/skeleton.py:152-184 | the table has one bone per parent entry; bone b is what entry b decodes to |
| Skeleton.BoneLayout | monado_forge/skeleton.py:155-163 | bone b: parent u16 at +2b, name record at +stride·b (16, or 8 for endpoints), transform at +48b |
| Skeleton.ReadBone | monado_forge/skeleton.py:155-184 | reads parent, name and transform of one bone |
| Skeleton.ReadNamedBone | monado_forge/skeleton.py:158-184 | reads the name through its offset, then the 12 transform words |
| Skeleton.BoneFlag | monado_forge/skeleton.py:183-218 | every bone carries the table's endpoint flag; an endpoint's w is never zero |
| Skeleton.TransformLayout | monado_forge/skeleton.py:164-182 | position and scale kept as stored; rotation reordered to w, x, y, z; an endpoint's zero w becomes 1.0 |
| BoneNames.SelectedSpec | monado_forge/skeleton.py:304 | without nonFinalMirror, only a final `_R` selects; it only adds bones; a selected bone always has a mirror name |
| BoneNames.FlipCount | monado_forge/skeleton.py:302-309 | the flip count is the number of selected bones |
| BoneNames.SelectedCountSpec | monado_forge/skeleton.py:303-309 | at most one per bone; equal to the count iff all are selected; nonFinalMirror never lowers it |
| BoneNames.MirrorOfRight | monado_forge/skeleton.py:375-376 | a right-only name maps to the left of equal length; its mirror is the name again; a final `_R` becomes `_L` |
| BoneNames.MirrorOfLeft | monado_forge/skeleton.py:375-376 | a name with `_L` maps to all `_L`→`_R` (the later rule wins); a left-only name round-trips |
| BoneNames.MirrorOfUntagged | monado_forge/skeleton.py:373-376 | a name with neither tag gets the empty mirror name, so no partner bone is looked up by a real name |
| BoneNames.MirrorInvolution | monado_forge/skeleton.py:375-376 | for a name with exactly one side's tag, mirroring twice gives it back |
| BoneNames.ArmatureNameSpec | monado_forge/skeleton.py:266-270 | no bones: IndexError. Else the first name minus `_top`, then `_Bone`; neither is kept as is; each is stripped only when at the end |
| BoneNames.RewritesSpec | monado_forge/skeleton.py:474-479 | at most two renames; one iff `_L_` or `_R_` occurs; none leaves the name; a rename ends it in `_L`/`_R` |
| BoneNames.CollapseInnerTag | monado_forge/skeleton.py:475-478 | replacing the only inner tag with "_" joins the two parts around one underscore |
| BoneNames.FixMovesTag | monado_forge/skeleton.py:474-479 | a name p + `_X_` + s with no other L/R is renamed to p + `_` + s + `_X`, counted once |
| BoneNames.Armature.FixNonFinalLR | monado_forge/skeleton.py:508-515 | selected bones get the fixed name, others are unchanged, and the count is their total renames |
| BoneNames.Armature.FixAllNonFinalLR | monado_forge/skeleton.py:471-479 | every bone gets the fixed name; the count is the total over all bones |
| BoneNames.TotalRewritesSpec | monado_forge/skeleton.py:471-479 | at most two renames per bone; zero when no selected name has an inner tag |

## Left out

- Blender is left out: building objects, armatures, meshes and materials, edit-bone matrices, layers, bone roll, the epsilon clamps, and the flip and mirror matrix edits (skeleton.py:229-274, 303-309, 377-388). These are scene operations and floating-point geometry. Only the naming and selection rules are modelled.
- Floating-point arithmetic is left out. Floats are carried as raw words:
  - the UV `1-v` flip, the normal scaling and normalisation, and the weight values ÷65535 are not computed;
  - the bone position's change of basis (import_funcs.py:97-99) is not computed.
  Float negation and the zero tests are modelled exactly on the sign bit.
- zlib decompression is the `inflate` parameter. `parse_texture` is the `codec` parameter, which returns the final image name and has no side effects.
- The `res0`/`res1`/`res2` directory prefixes under keepAllResolutions (import_funcs.py:634-635, 674-675, 685-686) are `os.path.join` on paths. The name given to `codec` omits them.
- The XC3 external texture repository (import_funcs.py:698-747) is left out: it reads other files from disk. The `listOfCachedTextureNames` list that only it uses is left out too.
- Shader content (type 1) is recognised and skipped, as the source does.
- The bare seeks to the vertex buffer, shader and texture tables (import_funcs.py:210-217) are left out; nothing is read after them.
- Progress prints, warnings and error reports are left out. A warning that continues is modelled as continuing, and a cancel as a failure.
- `indexVertices` (import_funcs.py:768-769) is left out. It lives in classes.py, which is not part of this model, and so is `getBestLOD`: `bestLOD` is an input.
- Weight-set aliasing is modelled as a snapshot. Every mesh gets the list of weight sets as it is after the override, and later chunks do not mutate it.
- File paths are inputs. The payload's base file name (import_funcs.py:248) and the skeleton file's extension (skeleton.py:41) are parameters, because path handling is `os.path` work.
- Skeleton formats other than SAR1 are not parsed, in the source or here. XC1 (BRES) fails as not yet supported. XCX fails as an unknown format, because the dispatch is modelled as written (see Findings). Big-endian reads are never reached, since every SAR1 game is little-endian, so the reader is little-endian only.
- The reading helpers `readAndParseInt`, `readAndParseFloat`, `readStr` and `readFixedLenStr` (utils.py) and `setWeight` (classes.py) are not part of this model. Their behaviour is assumed as follows:
  - a read past the end of the data fails with Truncated;
  - a string with no NUL before the end fails;
  - each byte of a string is one character, with no UTF-8 decoding;
  - `readAndParseFloat` yields the raw word;
  - `setWeight(group, value)` appends a (group, value) weight to the vertex's list of weights.
- The mirror operators' partner lookup and `isBonePairAutoMirrorable` (skeleton.py:377-388) are left out. They compare edit-bone floats within epsilons. Only the mirror name is modelled.
- The "flip selected" and "mirror selected" operators (skeleton.py:332-345, 414-450) are left out. They act on Blender's selection and matrices and have no name rule beyond `MirrorName`.
- Blender's unique-name suffixing (`.001`) when a rename collides is left out. `FixNonFinalLR` assigns the computed name.
- Skeleton.BonesSpec reads the endpoint tables even when their counts disagree. The source warns "endpoint import skipped" but still reads them (skeleton.py:146-151, 185-219), and the model follows the code.
- The bone-parent invariant (a parent precedes its child) is assumed by the Blender stage. The parser does not check it, and the model does not assert it.
- Definition material headers: only the fields the importer uses are decoded. The skipped unknowns are read as words and then dropped.

## Findings

| source | as written | input that shows it | evidently intended | confidence | as-written member | corrected member |
|---|---|---|---|---|---|---|
| monado_forge/skeleton.py:51-71 | the XCX branch sets the format to `"[xcx]"` but tests for `".xcx"`, so XCX falls through to "Unknown format: [xcx]" | game XCX with a `.xcx` file | report "(whatever XCX uses) format not yet supported" | not executed | Skeleton.XcxFallsThrough | Skeleton.FormatBranchSpec |

The import (Skeleton.SkeletonImport) follows the dispatch as written, so its contract reports XCX as an unknown format, which is what the code does. Skeleton.FormatBranch is the corrected dispatch, and Skeleton.FormatBranchSpec proves the intended property about it.
