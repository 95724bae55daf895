/**
 * Mesh loading (`MeshModel`): the shapes an OBJ parser returns are expanded
 * face by face into one flat vertex list and one index list, one entry per
 * face corner, with no sharing of vertices.
 *
 * The parser is an oracle: its answer `(res, error, attrib, shapes)` is an
 * input. The index written for a corner is its position within its own shape:
 * the counter restarts at 0 for every shape while the vertex list keeps
 * growing, and the model keeps that behaviour.
 */
module Mesh {
  import opened Base

  /** `tinyobj::index_t`: indices into the attribute arrays (-1 when absent). */
  datatype ObjIndex = ObjIndex(vertexIndex: int, normalIndex: int, texcoordIndex: int)

  /** The mesh of a `tinyobj::shape_t`: one index per face corner and the corner count of every face. */
  datatype ObjShape = ObjShape(indices: seq<ObjIndex>, numFaceVertices: seq<byte>)

  /** `tinyobj::attrib_t`: flat coordinate arrays. */
  datatype ObjAttrib = ObjAttrib(vertices: seq<real>, normals: seq<real>, texcoords: seq<real>)

  /** What `tinyobj::LoadObj` returns and writes. */
  datatype ObjLoad = ObjLoad(res: bool, error: string, attrib: ObjAttrib, shapes: seq<ObjShape>)

  /** The two values each vertex of the list is built from: a position and a texture coordinate. */
  datatype MeshVertex = MeshVertex(pos: Vec3, tex: Vec2)

  /** `sizeof(VertexMesh)`: a `Vector3D` position, a `Vector2D` texture coordinate and a `Vector3D` normal. */
  const VertexMeshSize: nat := 12 + 8 + 12

  const LoadFailure: string := "Loading Mesh Resources was not successful"

  /** The vertex-buffer request the constructor makes: vertex data, stride, count and shader size. */
  datatype VertexBufferRequest = VertexBufferRequest(vertices: seq<MeshVertex>, sizeVertex: nat, sizeList: nat, shaderSize: nat)

  /** The index-buffer request the constructor makes: index data and count. */
  datatype IndexBufferRequest = IndexBufferRequest(indices: seq<nat>, sizeList: nat)

  /** A constructed mesh: the two buffer requests, which the getters hand out. */
  datatype MeshModel = MeshModel(vertexBuffer: VertexBufferRequest, indexBuffer: IndexBufferRequest)
  {
    function GetVertex(): VertexBufferRequest { vertexBuffer }
    function GetIndex(): IndexBufferRequest { indexBuffer }
  }

  /**
   * How construction ends: with a mesh, with the exception the constructor
   * throws, or in undefined behaviour (an attribute index out of range, or
   * `&list[0]` on an empty list).
   */
  datatype MeshOutcome = Built(model: MeshModel) | Failed(message: string) | Undefined

  function Sum(s: seq<byte>): nat
  {
    if s == [] then 0 else Sum(s[..|s| - 1]) + s[|s| - 1]
  }

  lemma SumStep(s: seq<byte>, j: nat)
    requires j < |s|
    ensures Sum(s[..j + 1]) == Sum(s[..j]) + s[j]
  {
    assert s[..j + 1][..j] == s[..j];
  }

  lemma {:induction false} SumPrefixBound(s: seq<byte>, j: nat)
    requires j <= |s|
    ensures Sum(s[..j]) <= Sum(s)
  {
    if j < |s| {
      SumPrefixBound(s[..|s| - 1], j);
      assert s[..|s| - 1][..j] == s[..j];
      assert Sum(s) == Sum(s[..|s| - 1]) + s[|s| - 1];
    } else {
      assert s[..j] == s;
    }
  }

  /** The number of face corners of a shape. */
  function Corners(shape: ObjShape): nat
  {
    Sum(shape.numFaceVertices)
  }

  /** The index of the first corner of face `j` within its shape. */
  function FaceOffset(shape: ObjShape, j: nat): nat
    requires j <= |shape.numFaceVertices|
  {
    Sum(shape.numFaceVertices[..j])
  }

  /** The number of face corners of all shapes. */
  function TotalCorners(shapes: seq<ObjShape>): nat
  {
    if shapes == [] then 0 else TotalCorners(shapes[..|shapes| - 1]) + Corners(shapes[|shapes| - 1])
  }

  /** Both attribute reads of a corner are in range. */
  predicate InRange(attrib: ObjAttrib, idx: ObjIndex)
  {
    && 0 <= 3 * idx.vertexIndex && 3 * idx.vertexIndex + 2 < |attrib.vertices|
    && 0 <= 2 * idx.texcoordIndex && 2 * idx.texcoordIndex + 1 < |attrib.texcoords|
  }

  /** Every read the expansion makes of a shape is in range. */
  predicate ShapeReadable(attrib: ObjAttrib, shape: ObjShape)
  {
    && Corners(shape) <= |shape.indices|
    && forall p | 0 <= p < Corners(shape) :: InRange(attrib, shape.indices[p])
  }

  predicate Readable(attrib: ObjAttrib, shapes: seq<ObjShape>)
  {
    forall i | 0 <= i < |shapes| :: ShapeReadable(attrib, shapes[i])
  }

  /** The vertex built from one corner: three position floats and two texture-coordinate floats. */
  function VertexAt(attrib: ObjAttrib, idx: ObjIndex): MeshVertex
    requires InRange(attrib, idx)
  {
    var v, t := 3 * idx.vertexIndex, 2 * idx.texcoordIndex;
    MeshVertex(Vec3(attrib.vertices[v], attrib.vertices[v + 1], attrib.vertices[v + 2]),
               Vec2(attrib.texcoords[t], attrib.texcoords[t + 1]))
  }

  /** The vertices of the first `n` corners of a shape. */
  function ShapeVertices(attrib: ObjAttrib, shape: ObjShape, n: nat): (vs: seq<MeshVertex>)
    requires n <= |shape.indices|
    requires forall p | 0 <= p < n :: InRange(attrib, shape.indices[p])
    ensures |vs| == n
  {
    seq(n, p requires 0 <= p < n => VertexAt(attrib, shape.indices[p]))
  }

  /** The indices written for the first `n` corners of a shape: the corner positions 0, 1, ..., as 32-bit values. */
  function ShapeIndices(n: nat): (ix: seq<nat>)
    ensures |ix| == n
  {
    seq(n, p => U32(p))
  }

  /** The vertex list for all shapes: each shape's corners, shape after shape. */
  function AllVertices(attrib: ObjAttrib, shapes: seq<ObjShape>): (vs: seq<MeshVertex>)
    requires Readable(attrib, shapes)
    ensures |vs| == TotalCorners(shapes)
  {
    if shapes == [] then []
    else
      var last := shapes[|shapes| - 1];
      AllVertices(attrib, shapes[..|shapes| - 1]) + ShapeVertices(attrib, last, Corners(last))
  }

  /** The index list for all shapes: each shape numbers its own corners from 0. */
  function AllIndices(shapes: seq<ObjShape>): (ix: seq<nat>)
    ensures |ix| == TotalCorners(shapes)
  {
    if shapes == [] then []
    else AllIndices(shapes[..|shapes| - 1]) + ShapeIndices(Corners(shapes[|shapes| - 1]))
  }

  /**
   * The nested face loop: for every shape, for every face, for every corner,
   * push the corner's vertex and its position within the shape.
   */
  method ExpandFaces(attrib: ObjAttrib, shapes: seq<ObjShape>) returns (vertexList: seq<MeshVertex>, indexList: seq<nat>)
    requires Readable(attrib, shapes)
    ensures vertexList == AllVertices(attrib, shapes)
    ensures indexList == AllIndices(shapes)
    ensures |vertexList| == |indexList| == TotalCorners(shapes)
  {
    vertexList, indexList := [], [];
    var i := 0;
    while i < |shapes|
      invariant 0 <= i <= |shapes|
      invariant Readable(attrib, shapes[..i])
      invariant vertexList == AllVertices(attrib, shapes[..i])
      invariant indexList == AllIndices(shapes[..i])
    {
      ShapeStep(attrib, shapes, i);
      var shapeVertices, shapeIndices := ExpandShape(attrib, shapes[i]);
      vertexList := vertexList + shapeVertices;
      indexList := indexList + shapeIndices;
      i := i + 1;
    }
    assert shapes[..i] == shapes;
  }

  /**
   * The body of the shape loop: `indexPosition` starts at 0, walks the faces,
   * and every corner pushes its vertex and `indexPosition + k`.
   */
  method ExpandShape(attrib: ObjAttrib, shape: ObjShape) returns (vertexList: seq<MeshVertex>, indexList: seq<nat>)
    requires ShapeReadable(attrib, shape)
    ensures vertexList == ShapeVertices(attrib, shape, Corners(shape))
    ensures indexList == ShapeIndices(Corners(shape))
  {
    vertexList, indexList := [], [];
    var indexPosition: nat := 0;
    var j := 0;
    while j < |shape.numFaceVertices|
      invariant 0 <= j <= |shape.numFaceVertices|
      invariant indexPosition == FaceOffset(shape, j) <= Corners(shape)
      invariant vertexList == ShapeVertices(attrib, shape, indexPosition)
      invariant indexList == ShapeIndices(indexPosition)
    {
      var verticeNumber: nat := shape.numFaceVertices[j];
      SumStep(shape.numFaceVertices, j);
      SumPrefixBound(shape.numFaceVertices, j + 1);
      var k: nat := 0;
      while k < verticeNumber
        invariant 0 <= k <= verticeNumber
        invariant vertexList == ShapeVertices(attrib, shape, indexPosition + k)
        invariant indexList == ShapeIndices(indexPosition + k)
      {
        var idx := shape.indices[indexPosition + k];
        var vx := attrib.vertices[3 * idx.vertexIndex + 0];
        var vy := attrib.vertices[3 * idx.vertexIndex + 1];
        var vz := attrib.vertices[3 * idx.vertexIndex + 2];
        var tx := attrib.texcoords[2 * idx.texcoordIndex + 0];
        var ty := attrib.texcoords[2 * idx.texcoordIndex + 1];
        vertexList := vertexList + [MeshVertex(Vec3(vx, vy, vz), Vec2(tx, ty))];
        indexList := indexList + [U32(U32(indexPosition) + k)];
        U32Add(indexPosition, k);
        CornerStep(attrib, shape, indexPosition + k);
        k := k + 1;
      }
      indexPosition := indexPosition + verticeNumber;
      j := j + 1;
    }
    assert shape.numFaceVertices[..j] == shape.numFaceVertices;
  }

  /** One more corner adds its vertex and its position to the shape's lists. */
  lemma CornerStep(attrib: ObjAttrib, shape: ObjShape, m: nat)
    requires ShapeReadable(attrib, shape) && m < Corners(shape)
    ensures ShapeVertices(attrib, shape, m + 1) == ShapeVertices(attrib, shape, m) + [VertexAt(attrib, shape.indices[m])]
    ensures ShapeIndices(m + 1) == ShapeIndices(m) + [U32(m)]
  {
  }

  /** One more shape appends that shape's lists. */
  lemma ShapeStep(attrib: ObjAttrib, shapes: seq<ObjShape>, i: nat)
    requires Readable(attrib, shapes) && i < |shapes|
    ensures Readable(attrib, shapes[..i]) && Readable(attrib, shapes[..i + 1])
    ensures AllVertices(attrib, shapes[..i + 1])
         == AllVertices(attrib, shapes[..i]) + ShapeVertices(attrib, shapes[i], Corners(shapes[i]))
    ensures AllIndices(shapes[..i + 1]) == AllIndices(shapes[..i]) + ShapeIndices(Corners(shapes[i]))
  {
    assert shapes[..i + 1][..i] == shapes[..i];
  }

  /**
   * `MeshModel::MeshModel`: throw unless the parser succeeded with an empty
   * error string; otherwise expand the faces and request a vertex buffer with
   * stride `sizeof(VertexMesh)` and an index buffer, each sized by its list.
   */
  method Load(load: ObjLoad, meshShaderSize: nat) returns (r: MeshOutcome)
    ensures r.Failed? <==> !(load.error == [] && load.res)
    ensures r.Failed? ==> r.message == LoadFailure
    ensures r.Undefined? <==> load.error == [] && load.res && (!Readable(load.attrib, load.shapes) || TotalCorners(load.shapes) == 0)
    ensures r.Built? ==>
      && r.model.GetVertex() == VertexBufferRequest(AllVertices(load.attrib, load.shapes), VertexMeshSize,
                                                    U32(TotalCorners(load.shapes)), U32(meshShaderSize))
      && r.model.GetIndex() == IndexBufferRequest(AllIndices(load.shapes), U32(TotalCorners(load.shapes)))
  {
    if load.error == [] && load.res {
      if !Readable(load.attrib, load.shapes) {
        return Undefined;
      }
      var vertexList, indexList := ExpandFaces(load.attrib, load.shapes);
      if |vertexList| == 0 {
        return Undefined;
      }
      var vertexBuffer := VertexBufferRequest(vertexList, VertexMeshSize, U32(|vertexList|), U32(meshShaderSize));
      var indexBuffer := IndexBufferRequest(indexList, U32(|indexList|));
      r := Built(MeshModel(vertexBuffer, indexBuffer));
    } else {
      r := Failed(LoadFailure);
    }
  }

  /** The lists for a prefix of the shapes are prefixes of the lists for all shapes. */
  lemma {:induction false} AllPrefix(attrib: ObjAttrib, shapes: seq<ObjShape>, n: nat)
    requires Readable(attrib, shapes) && n <= |shapes|
    ensures Readable(attrib, shapes[..n])
    ensures AllVertices(attrib, shapes[..n]) <= AllVertices(attrib, shapes)
    ensures AllIndices(shapes[..n]) <= AllIndices(shapes)
  {
    if n < |shapes| {
      var init := shapes[..|shapes| - 1];
      AllPrefix(attrib, init, n);
      assert init[..n] == shapes[..n];
    } else {
      assert shapes[..n] == shapes;
    }
  }

  /** Where shape `i` starts in both lists: after the corners of all earlier shapes. */
  lemma ShapeSlot(attrib: ObjAttrib, shapes: seq<ObjShape>, i: nat)
    requires Readable(attrib, shapes) && i < |shapes|
    ensures
      var start := TotalCorners(shapes[..i]);
      var n := Corners(shapes[i]);
      && start + n <= TotalCorners(shapes)
      && AllVertices(attrib, shapes)[start..start + n] == ShapeVertices(attrib, shapes[i], n)
      && AllIndices(shapes)[start..start + n] == ShapeIndices(n)
  {
    var pre, upto := shapes[..i], shapes[..i + 1];
    var n := Corners(shapes[i]);
    AllPrefix(attrib, shapes, i + 1);
    assert upto[..|upto| - 1] == pre && upto[|upto| - 1] == shapes[i];
    assert AllVertices(attrib, upto) == AllVertices(attrib, pre) + ShapeVertices(attrib, shapes[i], n);
    assert AllIndices(upto) == AllIndices(pre) + ShapeIndices(n);
    SliceOfPrefix(AllVertices(attrib, pre), ShapeVertices(attrib, shapes[i], n), AllVertices(attrib, shapes));
    SliceOfPrefix(AllIndices(pre), ShapeIndices(n), AllIndices(shapes));
  }

  /** The part `y` of a prefix `x + y` of `z` is the slice of `z` after `x`. */
  lemma SliceOfPrefix<T>(x: seq<T>, y: seq<T>, z: seq<T>)
    requires x + y <= z
    ensures z[|x|..|x| + |y|] == y
  {
    assert z[|x|..|x| + |y|] == (x + y)[|x|..];
  }

  /**
   * The index written for corner `p` of shape `i` is `p`, its position within
   * that shape, not its position in the vertex list: every shape's indices
   * start again at 0.
   */
  lemma IndexRestartsPerShape(shapes: seq<ObjShape>, i: nat, p: nat)
    requires i < |shapes| && p < Corners(shapes[i])
    ensures TotalCorners(shapes[..i]) + p < |AllIndices(shapes)|
    ensures AllIndices(shapes)[TotalCorners(shapes[..i]) + p] == U32(p)
  {
    var pre := shapes[..i + 1];
    var head, tail := AllIndices(shapes[..i]), ShapeIndices(Corners(shapes[i]));
    assert AllIndices(pre) == head + tail by {
      assert pre[..|pre| - 1] == shapes[..i] && pre[|pre| - 1] == shapes[i];
    }
    assert AllIndices(pre)[|head| + p] == U32(p) by {
      assert tail[p] == U32(p);
    }
    assert AllIndices(shapes)[|head| + p] == AllIndices(pre)[|head| + p] by {
      IndicesPrefix(shapes, i + 1);
    }
  }

  /** The index list for a prefix of the shapes is a prefix of the whole index list. */
  lemma {:induction false} IndicesPrefix(shapes: seq<ObjShape>, n: nat)
    requires n <= |shapes|
    ensures AllIndices(shapes[..n]) <= AllIndices(shapes)
  {
    if n < |shapes| {
      IndicesPrefix(shapes[..|shapes| - 1], n);
      assert shapes[..|shapes| - 1][..n] == shapes[..n];
    } else {
      assert shapes[..n] == shapes;
    }
  }

  /** Corner `p` of shape `i` gets the vertex its own index entry names. */
  lemma CornerVertex(attrib: ObjAttrib, shapes: seq<ObjShape>, i: nat, p: nat)
    requires Readable(attrib, shapes) && i < |shapes| && p < Corners(shapes[i])
    ensures TotalCorners(shapes[..i]) + p < |AllVertices(attrib, shapes)|
    ensures InRange(attrib, shapes[i].indices[p])
    ensures AllVertices(attrib, shapes)[TotalCorners(shapes[..i]) + p] == VertexAt(attrib, shapes[i].indices[p])
  {
    ShapeSlot(attrib, shapes, i);
    assert ShapeReadable(attrib, shapes[i]);
  }

  /** Corner `k` of face `j` reads the index entry at the face's offset plus `k`. */
  lemma FaceCorner(attrib: ObjAttrib, shape: ObjShape, j: nat, k: nat)
    requires ShapeReadable(attrib, shape)
    requires j < |shape.numFaceVertices| && k < shape.numFaceVertices[j]
    ensures FaceOffset(shape, j) + k < Corners(shape)
    ensures ShapeVertices(attrib, shape, Corners(shape))[FaceOffset(shape, j) + k]
         == VertexAt(attrib, shape.indices[FaceOffset(shape, j) + k])
  {
    SumStep(shape.numFaceVertices, j);
    SumPrefixBound(shape.numFaceVertices, j + 1);
  }

  /** The vertex list never depends on the normals array. */
  lemma {:induction false} NormalsNotRead(attrib: ObjAttrib, normals: seq<real>, shapes: seq<ObjShape>)
    requires Readable(attrib, shapes)
    ensures Readable(attrib.(normals := normals), shapes)
    ensures AllVertices(attrib.(normals := normals), shapes) == AllVertices(attrib, shapes)
  {
    var other := attrib.(normals := normals);
    assert forall idx :: InRange(other, idx) == InRange(attrib, idx);
    if shapes != [] {
      NormalsNotRead(attrib, normals, shapes[..|shapes| - 1]);
      var last := shapes[|shapes| - 1];
      assert ShapeVertices(other, last, Corners(last)) == ShapeVertices(attrib, last, Corners(last));
    }
  }

  /** A shape made of triangles only has three corners per face. */
  lemma {:induction false} TriangleCorners(s: seq<byte>)
    requires forall j | 0 <= j < |s| :: s[j] == 3
    ensures Sum(s) == 3 * |s|
  {
    if s != [] {
      TriangleCorners(s[..|s| - 1]);
    }
  }

  /**
   * Two shapes of one triangle each: the vertex list has six entries but the
   * index list is 0, 1, 2, 0, 1, 2, so the second triangle's indices name the
   * first triangle's vertices.
   */
  lemma TwoTrianglesShareIndices(a: ObjShape, b: ObjShape)
    requires a.numFaceVertices == [3] && b.numFaceVertices == [3]
    ensures AllIndices([a, b]) == [0, 1, 2, 0, 1, 2]
  {
    assert [a, b][..1] == [a];
    assert [a][..0] == [];
    assert Sum([3]) == 3 by {
      assert [3 as byte][..0] == [];
    }
    assert ShapeIndices(3) == [0, 1, 2];
  }
}
