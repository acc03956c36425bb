/** The CPU side of `cvgl::loadModel`: the OBJ parser's output (flat attribute
    arrays plus, per shape, the arity of every face and one index record per
    face corner) is de-indexed into parallel per-corner position, normal and
    texture-coordinate buffers, from which the `Model` record takes its
    attribute flags and vertex count. The parser itself and the GPU upload
    are outside the model: the parser's result is an input value. */
module ObjMesh {

  /** `tinyobj::index_t`: one face corner's indices into the attribute arrays. */
  datatype Index = Index(vertexIndex: int, normalIndex: int, texcoordIndex: int)

  /** The fields of `tinyobj::mesh_t` that are read: the arity of each face,
      and the corner records of all faces, one after the other. */
  datatype Mesh = Mesh(numFaceVertices: seq<nat>, indices: seq<Index>)

  datatype Shape = Shape(name: string, mesh: Mesh)

  /** `tinyobj::attrib_t`: flat arrays, three reals per position and normal,
      two per texture coordinate. */
  datatype Attrib = Attrib(vertices: seq<real>, normals: seq<real>, texcoords: seq<real>)

  /** Everything `tinyobj::LoadObj` hands back: its success flag, the
      attributes, the shapes and the warning and error texts. */
  datatype ParseResult = ParseResult(ok: bool, attrib: Attrib, shapes: seq<Shape>, warn: string, err: string)

  datatype Vec3 = Vec3(x: real, y: real, z: real)
  datatype Vec2 = Vec2(x: real, y: real)

  /** The three local vectors `vertices`, `normals` and `texcoords`. */
  datatype Geometry = Geometry(vertices: seq<Vec3>, normals: seq<Vec3>, texcoords: seq<Vec2>)

  /** The CPU-visible part of `cvgl::Model`: the attribute flags and the
      vertex count `sz`. The GL object names are not modelled. */
  datatype Model = Model(hasNormal: bool, hasTexcoord: bool, sz: nat)

  /** What `loadModel` yields: a model with its buffers, or process
      termination after a parse failure. */
  datatype LoadOutcome = Loaded(model: Model, geometry: Geometry) | Terminated

  /** The line written to the error stream just before terminating. */
  function FailureLine(path: string): string
  {
    "failed loading OBJ : " + path
  }

  // ---------------------------------------------------------------------------
  // Index bookkeeping

  /** The sum of the face arities of `fvs`. */
  function Sum(fvs: seq<nat>): nat
  {
    if fvs == [] then 0 else Sum(fvs[..|fvs| - 1]) + fvs[|fvs| - 1]
  }

  /** Summing a prefix of the arities never exceeds the sum of all of them. */
  lemma {:induction false} SumPrefix(fvs: seq<nat>, j: nat)
    requires j <= |fvs|
    ensures Sum(fvs[..j]) <= Sum(fvs)
    decreases |fvs|
  {
    if j < |fvs| {
      var init := fvs[..|fvs| - 1];
      assert fvs[..j] == init[..j];
      SumPrefix(init, j);
    } else {
      assert fvs[..j] == fvs;
    }
  }

  lemma SumStep(fvs: seq<nat>, f: nat)
    requires f < |fvs|
    ensures Sum(fvs[..f + 1]) == Sum(fvs[..f]) + fvs[f]
  {
    assert fvs[..f + 1][..f] == fvs[..f];
  }

  /** The corners of a shape have enough index records for its faces. */
  predicate Sized(s: Shape)
  {
    Sum(s.mesh.numFaceVertices) <= |s.mesh.indices|
  }

  predicate AllSized(shapes: seq<Shape>)
  {
    forall i :: 0 <= i < |shapes| ==> Sized(shapes[i])
  }

  /** The corners of a shape in face order, then corner order. */
  function Corners(s: Shape): (cs: seq<Index>)
    requires Sized(s)
    ensures |cs| == Sum(s.mesh.numFaceVertices)
  {
    s.mesh.indices[..Sum(s.mesh.numFaceVertices)]
  }

  /** Where face `f` of a shape starts in its `indices`: the arities of the
      faces before it, summed. */
  function FaceStart(s: Shape, f: nat): nat
    requires f <= |s.mesh.numFaceVertices|
  {
    Sum(s.mesh.numFaceVertices[..f])
  }

  /** The corner records of face `f`: `fv` of them, starting at the
      running offset. */
  function FaceCorners(s: Shape, f: nat): (cs: seq<Index>)
    requires Sized(s) && f < |s.mesh.numFaceVertices|
    ensures |cs| == s.mesh.numFaceVertices[f]
  {
    SumStep(s.mesh.numFaceVertices, f);
    SumPrefix(s.mesh.numFaceVertices, f + 1);
    s.mesh.indices[FaceStart(s, f) .. FaceStart(s, f) + s.mesh.numFaceVertices[f]]
  }

  /** The corners of the first `n` faces, face after face. */
  function FacesUpTo(s: Shape, n: nat): seq<Index>
    requires Sized(s) && n <= |s.mesh.numFaceVertices|
  {
    if n == 0 then [] else FacesUpTo(s, n - 1) + FaceCorners(s, n - 1)
  }

  /** Walking the faces with an offset that starts at 0 and grows by each
      face's arity visits exactly the shape's corners, in order, and stays
      within the shape's `indices`. */
  lemma {:induction false} FaceWalkVisitsCorners(s: Shape, n: nat)
    requires Sized(s) && n <= |s.mesh.numFaceVertices|
    ensures FaceStart(s, n) <= |s.mesh.indices|
    ensures FacesUpTo(s, n) == s.mesh.indices[..FaceStart(s, n)]
    ensures n == |s.mesh.numFaceVertices| ==> FacesUpTo(s, n) == Corners(s)
  {
    var fvs := s.mesh.numFaceVertices;
    SumPrefix(fvs, n);
    if n > 0 {
      FaceWalkVisitsCorners(s, n - 1);
      SumStep(fvs, n - 1);
      var idx := s.mesh.indices;
      assert idx[..FaceStart(s, n - 1)] + idx[FaceStart(s, n - 1) .. FaceStart(s, n)]
        == idx[..FaceStart(s, n)];
    }
    if n == |fvs| {
      assert fvs[..n] == fvs;
    }
  }

  /** The total arity over every face of every shape. */
  function TotalArity(shapes: seq<Shape>): nat
  {
    if shapes == [] then 0
    else TotalArity(shapes[..|shapes| - 1]) + Sum(shapes[|shapes| - 1].mesh.numFaceVertices)
  }

  /** All corners, shape after shape. */
  function AllCorners(shapes: seq<Shape>): (cs: seq<Index>)
    requires AllSized(shapes)
    ensures |cs| == TotalArity(shapes)
  {
    if shapes == [] then []
    else AllCorners(shapes[..|shapes| - 1]) + Corners(shapes[|shapes| - 1])
  }

  /** Shape-major order: the corners of a concatenation of shape lists are
      the corners of the first list followed by those of the second. */
  lemma {:induction false} AllCornersAppend(xs: seq<Shape>, ys: seq<Shape>)
    requires AllSized(xs) && AllSized(ys)
    ensures AllSized(xs + ys)
    ensures AllCorners(xs + ys) == AllCorners(xs) + AllCorners(ys)
    decreases |ys|
  {
    assert AllSized(xs + ys) by {
      forall i | 0 <= i < |xs + ys|
        ensures Sized((xs + ys)[i])
      {
        if i >= |xs| {
          assert (xs + ys)[i] == ys[i - |xs|];
        }
      }
    }
    if ys == [] {
      assert xs + ys == xs;
    } else {
      var init := ys[..|ys| - 1];
      assert (xs + ys)[..|xs + ys| - 1] == xs + init;
      assert AllSized(init) by {
        forall i | 0 <= i < |init|
          ensures Sized(init[i])
        {
          assert init[i] == ys[i];
        }
      }
      AllCornersAppend(xs, init);
    }
  }

  // ---------------------------------------------------------------------------
  // Gathering attributes

  /** The attribute reads of one corner stay inside the arrays: always for the
      position, and for the normal and texture coordinate only when that
      array is non-empty (the source reads them only then). */
  predicate ValidCorner(a: Attrib, c: Index)
  {
    && 0 <= c.vertexIndex && 3 * c.vertexIndex + 2 < |a.vertices|
    && (|a.normals| != 0 ==> 0 <= c.normalIndex && 3 * c.normalIndex + 2 < |a.normals|)
    && (|a.texcoords| != 0 ==> 0 <= c.texcoordIndex && 2 * c.texcoordIndex + 1 < |a.texcoords|)
  }

  predicate AllValid(a: Attrib, cs: seq<Index>)
  {
    forall k :: 0 <= k < |cs| ==> ValidCorner(a, cs[k])
  }

  /** What the loop reads is inside every array it reads: each shape has
      index records for all its face corners, and each such corner's
      attribute indices are in range. */
  predicate ReadsInBounds(a: Attrib, shapes: seq<Shape>)
  {
    && AllSized(shapes)
    && forall i, k :: 0 <= i < |shapes| && 0 <= k < Sum(shapes[i].mesh.numFaceVertices) ==>
         ValidCorner(a, shapes[i].mesh.indices[k])
  }

  function Position(a: Attrib, c: Index): Vec3
    requires 0 <= c.vertexIndex && 3 * c.vertexIndex + 2 < |a.vertices|
  {
    Vec3(a.vertices[3 * c.vertexIndex], a.vertices[3 * c.vertexIndex + 1], a.vertices[3 * c.vertexIndex + 2])
  }

  function Normal(a: Attrib, c: Index): Vec3
    requires 0 <= c.normalIndex && 3 * c.normalIndex + 2 < |a.normals|
  {
    Vec3(a.normals[3 * c.normalIndex], a.normals[3 * c.normalIndex + 1], a.normals[3 * c.normalIndex + 2])
  }

  function Texcoord(a: Attrib, c: Index): Vec2
    requires 0 <= c.texcoordIndex && 2 * c.texcoordIndex + 1 < |a.texcoords|
  {
    Vec2(a.texcoords[2 * c.texcoordIndex], a.texcoords[2 * c.texcoordIndex + 1])
  }

  /** The body of the corner loop: push the corner's position, and its
      normal and texture coordinate when those arrays are non-empty. */
  function PushCorner(a: Attrib, g: Geometry, c: Index): (g': Geometry)
    requires ValidCorner(a, c)
    ensures g'.vertices == g.vertices + [Position(a, c)]
    ensures |a.normals| != 0 ==> g'.normals == g.normals + [Normal(a, c)]
    ensures |a.normals| == 0 ==> g'.normals == g.normals
    ensures |a.texcoords| != 0 ==> g'.texcoords == g.texcoords + [Texcoord(a, c)]
    ensures |a.texcoords| == 0 ==> g'.texcoords == g.texcoords
  {
    Geometry(
      g.vertices + [Position(a, c)],
      if |a.normals| != 0 then g.normals + [Normal(a, c)] else g.normals,
      if |a.texcoords| != 0 then g.texcoords + [Texcoord(a, c)] else g.texcoords)
  }

  /** The buffers the corners `cs` give, entry by entry: the k-th entry of
      each buffer belongs to the k-th corner, and the normal and
      texture-coordinate buffers stay empty when the parser found none. */
  function Gather(a: Attrib, cs: seq<Index>): Geometry
    requires AllValid(a, cs)
  {
    Geometry(
      seq(|cs|, k requires 0 <= k < |cs| => Position(a, cs[k])),
      if |a.normals| != 0 then seq(|cs|, k requires 0 <= k < |cs| => Normal(a, cs[k])) else [],
      if |a.texcoords| != 0 then seq(|cs|, k requires 0 <= k < |cs| => Texcoord(a, cs[k])) else [])
  }

  /** Every corner the loop visits is valid for the attribute arrays. */
  lemma {:induction false} AllCornersValid(a: Attrib, shapes: seq<Shape>)
    requires ReadsInBounds(a, shapes)
    ensures AllValid(a, AllCorners(shapes))
    decreases |shapes|
  {
    if shapes != [] {
      var init := shapes[..|shapes| - 1];
      assert ReadsInBounds(a, init) by {
        forall i, k | 0 <= i < |init| && 0 <= k < Sum(init[i].mesh.numFaceVertices)
          ensures ValidCorner(a, init[i].mesh.indices[k])
        {
          assert init[i] == shapes[i];
        }
      }
      AllCornersValid(a, init);
      var last := shapes[|shapes| - 1];
      forall k | 0 <= k < |Corners(last)|
        ensures ValidCorner(a, Corners(last)[k])
      {
        assert Corners(last)[k] == shapes[|shapes| - 1].mesh.indices[k];
      }
    }
  }

  // ---------------------------------------------------------------------------
  // The loop of `loadModel`

  /** One iteration of the corner loop extends the buffers of the corners
      seen so far to those of one more corner. */
  lemma GatherPush(a: Attrib, cs: seq<Index>, c: Index)
    requires AllValid(a, cs) && ValidCorner(a, c)
    ensures AllValid(a, cs + [c])
    ensures Gather(a, cs + [c]) == PushCorner(a, Gather(a, cs), c)
  {
  }

  /** The corner loop of `loadModel` for one face: pushes the `fv` corner
      records starting at `indexOffset`, in order. */
  method PushFace(a: Attrib, idxs: seq<Index>, indexOffset: nat, fv: nat, g: Geometry, ghost seen: seq<Index>)
    returns (g': Geometry)
    requires indexOffset + fv <= |idxs|
    requires forall k :: indexOffset <= k < indexOffset + fv ==> ValidCorner(a, idxs[k])
    requires AllValid(a, seen) && g == Gather(a, seen)
    ensures AllValid(a, seen + idxs[indexOffset .. indexOffset + fv])
    ensures g' == Gather(a, seen + idxs[indexOffset .. indexOffset + fv])
  {
    g' := g;
    ghost var done := seen;
    var v := 0;
    while v < fv
      invariant 0 <= v <= fv
      invariant done == seen + idxs[indexOffset .. indexOffset + v]
      invariant AllValid(a, done)
      invariant g' == Gather(a, done)
    {
      var idx := idxs[indexOffset + v];
      GatherPush(a, done, idx);
      g' := PushCorner(a, g', idx);
      done := done + [idx];
      v := v + 1;
    }
  }

  /** The face loop of `loadModel` for one shape: `index_offset` starts at 0
      and grows by the arity of each face, so the shape's corners are pushed
      face after face. */
  method FlattenShape(a: Attrib, shape: Shape, g: Geometry, ghost seen: seq<Index>) returns (g': Geometry)
    requires Sized(shape)
    requires forall k :: 0 <= k < Sum(shape.mesh.numFaceVertices) ==> ValidCorner(a, shape.mesh.indices[k])
    requires AllValid(a, seen) && g == Gather(a, seen)
    ensures AllValid(a, seen + Corners(shape))
    ensures g' == Gather(a, seen + Corners(shape))
  {
    var fvs := shape.mesh.numFaceVertices;
    var idxs := shape.mesh.indices;
    g' := g;
    ghost var done := seen;
    var indexOffset := 0;
    var f := 0;
    while f < |fvs|
      invariant 0 <= f <= |fvs|
      invariant indexOffset == FaceStart(shape, f) && indexOffset <= Sum(fvs)
      invariant done == seen + FacesUpTo(shape, f)
      invariant AllValid(a, done)
      invariant g' == Gather(a, done)
    {
      var fv := fvs[f];
      SumStep(fvs, f);
      SumPrefix(fvs, f + 1);
      assert idxs[indexOffset .. indexOffset + fv] == FaceCorners(shape, f);
      g' := PushFace(a, idxs, indexOffset, fv, g', done);
      done := done + idxs[indexOffset .. indexOffset + fv];
      indexOffset := indexOffset + fv;
      f := f + 1;
    }
    FaceWalkVisitsCorners(shape, f);
  }

  /** The shape loop of `loadModel`: every shape's corners are pushed, shape
      after shape, so the result is the gathering of all corners. */
  method Flatten(a: Attrib, shapes: seq<Shape>) returns (g: Geometry)
    requires ReadsInBounds(a, shapes)
    ensures AllValid(a, AllCorners(shapes))
    ensures g == Gather(a, AllCorners(shapes))
  {
    g := Geometry([], [], []);
    var s := 0;
    while s < |shapes|
      invariant 0 <= s <= |shapes|
      invariant AllSized(shapes[..s])
      invariant AllValid(a, AllCorners(shapes[..s]))
      invariant g == Gather(a, AllCorners(shapes[..s]))
    {
      g := FlattenShape(a, shapes[s], g, AllCorners(shapes[..s]));
      PrefixStep(shapes, s);
      s := s + 1;
    }
    assert shapes[..s] == shapes;
  }

  lemma PrefixStep(shapes: seq<Shape>, s: nat)
    requires s < |shapes| && AllSized(shapes[..s]) && Sized(shapes[s])
    ensures AllSized(shapes[..s + 1])
    ensures AllCorners(shapes[..s + 1]) == AllCorners(shapes[..s]) + Corners(shapes[s])
  {
    var next := shapes[..s + 1];
    assert next[..s] == shapes[..s];
    forall i | 0 <= i < |next|
      ensures Sized(next[i])
    {
      if i < s {
        assert next[i] == shapes[..s][i];
      }
    }
  }

  /** The model `loadModel` records for gathered buffers: a flag per
      optional buffer, set when that buffer is non-empty, and the number of
      positions. */
  function ModelOf(g: Geometry): (m: Model)
    ensures m.hasNormal <==> g.normals != []
    ensures m.hasTexcoord <==> g.texcoords != []
    ensures m.sz == |g.vertices|
  {
    Model(|g.normals| != 0, |g.texcoords| != 0, |g.vertices|)
  }

  /** The outcome `loadModel` is expected to have, stated without the loop. */
  function Expected(p: ParseResult): LoadOutcome
    requires p.ok ==> ReadsInBounds(p.attrib, p.shapes)
  {
    if !p.ok then Terminated
    else
      AllCornersValid(p.attrib, p.shapes);
      var g := Gather(p.attrib, AllCorners(p.shapes));
      Loaded(ModelOf(g), g)
  }

  /** `loadModel`: the parser's warning and error texts go to the error
      stream when non-empty; a failed parse then writes the failure line and
      terminates; otherwise the corners are flattened and the model built. */
  method LoadModel(path: string, p: ParseResult) returns (log: seq<string>, r: LoadOutcome)
    requires p.ok ==> ReadsInBounds(p.attrib, p.shapes)
    ensures r.Terminated? <==> !p.ok
    ensures |log| == (if p.warn != [] then 1 else 0) + (if p.err != [] then 1 else 0) + (if p.ok then 0 else 1)
    ensures p.warn != [] ==> log[0] == p.warn
    ensures p.err != [] ==> log[if p.warn != [] then 1 else 0] == p.err
    ensures !p.ok ==> log[|log| - 1] == FailureLine(path)
    ensures r == Expected(p)
    ensures r.Loaded? ==> r.model.sz == |r.geometry.vertices|
    ensures r.Loaded? ==> (r.model.hasNormal <==> r.geometry.normals != [])
    ensures r.Loaded? ==> (r.model.hasTexcoord <==> r.geometry.texcoords != [])
  {
    log := [];
    if p.warn != [] {
      log := log + [p.warn];
    }
    if p.err != [] {
      log := log + [p.err];
    }
    if !p.ok {
      log := log + [FailureLine(path)];
      return log, Terminated;
    }
    var g := Flatten(p.attrib, p.shapes);
    var model := Model(false, false, 0);
    if |g.normals| != 0 {
      model := model.(hasNormal := true);
    }
    if |g.texcoords| != 0 {
      model := model.(hasTexcoord := true);
    }
    model := model.(sz := |g.vertices|);
    r := Loaded(model, g);
  }

  // ---------------------------------------------------------------------------
  // Properties of the loaded model

  /** A successful load has one vertex per face corner: `sz` is the sum of
      the face arities over every shape. Its k-th vertex is the position
      named by the k-th corner, shape after shape. */
  lemma LoadedVertices(p: ParseResult)
    requires p.ok && ReadsInBounds(p.attrib, p.shapes)
    ensures Expected(p).Loaded?
    ensures Expected(p).model.sz == TotalArity(p.shapes)
    ensures AllValid(p.attrib, AllCorners(p.shapes))
    ensures forall k :: 0 <= k < TotalArity(p.shapes) ==>
      Expected(p).geometry.vertices[k] == Position(p.attrib, AllCorners(p.shapes)[k])
  {
    AllCornersValid(p.attrib, p.shapes);
  }

  /** The optional buffers and their flags: the normal buffer is empty when
      the parser found no normals and otherwise has one entry per vertex, and
      `has_normal` holds exactly when there are normals and at least one
      corner; likewise for texture coordinates. */
  lemma LoadedFlags(p: ParseResult)
    requires p.ok && ReadsInBounds(p.attrib, p.shapes)
    ensures Expected(p).Loaded?
    ensures |p.attrib.normals| == 0 ==> Expected(p).geometry.normals == []
    ensures |p.attrib.normals| != 0 ==> |Expected(p).geometry.normals| == Expected(p).model.sz
    ensures |p.attrib.texcoords| == 0 ==> Expected(p).geometry.texcoords == []
    ensures |p.attrib.texcoords| != 0 ==> |Expected(p).geometry.texcoords| == Expected(p).model.sz
    ensures Expected(p).model.hasNormal <==> |p.attrib.normals| != 0 && TotalArity(p.shapes) > 0
    ensures Expected(p).model.hasTexcoord <==> |p.attrib.texcoords| != 0 && TotalArity(p.shapes) > 0
  {
    AllCornersValid(p.attrib, p.shapes);
  }

  /** The number of faces over all shapes. */
  function FaceCount(shapes: seq<Shape>): nat
  {
    if shapes == [] then 0
    else FaceCount(shapes[..|shapes| - 1]) + |shapes[|shapes| - 1].mesh.numFaceVertices|
  }

  predicate AllTriangles(shapes: seq<Shape>)
  {
    forall i, f :: 0 <= i < |shapes| && 0 <= f < |shapes[i].mesh.numFaceVertices| ==>
      shapes[i].mesh.numFaceVertices[f] == 3
  }

  lemma {:induction false} TriangleArity(fvs: seq<nat>)
    requires forall f :: 0 <= f < |fvs| ==> fvs[f] == 3
    ensures Sum(fvs) == 3 * |fvs|
    decreases |fvs|
  {
    if fvs != [] {
      TriangleArity(fvs[..|fvs| - 1]);
    }
  }

  /** Over triangles only, the total arity is three per face. */
  lemma {:induction false} TriangleTotal(shapes: seq<Shape>)
    requires AllTriangles(shapes)
    ensures TotalArity(shapes) == 3 * FaceCount(shapes)
    decreases |shapes|
  {
    if shapes != [] {
      var init := shapes[..|shapes| - 1];
      assert AllTriangles(init) by {
        forall i, f | 0 <= i < |init| && 0 <= f < |init[i].mesh.numFaceVertices|
          ensures init[i].mesh.numFaceVertices[f] == 3
        {
          assert init[i] == shapes[i];
        }
      }
      TriangleTotal(init);
      TriangleArity(shapes[|shapes| - 1].mesh.numFaceVertices);
    }
  }

  /** A triangulated mesh (the parser's default) loads three vertices per
      face; with no normals and no texture coordinates both flags are off. */
  lemma TrianglesGiveThreeVerticesPerFace(p: ParseResult)
    requires p.ok && ReadsInBounds(p.attrib, p.shapes) && AllTriangles(p.shapes)
    ensures Expected(p).Loaded?
    ensures Expected(p).model.sz == 3 * FaceCount(p.shapes)
    ensures p.attrib.normals == [] && p.attrib.texcoords == [] ==>
      !Expected(p).model.hasNormal && !Expected(p).model.hasTexcoord
  {
    LoadedVertices(p);
    LoadedFlags(p);
    TriangleTotal(p.shapes);
  }

  /** Gathering distributes over concatenated corner lists, so the buffers
      of a shape list are the buffers of its first shapes followed by those
      of the rest. */
  lemma GatherAppend(a: Attrib, xs: seq<Index>, ys: seq<Index>)
    requires AllValid(a, xs) && AllValid(a, ys)
    ensures AllValid(a, xs + ys)
    ensures Gather(a, xs + ys).vertices == Gather(a, xs).vertices + Gather(a, ys).vertices
    ensures Gather(a, xs + ys).normals == Gather(a, xs).normals + Gather(a, ys).normals
    ensures Gather(a, xs + ys).texcoords == Gather(a, xs).texcoords + Gather(a, ys).texcoords
  {
    assert AllValid(a, xs + ys) by {
      forall k | 0 <= k < |xs + ys|
        ensures ValidCorner(a, (xs + ys)[k])
      {
        if k >= |xs| {
          assert (xs + ys)[k] == ys[k - |xs|];
        }
      }
    }
  }
}
