/** Conversions from the calibrated-camera (OpenCV) convention to the
    rendering (OpenGL) convention: `cvgl::cvProj2glProj` builds a projection
    matrix from pinhole intrinsics, and `cvgl::cvRT2glRT` turns an OpenCV
    extrinsic [R|t] into a view matrix. OpenCV's camera looks down +z with
    y pointing down; OpenGL's looks down -z with y pointing up. */
module CameraConvert {
  import opened Glm

  /** The clipping planes fixed inside `cvProj2glProj`. */
  const Far: real := 100.0
  const Near: real := 0.01

  /** The entries of the projection that the formula sets; all others are 0. */
  predicate IsProjectionSlot(r: nat, c: nat)
  {
    (r == 0 && c == 0) || (r == 0 && c == 2) || (r == 1 && c == 1) || (r == 1 && c == 2)
    || (r == 2 && c == 2) || (r == 2 && c == 3) || (r == 3 && c == 2)
  }

  /** `cvProj2glProj(fx, fy, cx, cy, w, h)`: the source writes the matrix as a
      row-by-row literal, which glm's constructor stores transposed; the final
      `glm::transpose` puts every entry back where the literal shows it. */
  function CvProj2GlProj(fx: real, fy: real, cx: real, cy: real, w: real, h: real): (p: Mat4)
    requires w != 0.0 && h != 0.0
    ensures At(p, 0, 0) == 2.0 * fx / w && At(p, 0, 2) == 1.0 - 2.0 * cx / w
    ensures At(p, 1, 1) == 2.0 * fy / h && At(p, 1, 2) == -1.0 + 2.0 * cy / h
    ensures At(p, 2, 2) == (-Far - Near) / (Far - Near)
    ensures At(p, 2, 3) == -2.0 * Far * Near / (Far - Near)
    ensures At(p, 3, 2) == -1.0
    ensures forall r: nat, c: nat :: r < 4 && c < 4 && !IsProjectionSlot(r, c) ==> At(p, r, c) == 0.0
  {
    var glProj := FromScalars(
      [2.0 * fx / w, 0.0,          1.0 - (2.0 * cx) / w,       0.0,
       0.0,          2.0 * fy / h, -1.0 + (2.0 * cy) / h,      0.0,
       0.0,          0.0,          (-Far - Near) / (Far - Near), -2.0 * Far * Near / (Far - Near),
       0.0,          0.0,          -1.0,                       0.0]);
    Transpose(glProj)
  }

  /** An OpenCV `cv::Mat` of floats, read with `at<float>(row, col)`. Rows may
      be longer than four entries and there may be more than four rows; only
      the top-left 4x4 block is read. */
  datatype CvMat = CvMat(rows: seq<seq<real>>)

  /** Every `at<float>(r, c)` with r, c < 4 is inside the matrix. */
  predicate Readable4x4(m: CvMat)
  {
    |m.rows| >= 4 && forall r :: 0 <= r < 4 ==> |m.rows[r]| >= 4
  }

  function CvAt(m: CvMat, r: nat, c: nat): real
    requires Readable4x4(m) && r < 4 && c < 4
  {
    m.rows[r][c]
  }

  /** The `glRT` local of `cvRT2glRT`: sixteen `at` reads passed to glm's
      column-major constructor in the order (0,0), (1,0), (2,0), (3,0), (0,1), ...
      so the copy has exactly the input's (row, column) entries. */
  function RebuildGlRT(cv: CvMat): (g: Mat4)
    requires Readable4x4(cv)
    ensures forall r: nat, c: nat :: r < 4 && c < 4 ==> At(g, r, c) == CvAt(cv, r, c)
  {
    FromScalars(
      [CvAt(cv, 0, 0), CvAt(cv, 1, 0), CvAt(cv, 2, 0), CvAt(cv, 3, 0),
       CvAt(cv, 0, 1), CvAt(cv, 1, 1), CvAt(cv, 2, 1), CvAt(cv, 3, 1),
       CvAt(cv, 0, 2), CvAt(cv, 1, 2), CvAt(cv, 2, 2), CvAt(cv, 3, 2),
       CvAt(cv, 0, 3), CvAt(cv, 1, 3), CvAt(cv, 2, 3), CvAt(cv, 3, 3)])
  }

  /** The basis flip negating the y and z axes (`convertCV2GL`). */
  const ConvertCV2GL: Mat4 := FromScalars(
    [1.0, 0.0, 0.0, 0.0,
     0.0, -1.0, 0.0, 0.0,
     0.0, 0.0, -1.0, 0.0,
     0.0, 0.0, 0.0, 1.0])

  /** `convertCV2GL` is the diagonal matrix diag(1, -1, -1, 1): the sign of
      each row on the diagonal and 0 everywhere else. The literal is
      symmetric, so the column-major constructor does not move any entry. */
  lemma ConvertCV2GLIsDiagonal()
    ensures forall r: nat, c: nat :: r < 4 && c < 4 ==>
      At(ConvertCV2GL, r, c) == (if r == c then RowSign(r) else 0.0)
  {
  }

  /** `cvRT2glRT`: left-multiplying by the basis flip negates rows 1 and 2 of
      the extrinsic and keeps rows 0 and 3. */
  function CvRT2GlRT(cv: CvMat): (g: Mat4)
    requires Readable4x4(cv)
    ensures forall c: nat :: c < 4 ==> At(g, 0, c) == CvAt(cv, 0, c) && At(g, 3, c) == CvAt(cv, 3, c)
    ensures forall c: nat :: c < 4 ==> At(g, 1, c) == -CvAt(cv, 1, c) && At(g, 2, c) == -CvAt(cv, 2, c)
  {
    var g := RebuildGlRT(cv);
    FlipRows(g);
    Mul(ConvertCV2GL, g)
  }

  /** Sign applied to row r by the basis flip. */
  function RowSign(r: nat): real
  {
    if r == 1 || r == 2 then -1.0 else 1.0
  }

  lemma FlipEntry(m: Mat4, r: nat, c: nat)
    requires r < 4 && c < 4
    ensures At(Mul(ConvertCV2GL, m), r, c) == RowSign(r) * At(m, r, c)
  {
    if r == 0 {
      assert Dot(ConvertCV2GL, m, 0, c) == At(m, 0, c);
    } else if r == 1 {
      assert Dot(ConvertCV2GL, m, 1, c) == -At(m, 1, c);
    } else if r == 2 {
      assert Dot(ConvertCV2GL, m, 2, c) == -At(m, 2, c);
    } else {
      assert Dot(ConvertCV2GL, m, 3, c) == At(m, 3, c);
    }
  }

  /** Left-multiplying by the basis flip scales row r by RowSign(r). */
  lemma FlipRows(m: Mat4)
    ensures forall r: nat, c: nat :: r < 4 && c < 4 ==> At(Mul(ConvertCV2GL, m), r, c) == RowSign(r) * At(m, r, c)
  {
    forall r: nat, c: nat | r < 4 && c < 4
      ensures At(Mul(ConvertCV2GL, m), r, c) == RowSign(r) * At(m, r, c)
    {
      FlipEntry(m, r, c);
    }
  }

  /** The OpenCV identity pose, as a 4x4 `cv::Mat`. */
  const CvIdentity: CvMat :=
    CvMat([[1.0, 0.0, 0.0, 0.0], [0.0, 1.0, 0.0, 0.0], [0.0, 0.0, 1.0, 0.0], [0.0, 0.0, 0.0, 1.0]])

  /** Converting the identity pose yields the basis flip itself. */
  lemma IdentityPoseGivesBasisFlip()
    ensures Readable4x4(CvIdentity)
    ensures CvRT2GlRT(CvIdentity) == ConvertCV2GL
  {
    var id := RebuildGlRT(CvIdentity);
    forall r: nat, c: nat | r < 4 && c < 4
      ensures At(id, r, c) == At(Identity, r, c)
    {
    }
    Extensionality(id, Identity);
    MulIdentity(ConvertCV2GL);
  }

  /** The basis flip undoes itself, so flipping the converted view again
      recovers the OpenCV extrinsic unchanged. */
  lemma FlipIsInvolution(cv: CvMat)
    requires Readable4x4(cv)
    ensures Mul(ConvertCV2GL, ConvertCV2GL) == Identity
    ensures Mul(ConvertCV2GL, CvRT2GlRT(cv)) == RebuildGlRT(cv)
  {
    var ff := Mul(ConvertCV2GL, ConvertCV2GL);
    FlipRows(ConvertCV2GL);
    forall r: nat, c: nat | r < 4 && c < 4
      ensures At(ff, r, c) == At(Identity, r, c)
    {
    }
    Extensionality(ff, Identity);
    var g := CvRT2GlRT(cv);
    var back := Mul(ConvertCV2GL, g);
    FlipRows(g);
    forall r: nat, c: nat | r < 4 && c < 4
      ensures At(back, r, c) == At(RebuildGlRT(cv), r, c)
    {
    }
    Extensionality(back, RebuildGlRT(cv));
  }

  /** Entries (0,0) and (1,1) for fx = fy = 480, cx = 320, cy = 240 on a
      320x240 viewport. */
  lemma SampleIntrinsics()
    ensures At(CvProj2GlProj(480.0, 480.0, 320.0, 240.0, 320.0, 240.0), 0, 0) == 3.0
    ensures At(CvProj2GlProj(480.0, 480.0, 320.0, 240.0, 320.0, 240.0), 1, 1) == 4.0
  {
  }

  /** The pinhole pixel coordinates OpenCV assigns to camera-frame point
      (x, y, z): u = fx * x / z + cx, v = fy * y / z + cy. */
  function PixelU(fx: real, cx: real, x: real, z: real): real
    requires z != 0.0
  {
    fx * x / z + cx
  }

  function PixelV(fy: real, cy: real, y: real, z: real): real
    requires z != 0.0
  {
    fy * y / z + cy
  }

  /** The two conversions agree with OpenCV's pinhole model: a point in front
      of the OpenCV camera, carried into the OpenGL frame by the basis flip and
      then projected, has clip w equal to its depth z, and lands at normalized
      device x = 2u/w - 1 and y = 1 - 2v/h (clip coordinates are z times
      these), where (u, v) is its OpenCV pixel, so the image's top row maps to
      y = +1; and it is inside the depth range exactly when its depth lies
      between the near and the far plane. */
  lemma ProjectionMatchesPinhole(fx: real, fy: real, cx: real, cy: real, w: real, h: real,
                                 x: real, y: real, z: real)
    requires w != 0.0 && h != 0.0 && z > 0.0
    ensures var clip := Apply(CvProj2GlProj(fx, fy, cx, cy, w, h), Apply(ConvertCV2GL, Vec4(x, y, z, 1.0)));
      && clip.w == z
      && clip.x == z * (2.0 * PixelU(fx, cx, x, z) / w - 1.0)
      && clip.y == z * (1.0 - 2.0 * PixelV(fy, cy, y, z) / h)
      && (-clip.w <= clip.z <= clip.w <==> Near <= z <= Far)
  {
    var q := Apply(ConvertCV2GL, Vec4(x, y, z, 1.0));
    assert q == Vec4(x, -y, -z, 1.0);
    var p := CvProj2GlProj(fx, fy, cx, cy, w, h);
    assert At(p, 0, 1) == 0.0 && At(p, 0, 3) == 0.0;
    assert At(p, 1, 0) == 0.0 && At(p, 1, 3) == 0.0;
    assert At(p, 2, 0) == 0.0 && At(p, 2, 1) == 0.0;
    assert At(p, 3, 0) == 0.0 && At(p, 3, 1) == 0.0 && At(p, 3, 3) == 0.0;
    var clip := Apply(p, q);
    assert clip.x == 2.0 * fx / w * x - (1.0 - 2.0 * cx / w) * z;
    ClipX(fx, cx, w, x, z);
    assert clip.y == -(2.0 * fy / h * y) - (-1.0 + 2.0 * cy / h) * z;
    ClipY(fy, cy, h, y, z);
    assert clip.z == -((-Far - Near) / (Far - Near)) * z + -2.0 * Far * Near / (Far - Near);
    DepthRange(z);
    assert clip.w == z;
  }

  lemma ClipX(fx: real, cx: real, w: real, x: real, z: real)
    requires w != 0.0 && z > 0.0
    ensures 2.0 * fx / w * x - (1.0 - 2.0 * cx / w) * z == z * (2.0 * PixelU(fx, cx, x, z) / w - 1.0)
  {
    var u := PixelU(fx, cx, x, z);
    assert u * z == fx * x + cx * z;
  }

  lemma ClipY(fy: real, cy: real, h: real, y: real, z: real)
    requires h != 0.0 && z > 0.0
    ensures -(2.0 * fy / h * y) - (-1.0 + 2.0 * cy / h) * z == z * (1.0 - 2.0 * PixelV(fy, cy, y, z) / h)
  {
    var v := PixelV(fy, cy, y, z);
    assert v * z == fy * y + cy * z;
  }

  /** The projection's depth row keeps a point at depth z > 0 inside
      [-z, z] exactly when it lies between the near and the far plane. */
  lemma DepthRange(z: real)
    requires z > 0.0
    ensures var d := -((-Far - Near) / (Far - Near)) * z + -2.0 * Far * Near / (Far - Near);
      -z <= d <= z <==> Near <= z <= Far
  {
    var d := -((-Far - Near) / (Far - Near)) * z + -2.0 * Far * Near / (Far - Near);
    assert d * (Far - Near) == (Far + Near) * z - 2.0 * Far * Near;
  }
}
