/** A model of the part of glm's `mat4` that the camera conversions rely on:
    sixteen reals stored column by column, the sixteen-scalar constructor that
    fills that storage in order, `transpose`, and the matrix product.
    Entries are read with an explicit (row, column) pair so that the
    column-major bookkeeping is visible in every contract. */
module Glm {

  /** Column-major storage: entry (r, c) lives at index 4 * c + r. */
  type Storage = s: seq<real> | |s| == 16
    witness [0.0, 0.0, 0.0, 0.0, 0.0, 0.0, 0.0, 0.0, 0.0, 0.0, 0.0, 0.0, 0.0, 0.0, 0.0, 0.0]

  datatype Mat4 = Mat4(data: Storage)

  /** A homogeneous 4-vector, as multiplied by a `mat4`. */
  datatype Vec4 = Vec4(x: real, y: real, z: real, w: real)

  /** The entry in row `r`, column `c`. */
  function At(m: Mat4, r: nat, c: nat): real
    requires r < 4 && c < 4
  {
    m.data[4 * c + r]
  }

  /** glm's constructor taking sixteen scalars: the first four arguments are
      column 0, the next four column 1, and so on. Written out as a source
      text row by row, the literal therefore appears transposed. */
  function FromScalars(a: seq<real>): (m: Mat4)
    requires |a| == 16
    ensures forall r: nat, c: nat :: r < 4 && c < 4 ==> At(m, r, c) == a[4 * c + r]
  {
    Mat4(a)
  }

  /** `glm::transpose`: swaps rows and columns. */
  function Transpose(m: Mat4): (t: Mat4)
    ensures forall r: nat, c: nat :: r < 4 && c < 4 ==> At(t, r, c) == At(m, c, r)
  {
    var d := m.data;
    Mat4([d[0], d[4], d[8], d[12],
          d[1], d[5], d[9], d[13],
          d[2], d[6], d[10], d[14],
          d[3], d[7], d[11], d[15]])
  }

  /** The (r, c) entry of the product a * b: row r of a against column c of b. */
  function Dot(a: Mat4, b: Mat4, r: nat, c: nat): real
    requires r < 4 && c < 4
  {
    At(a, r, 0) * At(b, 0, c) + At(a, r, 1) * At(b, 1, c)
    + At(a, r, 2) * At(b, 2, c) + At(a, r, 3) * At(b, 3, c)
  }

  /** `operator*` on two `mat4`s, filling the result storage column by column. */
  function Mul(a: Mat4, b: Mat4): (p: Mat4)
    ensures forall r: nat, c: nat :: r < 4 && c < 4 ==> At(p, r, c) == Dot(a, b, r, c)
  {
    Mat4([Dot(a, b, 0, 0), Dot(a, b, 1, 0), Dot(a, b, 2, 0), Dot(a, b, 3, 0),
          Dot(a, b, 0, 1), Dot(a, b, 1, 1), Dot(a, b, 2, 1), Dot(a, b, 3, 1),
          Dot(a, b, 0, 2), Dot(a, b, 1, 2), Dot(a, b, 2, 2), Dot(a, b, 3, 2),
          Dot(a, b, 0, 3), Dot(a, b, 1, 3), Dot(a, b, 2, 3), Dot(a, b, 3, 3)])
  }

  /** `operator*` of a `mat4` and a `vec4`. */
  function Apply(m: Mat4, v: Vec4): Vec4
  {
    Vec4(At(m, 0, 0) * v.x + At(m, 0, 1) * v.y + At(m, 0, 2) * v.z + At(m, 0, 3) * v.w,
         At(m, 1, 0) * v.x + At(m, 1, 1) * v.y + At(m, 1, 2) * v.z + At(m, 1, 3) * v.w,
         At(m, 2, 0) * v.x + At(m, 2, 1) * v.y + At(m, 2, 2) * v.z + At(m, 2, 3) * v.w,
         At(m, 3, 0) * v.x + At(m, 3, 1) * v.y + At(m, 3, 2) * v.z + At(m, 3, 3) * v.w)
  }

  const Identity: Mat4 :=
    Mat4([1.0, 0.0, 0.0, 0.0,
          0.0, 1.0, 0.0, 0.0,
          0.0, 0.0, 1.0, 0.0,
          0.0, 0.0, 0.0, 1.0])

  /** Two matrices that agree on every (row, column) entry are the same value. */
  lemma {:induction false} Extensionality(a: Mat4, b: Mat4)
    requires forall r: nat, c: nat :: r < 4 && c < 4 ==> At(a, r, c) == At(b, r, c)
    ensures a == b
  {
    forall i | 0 <= i < 16
      ensures a.data[i] == b.data[i]
    {
      var r: nat, c: nat := i % 4, i / 4;
      assert 4 * c + r == i;
      assert At(a, r, c) == At(b, r, c);
    }
    assert a.data == b.data;
  }

  /** Column c of the identity has its one 1 in row c. */
  lemma IdentityEntries(c: nat)
    requires c < 4
    ensures At(Identity, 0, c) == (if c == 0 then 1.0 else 0.0)
    ensures At(Identity, 1, c) == (if c == 1 then 1.0 else 0.0)
    ensures At(Identity, 2, c) == (if c == 2 then 1.0 else 0.0)
    ensures At(Identity, 3, c) == (if c == 3 then 1.0 else 0.0)
  {
  }

  /** The identity is a right unit of the product. */
  lemma MulIdentity(m: Mat4)
    ensures Mul(m, Identity) == m
  {
    var p := Mul(m, Identity);
    forall r: nat, c: nat | r < 4 && c < 4
      ensures At(p, r, c) == At(m, r, c)
    {
      IdentityEntries(c);
    }
    Extensionality(p, m);
  }
}
