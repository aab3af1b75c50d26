/**
 * The matrices getMVP builds. Every matrix is a sequence of its 16 entries
 * in row-major order (entry (i, j) at index 4*i + j). The source writes each
 * matrix as a literal or a filled `float[16]` in row-major order, loads it
 * with `glm::make_mat4` (which reads 16 numbers column by column) and then
 * transposes it; both steps are index swaps here. Entries are `real`:
 * single-precision rounding is not modelled.
 */
module Matrices {
  import opened Calibration

  /** A 4×4 matrix, row-major. */
  type Mat4 = m: seq<real> | |m| == 16 witness [0.0, 0.0, 0.0, 0.0, 0.0, 0.0, 0.0, 0.0, 0.0, 0.0, 0.0, 0.0, 0.0, 0.0, 0.0, 0.0]

  /** A homogeneous 4-vector. */
  type Vec4 = v: seq<real> | |v| == 4 witness [0.0, 0.0, 0.0, 0.0]

  /** `near` and `far` of getMVP. */
  const Near: real := 0.1
  const Far: real := 1000.0

  /** The display scale applied to all four pinhole parameters. */
  const Scale: real := 0.2

  /** Entry (i, j). */
  function At(m: Mat4, i: nat, j: nat): real
    requires i < 4 && j < 4
  {
    m[4 * i + j]
  }

  /** `glm::make_mat4(a)`: the 16 numbers of `a` taken as consecutive columns. */
  function MakeMat4(a: Mat4): (m: Mat4)
    ensures forall i, j | 0 <= i < 4 && 0 <= j < 4 :: At(m, i, j) == a[4 * j + i]
  {
    seq(16, k requires 0 <= k < 16 => a[4 * (k % 4) + k / 4])
  }

  /** `glm::transpose`. */
  function Transpose(m: Mat4): (t: Mat4)
    ensures forall i, j | 0 <= i < 4 && 0 <= j < 4 :: At(t, i, j) == At(m, j, i)
  {
    seq(16, k requires 0 <= k < 16 => m[4 * (k % 4) + k / 4])
  }

  /** The inner product of two 4-vectors given entry by entry. */
  function Lin(a0: real, a1: real, a2: real, a3: real, v0: real, v1: real, v2: real, v3: real): real {
    a0 * v0 + a1 * v1 + a2 * v2 + a3 * v3
  }

  /** Row i of `a` times column j of `b`. */
  function Dot(a: Mat4, b: Mat4, i: nat, j: nat): real
    requires i < 4 && j < 4
  {
    Lin(At(a, i, 0), At(a, i, 1), At(a, i, 2), At(a, i, 3), At(b, 0, j), At(b, 1, j), At(b, 2, j), At(b, 3, j))
  }

  /** The matrix product `a * b`. */
  function Mul(a: Mat4, b: Mat4): (c: Mat4)
    ensures forall i, j | 0 <= i < 4 && 0 <= j < 4 :: At(c, i, j) == Dot(a, b, i, j)
  {
    seq(16, k requires 0 <= k < 16 => Dot(a, b, k / 4, k % 4))
  }

  /** `glm::mat4(1.0f)`. */
  const Identity: Mat4 :=
    [1.0, 0.0, 0.0, 0.0,
     0.0, 1.0, 0.0, 0.0,
     0.0, 0.0, 1.0, 0.0,
     0.0, 0.0, 0.0, 1.0]

  /** Row i of `m` times `v`. */
  function Row(m: Mat4, i: nat, v: Vec4): real
    requires i < 4
  {
    Lin(At(m, i, 0), At(m, i, 1), At(m, i, 2), At(m, i, 3), v[0], v[1], v[2], v[3])
  }

  /** The matrix-vector product `m * v`. */
  function Apply(m: Mat4, v: Vec4): (w: Vec4)
    ensures forall i | 0 <= i < 4 :: w[i] == Row(m, i, v)
  {
    [Row(m, 0, v), Row(m, 1, v), Row(m, 2, v), Row(m, 3, v)]
  }

  /** The pinhole parameters of a record, each multiplied by the display scale. */
  function Fx(cam: CameraRecord): real { Entry(cam.k, 0, 0) * Scale }
  function Fy(cam: CameraRecord): real { Entry(cam.k, 1, 1) * Scale }
  function Cx(cam: CameraRecord): real { Entry(cam.k, 0, 2) * Scale }
  function Cy(cam: CameraRecord): real { Entry(cam.k, 1, 2) * Scale }

  /** `ortho_float`: the orthographic map of the pixel rectangle l=0, r=w, b=h, t=0. */
  function OrthoArray(w: real, h: real): Mat4
    requires w > 0.0 && h > 0.0
  {
    var l := 0.0;
    var r := 1.0 * w;
    var b := 1.0 * h;
    var t := 0.0;
    var tx := -(r + l) / (r - l);
    var ty := -(t + b) / (t - b);
    var tz := -(Far + Near) / (Far - Near);
    [2.0 / (r - l), 0.0, 0.0, tx,
     0.0, 2.0 / (t - b), 0.0, ty,
     0.0, 0.0, -2.0 / (Far - Near), tz,
     0.0, 0.0, 0.0, 1.0]
  }

  /** `Intrinsic_float`: the scaled pinhole intrinsics of a record as a projective matrix. */
  function IntrinsicArray(cam: CameraRecord): Mat4 {
    PinholeArray(Fx(cam), Fy(cam), Cx(cam), Cy(cam))
  }

  /** The layout of `Intrinsic_float` for given pinhole parameters. */
  function PinholeArray(fx: real, fy: real, cx: real, cy: real): Mat4 {
    [fx, 0.0, cx, 0.0,
     0.0, fy, cy, 0.0,
     0.0, 0.0, -(Near + Far), Near * Far,
     0.0, 0.0, 1.0, 0.0]
  }

  /** `RT_float` once its loop has run: R in the upper left 3×3, t in the last column, then (0, 0, 0, 1). */
  function RTArray(cam: CameraRecord): Mat4 {
    var r, t := cam.r, cam.t;
    [Entry(r, 0, 0), Entry(r, 0, 1), Entry(r, 0, 2), Entry(t, 0, 0),
     Entry(r, 1, 0), Entry(r, 1, 1), Entry(r, 1, 2), Entry(t, 1, 0),
     Entry(r, 2, 0), Entry(r, 2, 1), Entry(r, 2, 2), Entry(t, 2, 0),
     0.0, 0.0, 0.0, 1.0]
  }

  /** `Projection = transpose(make_mat4(ortho)) * transpose(make_mat4(Intrinsic))`. */
  function ProjectionMatrix(cam: CameraRecord, w: real, h: real): Mat4
    requires w > 0.0 && h > 0.0
  {
    Mul(Transpose(MakeMat4(OrthoArray(w, h))), Transpose(MakeMat4(IntrinsicArray(cam))))
  }

  /** `View = transpose(make_mat4(RT_float))`. */
  function ViewMatrix(cam: CameraRecord): Mat4 {
    Transpose(MakeMat4(RTArray(cam)))
  }

  /** `mvp = Projection * View * Model` with the identity as Model. */
  function Mvp(cam: CameraRecord, w: real, h: real): Mat4
    requires w > 0.0 && h > 0.0
  {
    Mul(Mul(ProjectionMatrix(cam, w, h), ViewMatrix(cam)), Identity)
  }

  // ----- Layout

  /** Loading a row-major literal and transposing it gives the matrix the literal spells out. */
  lemma TransposeMakeMat4(a: Mat4)
    ensures Transpose(MakeMat4(a)) == a
  {
    var m := Transpose(MakeMat4(a));
    forall k | 0 <= k < 16 ensures m[k] == a[k] {
      assert m[k] == At(m, k / 4, k % 4);
    }
  }

  /** The identity is a right unit: the Model factor changes nothing. */
  lemma MulIdentity(m: Mat4)
    ensures Mul(m, Identity) == m
  {
    var p := Mul(m, Identity);
    forall i, j | 0 <= i < 4 && 0 <= j < 4 ensures At(p, i, j) == At(m, i, j) {
      DotIdentity(m, i, j);
    }
    SameEntries(p, m);
  }

  /** Two matrices with the same entries are equal. */
  lemma SameEntries(a: Mat4, b: Mat4)
    requires forall i, j | 0 <= i < 4 && 0 <= j < 4 :: At(a, i, j) == At(b, i, j)
    ensures a == b
  {
    forall k | 0 <= k < 16 ensures a[k] == b[k] {
      assert a[k] == At(a, k / 4, k % 4);
    }
  }

  lemma DotIdentity(m: Mat4, i: nat, j: nat)
    requires i < 4 && j < 4
    ensures Dot(m, Identity, i, j) == At(m, i, j)
  {
    var a0, a1, a2, a3 := At(m, i, 0), At(m, i, 1), At(m, i, 2), At(m, i, 3);
    if j == 0 {
      assert Dot(m, Identity, i, j) == Lin(a0, a1, a2, a3, 1.0, 0.0, 0.0, 0.0);
    } else if j == 1 {
      assert Dot(m, Identity, i, j) == Lin(a0, a1, a2, a3, 0.0, 1.0, 0.0, 0.0);
    } else if j == 2 {
      assert Dot(m, Identity, i, j) == Lin(a0, a1, a2, a3, 0.0, 0.0, 1.0, 0.0);
    } else {
      assert Dot(m, Identity, i, j) == Lin(a0, a1, a2, a3, 0.0, 0.0, 0.0, 1.0);
    }
  }

  /** The layout of the R|t array: R, t, a final 1, and 0 everywhere else. */
  lemma RTArrayLayout(cam: CameraRecord)
    ensures forall i, j | 0 <= i < 3 && 0 <= j < 3 :: At(RTArray(cam), i, j) == Entry(cam.r, i, j)
    ensures forall i | 0 <= i < 3 :: At(RTArray(cam), i, 3) == Entry(cam.t, i, 0)
    ensures forall j | 0 <= j < 3 :: At(RTArray(cam), 3, j) == 0.0
    ensures At(RTArray(cam), 3, 3) == 1.0
  {
  }

  /** The projection is the product of the ortho and intrinsic literals read row by row. */
  lemma ProjectionIsLiteralProduct(cam: CameraRecord, w: real, h: real)
    requires w > 0.0 && h > 0.0
    ensures ProjectionMatrix(cam, w, h) == Mul(OrthoArray(w, h), IntrinsicArray(cam))
  {
    TransposeMakeMat4(OrthoArray(w, h));
    TransposeMakeMat4(IntrinsicArray(cam));
  }

  /** The view matrix is the R|t array read row by row. */
  lemma ViewIsRTArray(cam: CameraRecord)
    ensures ViewMatrix(cam) == RTArray(cam)
  {
    TransposeMakeMat4(RTArray(cam));
  }

  /** The MVP is (ortho · intrinsic) · R|t, all three as written row by row. */
  lemma MvpIsLiteralProduct(cam: CameraRecord, w: real, h: real)
    requires w > 0.0 && h > 0.0
    ensures Mvp(cam, w, h) == Mul(Mul(OrthoArray(w, h), IntrinsicArray(cam)), RTArray(cam))
  {
    ProjectionIsLiteralProduct(cam, w, h);
    ViewIsRTArray(cam);
    MulIdentity(Mul(ProjectionMatrix(cam, w, h), ViewMatrix(cam)));
  }

  // ----- What the matrices do to points

  /** A product applied to a vector is the second factor's image under the first. */
  lemma ApplyMul(a: Mat4, b: Mat4, v: Vec4)
    ensures Apply(Mul(a, b), v) == Apply(a, Apply(b, v))
  {
    RowOfProduct(a, b, v, 0);
    RowOfProduct(a, b, v, 1);
    RowOfProduct(a, b, v, 2);
    RowOfProduct(a, b, v, 3);
  }

  lemma RowOfProduct(a: Mat4, b: Mat4, v: Vec4, i: nat)
    requires i < 4
    ensures Row(Mul(a, b), i, v) == Row(a, i, Apply(b, v))
  {
    var c := Mul(a, b);
    var bv := Apply(b, v);
    assert At(c, i, 0) == Dot(a, b, i, 0) && At(c, i, 1) == Dot(a, b, i, 1);
    assert At(c, i, 2) == Dot(a, b, i, 2) && At(c, i, 3) == Dot(a, b, i, 3);
    assert bv[0] == Row(b, 0, v) && bv[1] == Row(b, 1, v) && bv[2] == Row(b, 2, v) && bv[3] == Row(b, 3, v);
    SumSwap(At(a, i, 0), At(a, i, 1), At(a, i, 2), At(a, i, 3),
            At(b, 0, 0), At(b, 0, 1), At(b, 0, 2), At(b, 0, 3),
            At(b, 1, 0), At(b, 1, 1), At(b, 1, 2), At(b, 1, 3),
            At(b, 2, 0), At(b, 2, 1), At(b, 2, 2), At(b, 2, 3),
            At(b, 3, 0), At(b, 3, 1), At(b, 3, 2), At(b, 3, 3),
            v[0], v[1], v[2], v[3]);
  }

  /** Column j of the double sum: the four products a_k b_kj v_j. */
  function Col(a0: real, a1: real, a2: real, a3: real, b0: real, b1: real, b2: real, b3: real, v: real): real {
    a0 * (b0 * v) + a1 * (b1 * v) + a2 * (b2 * v) + a3 * (b3 * v)
  }

  lemma ColLeft(a0: real, a1: real, a2: real, a3: real, b0: real, b1: real, b2: real, b3: real, v: real)
    ensures Lin(a0, a1, a2, a3, b0, b1, b2, b3) * v == Col(a0, a1, a2, a3, b0, b1, b2, b3, v)
  {
  }

  lemma RowRight(a: real, b0: real, b1: real, b2: real, b3: real, v0: real, v1: real, v2: real, v3: real)
    ensures a * Lin(b0, b1, b2, b3, v0, v1, v2, v3) == a * (b0 * v0) + a * (b1 * v1) + a * (b2 * v2) + a * (b3 * v3)
  {
  }

  /** The sixteen products summed by columns or by rows. */
  lemma Regroup(c0: real, c1: real, c2: real, c3: real, r0: real, r1: real, r2: real, r3: real,
                m00: real, m01: real, m02: real, m03: real, m10: real, m11: real, m12: real, m13: real,
                m20: real, m21: real, m22: real, m23: real, m30: real, m31: real, m32: real, m33: real)
    requires c0 == m00 + m10 + m20 + m30 && c1 == m01 + m11 + m21 + m31
    requires c2 == m02 + m12 + m22 + m32 && c3 == m03 + m13 + m23 + m33
    requires r0 == m00 + m01 + m02 + m03 && r1 == m10 + m11 + m12 + m13
    requires r2 == m20 + m21 + m22 + m23 && r3 == m30 + m31 + m32 + m33
    ensures c0 + c1 + c2 + c3 == r0 + r1 + r2 + r3
  {
  }

  /** Exchanging the order of a double sum of products: the scalar core of ApplyMul. */
  lemma SumSwap(a0: real, a1: real, a2: real, a3: real,
                b00: real, b01: real, b02: real, b03: real,
                b10: real, b11: real, b12: real, b13: real,
                b20: real, b21: real, b22: real, b23: real,
                b30: real, b31: real, b32: real, b33: real,
                v0: real, v1: real, v2: real, v3: real)
    ensures Lin(Lin(a0, a1, a2, a3, b00, b10, b20, b30), Lin(a0, a1, a2, a3, b01, b11, b21, b31),
                Lin(a0, a1, a2, a3, b02, b12, b22, b32), Lin(a0, a1, a2, a3, b03, b13, b23, b33),
                v0, v1, v2, v3)
         == Lin(a0, a1, a2, a3,
                Lin(b00, b01, b02, b03, v0, v1, v2, v3), Lin(b10, b11, b12, b13, v0, v1, v2, v3),
                Lin(b20, b21, b22, b23, v0, v1, v2, v3), Lin(b30, b31, b32, b33, v0, v1, v2, v3))
  {
    ColLeft(a0, a1, a2, a3, b00, b10, b20, b30, v0);
    ColLeft(a0, a1, a2, a3, b01, b11, b21, b31, v1);
    ColLeft(a0, a1, a2, a3, b02, b12, b22, b32, v2);
    ColLeft(a0, a1, a2, a3, b03, b13, b23, b33, v3);
    RowRight(a0, b00, b01, b02, b03, v0, v1, v2, v3);
    RowRight(a1, b10, b11, b12, b13, v0, v1, v2, v3);
    RowRight(a2, b20, b21, b22, b23, v0, v1, v2, v3);
    RowRight(a3, b30, b31, b32, b33, v0, v1, v2, v3);
    Regroup(Col(a0, a1, a2, a3, b00, b10, b20, b30, v0), Col(a0, a1, a2, a3, b01, b11, b21, b31, v1),
            Col(a0, a1, a2, a3, b02, b12, b22, b32, v2), Col(a0, a1, a2, a3, b03, b13, b23, b33, v3),
            a0 * Lin(b00, b01, b02, b03, v0, v1, v2, v3), a1 * Lin(b10, b11, b12, b13, v0, v1, v2, v3),
            a2 * Lin(b20, b21, b22, b23, v0, v1, v2, v3), a3 * Lin(b30, b31, b32, b33, v0, v1, v2, v3),
            a0 * (b00 * v0), a0 * (b01 * v1), a0 * (b02 * v2), a0 * (b03 * v3),
            a1 * (b10 * v0), a1 * (b11 * v1), a1 * (b12 * v2), a1 * (b13 * v3),
            a2 * (b20 * v0), a2 * (b21 * v1), a2 * (b22 * v2), a2 * (b23 * v3),
            a3 * (b30 * v0), a3 * (b31 * v1), a3 * (b32 * v2), a3 * (b33 * v3));
  }

  /** The row R[i]·p + t[i] of the rigid motion. */
  function Rigid(cam: CameraRecord, i: nat, x: real, y: real, z: real): real {
    Lin(Entry(cam.r, i, 0), Entry(cam.r, i, 1), Entry(cam.r, i, 2), Entry(cam.t, i, 0), x, y, z, 1.0)
  }

  /** The view matrix moves a world point p to camera coordinates R p + t. */
  lemma ViewMapsPoint(cam: CameraRecord, x: real, y: real, z: real)
    ensures Apply(ViewMatrix(cam), [x, y, z, 1.0])
         == [Rigid(cam, 0, x, y, z), Rigid(cam, 1, x, y, z), Rigid(cam, 2, x, y, z), 1.0]
  {
    ViewIsRTArray(cam);
    ViewRow(cam, 0, x, y, z);
    ViewRow(cam, 1, x, y, z);
    ViewRow(cam, 2, x, y, z);
    LinLastUnit(x, y, z);
  }

  lemma ViewRow(cam: CameraRecord, i: nat, x: real, y: real, z: real)
    requires i < 3
    ensures Row(RTArray(cam), i, [x, y, z, 1.0]) == Rigid(cam, i, x, y, z)
  {
    var m := RTArray(cam);
    assert At(m, i, 0) == Entry(cam.r, i, 0) && At(m, i, 1) == Entry(cam.r, i, 1);
    assert At(m, i, 2) == Entry(cam.r, i, 2) && At(m, i, 3) == Entry(cam.t, i, 0);
  }

  lemma LinLastUnit(x: real, y: real, z: real)
    ensures Lin(0.0, 0.0, 0.0, 1.0, x, y, z, 1.0) == 1.0
  {
  }

  /** Normalised depth after the perspective divide, for a camera-space depth z > 0. */
  function NdcDepth(z: real): real
    requires z > 0.0
  {
    ((Far + Near) - 2.0 * Near * Far / z) / (Far - Near)
  }

  /**
   * The projection, written as the pinhole matrix followed by the ortho
   * matrix (see ProjectionFactors), maps a camera-space point (x, y, z) to
   * clip coordinates whose divide by w = z is the pixel
   * (u, v) = (fx x / z + cx, fy y / z + cy) mapped from [0, width] × [0, height]
   * onto [-1, 1] × [1, -1] (row 0 at the top), and the depth z onto NdcDepth(z).
   */
  lemma ProjectionMapsPoint(fx: real, fy: real, cx: real, cy: real, w: real, h: real, x: real, y: real, z: real)
    requires w > 0.0 && h > 0.0 && z > 0.0
    ensures var c := Apply(OrthoPixels(w, h), Apply(PinholeArray(fx, fy, cx, cy), [x, y, z, 1.0]));
      && c[3] == z
      && c[0] / z == 2.0 * (fx * x / z + cx) / w - 1.0
      && c[1] / z == 1.0 - 2.0 * (fy * y / z + cy) / h
      && c[2] / z == NdcDepth(z)
  {
    ProjectX(fx, fy, cx, cy, w, h, x, y, z);
    ProjectY(fx, fy, cx, cy, w, h, x, y, z);
    ProjectDepth(fx, fy, cx, cy, w, h, x, y, z);
    ProjectW(fx, fy, cx, cy, w, h, x, y, z);
  }

  /** Applying getMVP's projection is applying the pinhole matrix of the record's scaled intrinsics, then the ortho matrix. */
  lemma ProjectionFactors(cam: CameraRecord, w: real, h: real, v: Vec4)
    requires w > 0.0 && h > 0.0
    ensures Apply(ProjectionMatrix(cam, w, h), v)
         == Apply(OrthoPixels(w, h), Apply(PinholeArray(Fx(cam), Fy(cam), Cx(cam), Cy(cam)), v))
  {
    ProjectionIsLiteralProduct(cam, w, h);
    ApplyMul(OrthoArray(w, h), IntrinsicArray(cam), v);
    OrthoLayout(w, h);
  }

  /** The entries of the ortho literal once l, r, b and t are substituted. */
  function OrthoPixels(w: real, h: real): Mat4
    requires w > 0.0 && h > 0.0
  {
    [2.0 / w, 0.0, 0.0, -1.0,
     0.0, -2.0 / h, 0.0, 1.0,
     0.0, 0.0, -2.0 / (Far - Near), -(Far + Near) / (Far - Near),
     0.0, 0.0, 0.0, 1.0]
  }

  lemma OrthoLayout(w: real, h: real)
    requires w > 0.0 && h > 0.0
    ensures OrthoArray(w, h) == OrthoPixels(w, h)
  {
    assert -(1.0 * w + 0.0) / (1.0 * w - 0.0) == -1.0;
    assert 2.0 / (0.0 - 1.0 * h) == -2.0 / h;
    assert -(0.0 + 1.0 * h) / (0.0 - 1.0 * h) == 1.0;
  }

  /* ProjectionMapsPoint one clip coordinate at a time. */

  lemma ProjectX(fx: real, fy: real, cx: real, cy: real, w: real, h: real, x: real, y: real, z: real)
    requires w > 0.0 && h > 0.0 && z > 0.0
    ensures Apply(OrthoPixels(w, h), Apply(PinholeArray(fx, fy, cx, cy), [x, y, z, 1.0]))[0] / z
         == 2.0 * (fx * x / z + cx) / w - 1.0
  {
    var kv := Apply(PinholeArray(fx, fy, cx, cy), [x, y, z, 1.0]);
    assert kv[0] == Lin(fx, 0.0, cx, 0.0, x, y, z, 1.0);
    assert kv[3] == Lin(0.0, 0.0, 1.0, 0.0, x, y, z, 1.0);
    assert Apply(OrthoPixels(w, h), kv)[0] == Lin(2.0 / w, 0.0, 0.0, -1.0, kv[0], kv[1], kv[2], kv[3]);
    ClipX(fx, cx, w, x, y, z, kv[1], kv[2]);
  }

  lemma ProjectY(fx: real, fy: real, cx: real, cy: real, w: real, h: real, x: real, y: real, z: real)
    requires w > 0.0 && h > 0.0 && z > 0.0
    ensures Apply(OrthoPixels(w, h), Apply(PinholeArray(fx, fy, cx, cy), [x, y, z, 1.0]))[1] / z
         == 1.0 - 2.0 * (fy * y / z + cy) / h
  {
    var kv := Apply(PinholeArray(fx, fy, cx, cy), [x, y, z, 1.0]);
    assert kv[1] == Lin(0.0, fy, cy, 0.0, x, y, z, 1.0);
    assert kv[3] == Lin(0.0, 0.0, 1.0, 0.0, x, y, z, 1.0);
    assert Apply(OrthoPixels(w, h), kv)[1] == Lin(0.0, -2.0 / h, 0.0, 1.0, kv[0], kv[1], kv[2], kv[3]);
    ClipY(fy, cy, h, x, y, z, kv[0], kv[2]);
  }

  lemma ProjectDepth(fx: real, fy: real, cx: real, cy: real, w: real, h: real, x: real, y: real, z: real)
    requires w > 0.0 && h > 0.0 && z > 0.0
    ensures Apply(OrthoPixels(w, h), Apply(PinholeArray(fx, fy, cx, cy), [x, y, z, 1.0]))[2] / z == NdcDepth(z)
  {
    var kv := Apply(PinholeArray(fx, fy, cx, cy), [x, y, z, 1.0]);
    assert kv[2] == Lin(0.0, 0.0, -(Near + Far), Near * Far, x, y, z, 1.0);
    assert kv[3] == Lin(0.0, 0.0, 1.0, 0.0, x, y, z, 1.0);
    assert Apply(OrthoPixels(w, h), kv)[2]
        == Lin(0.0, 0.0, -2.0 / (Far - Near), -(Far + Near) / (Far - Near), kv[0], kv[1], kv[2], kv[3]);
    ClipZ(x, y, z, kv[0], kv[1]);
  }

  lemma ProjectW(fx: real, fy: real, cx: real, cy: real, w: real, h: real, x: real, y: real, z: real)
    requires w > 0.0 && h > 0.0
    ensures Apply(OrthoPixels(w, h), Apply(PinholeArray(fx, fy, cx, cy), [x, y, z, 1.0]))[3] == z
  {
    var kv := Apply(PinholeArray(fx, fy, cx, cy), [x, y, z, 1.0]);
    assert kv[3] == Lin(0.0, 0.0, 1.0, 0.0, x, y, z, 1.0);
    assert Apply(OrthoPixels(w, h), kv)[3] == Lin(0.0, 0.0, 0.0, 1.0, kv[0], kv[1], kv[2], kv[3]);
    ClipW(x, y, z, kv[0], kv[1], kv[2]);
  }

  /*
   * The four rows of ortho · intrinsic applied to (x, y, z, 1), one scalar
   * lemma each; k0, k1 and k2 stand for intrinsic rows that the ortho row
   * multiplies by 0.
   */

  lemma ClipX(f: real, c: real, w: real, x: real, y: real, z: real, k1: real, k2: real)
    requires w > 0.0 && z > 0.0
    ensures Lin(2.0 / w, 0.0, 0.0, -1.0, Lin(f, 0.0, c, 0.0, x, y, z, 1.0), k1, k2, Lin(0.0, 0.0, 1.0, 0.0, x, y, z, 1.0)) / z
         == 2.0 * (f * x / z + c) / w - 1.0
  {
    var k := f * x + c * z;
    assert Lin(2.0 / w, 0.0, 0.0, -1.0, k, k1, k2, z) == 2.0 / w * k - z;
    var sc := 2.0 / w;
    DivStep(sc, k, z);
    assert k / z == f * x / z + c;
  }

  lemma ClipY(f: real, c: real, h: real, x: real, y: real, z: real, k0: real, k2: real)
    requires h > 0.0 && z > 0.0
    ensures Lin(0.0, -2.0 / h, 0.0, 1.0, k0, Lin(0.0, f, c, 0.0, x, y, z, 1.0), k2, Lin(0.0, 0.0, 1.0, 0.0, x, y, z, 1.0)) / z
         == 1.0 - 2.0 * (f * y / z + c) / h
  {
    var k := f * y + c * z;
    assert Lin(0.0, -2.0 / h, 0.0, 1.0, k0, k, k2, z) == z - 2.0 / h * k;
    var sc := 2.0 / h;
    DivStep(-sc, k, z);
    assert k / z == f * y / z + c;
  }

  /** Dividing a scaled value minus the divisor. */
  lemma DivStep(sc: real, k: real, z: real)
    requires z > 0.0
    ensures (sc * k - z) / z == sc * (k / z) - 1.0
    ensures (z + sc * k) / z == 1.0 + sc * (k / z)
  {
    assert (sc * k - z) / z == sc * k / z - z / z;
    assert (z + sc * k) / z == z / z + sc * k / z;
    assert sc * k / z == sc * (k / z);
  }

  lemma ClipZ(x: real, y: real, z: real, k0: real, k1: real)
    requires z > 0.0
    ensures Lin(0.0, 0.0, -2.0 / (Far - Near), -(Far + Near) / (Far - Near),
                k0, k1, Lin(0.0, 0.0, -(Near + Far), Near * Far, x, y, z, 1.0), Lin(0.0, 0.0, 1.0, 0.0, x, y, z, 1.0)) / z
         == NdcDepth(z)
  {
    assert ((Far + Near) * z - 2.0 * Near * Far) / z == (Far + Near) - 2.0 * Near * Far / z;
  }

  lemma ClipW(x: real, y: real, z: real, k0: real, k1: real, k2: real)
    ensures Lin(0.0, 0.0, 0.0, 1.0, k0, k1, k2, Lin(0.0, 0.0, 1.0, 0.0, x, y, z, 1.0)) == z
  {
  }

  /** The near plane maps to depth -1 and the far plane to +1. */
  lemma DepthRange()
    ensures NdcDepth(Near) == -1.0 && NdcDepth(Far) == 1.0
  {
  }

  /** Normalised depth is strictly increasing in camera-space z. */
  lemma DepthIncreasing(z1: real, z2: real)
    requires 0.0 < z1 < z2
    ensures NdcDepth(z1) < NdcDepth(z2)
  {
    assert 2.0 * Near * Far / z2 < 2.0 * Near * Far / z1 by {
      assert 2.0 * Near * Far / z2 * z2 == 2.0 * Near * Far;
      assert 2.0 * Near * Far / z1 * z1 == 2.0 * Near * Far;
    }
  }
}
