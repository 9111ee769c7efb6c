/** A 4x4 matrix of sixteen row-major scalars, entry (row, col) at slot row * 4 + col.
    The scalar type is `real`, so floating-point rounding is not modelled. The abstract
    value is `Entries`; the functions on `Entries` specify the in-place methods of `Mat4`. */
module Matrix {
  import opened Vectors

  /** Sixteen entries: the abstract contents of a matrix. */
  type Entries = s: seq<real> | |s| == 16 witness seq(16, _ => 0.0)

  /** The slot of entry (row, col) in the row-major layout. */
  function Slot(row: nat, col: nat): (i: nat)
    requires row < 4 && col < 4
    ensures i < 16
    ensures i / 4 == row && i % 4 == col
  {
    row * 4 + col
  }

  /** Entry (row, col) of `a`. */
  function At(a: Entries, row: nat, col: nat): real
    requires row < 4 && col < 4
  {
    a[Slot(row, col)]
  }

  /** The row-major layout is a bijection between (row, col) pairs and the sixteen slots. */
  lemma {:induction false} SlotBijective(i: nat, row: nat, col: nat)
    requires i < 16 && row < 4 && col < 4
    ensures Slot(i / 4, i % 4) == i
    ensures Slot(row, col) == i <==> (row == i / 4 && col == i % 4)
  {
    assert i == 4 * (i / 4) + i % 4;
  }

  /** The matrix with `s` on the diagonal and 0 elsewhere. */
  function Diagonal(s: real): (r: Entries)
    ensures forall row: nat, col: nat {:trigger At(r, row, col)} | row < 4 && col < 4 ::
              At(r, row, col) == if row == col then s else 0.0
  {
    [s, 0.0, 0.0, 0.0,
     0.0, s, 0.0, 0.0,
     0.0, 0.0, s, 0.0,
     0.0, 0.0, 0.0, s]
  }

  function Identity(): Entries
  {
    Diagonal(1.0)
  }

  /** Row `row` of `a` times column `col` of `b`. */
  function Dot(a: Entries, b: Entries, row: nat, col: nat): real
    requires row < 4 && col < 4
  {
    a[row * 4] * b[col] + a[row * 4 + 1] * b[4 + col] + a[row * 4 + 2] * b[8 + col] + a[row * 4 + 3] * b[12 + col]
  }

  /** The matrix product `a * b`. */
  function Product(a: Entries, b: Entries): Entries
  {
    seq(16, i requires 0 <= i < 16 => Dot(a, b, i / 4, i % 4))
  }

  /** Entry (row, col) of a product is the sum over k of a(row, k) * b(k, col). */
  lemma {:induction false} ProductAt(a: Entries, b: Entries, row: nat, col: nat)
    requires row < 4 && col < 4
    ensures At(Product(a, b), row, col)
         == At(a, row, 0) * At(b, 0, col) + At(a, row, 1) * At(b, 1, col)
          + At(a, row, 2) * At(b, 2, col) + At(a, row, 3) * At(b, 3, col)
  {
    var i := Slot(row, col);
    assert Product(a, b)[i] == Dot(a, b, row, col);
  }

  /** Every entry multiplied by `s`. */
  function Scaled(a: Entries, s: real): Entries
  {
    seq(16, i requires 0 <= i < 16 => a[i] * s)
  }

  /** Entry (row, col) of the transpose is entry (col, row). */
  function Transposed(a: Entries): Entries
  {
    seq(16, i requires 0 <= i < 16 => a[i % 4 * 4 + i / 4])
  }

  /** `scale(x, y, z)`: the first three diagonal entries multiplied by x, y and z. */
  function ScaledAxes(a: Entries, x: real, y: real, z: real): Entries
  {
    a[0 := a[0] * x][5 := a[5] * y][10 := a[10] * z]
  }

  /** Entry (row, col) after `translate(x, y, z)`: a(row, 3) times x, y or z added in columns 0, 1 and 2. */
  function TranslatedEntry(a: Entries, row: nat, col: nat, x: real, y: real, z: real): real
    requires row < 4 && col < 4
  {
    var w := a[row * 4 + 3];
    if col == 0 then a[row * 4] + w * x
    else if col == 1 then a[row * 4 + 1] + w * y
    else if col == 2 then a[row * 4 + 2] + w * z
    else a[row * 4 + 3]
  }

  /** `translate(x, y, z)`. */
  function Translated(a: Entries, x: real, y: real, z: real): Entries
  {
    seq(16, i requires 0 <= i < 16 => TranslatedEntry(a, i / 4, i % 4, x, y, z))
  }

  /** The translation matrix for row vectors: the identity with (x, y, z) in the last row. */
  function Translation(x: real, y: real, z: real): Entries
  {
    [1.0, 0.0, 0.0, 0.0,
     0.0, 1.0, 0.0, 0.0,
     0.0, 0.0, 1.0, 0.0,
     x, y, z, 1.0]
  }

  /** The 3x3 rotation block about unit axis (x, y, z) with sine `s` and cosine `c`, as `rotate` builds it. */
  function Rotation(s: real, c: real, x: real, y: real, z: real): Entries
  {
    var t := 1.0 - c;
    [c + t * x * x, t * x * y + s * z, t * z * x - s * y, 0.0,
     t * x * y - s * z, c + t * y * y, t * y * z + s * x, 0.0,
     t * z * x + s * y, t * y * z - s * x, c + t * z * z, 0.0,
     0.0, 0.0, 0.0, 1.0]
  }

  /** `rotate(angle, axis)` with the sine, cosine and normalised axis supplied. */
  function Rotated(a: Entries, angle: real, s: real, c: real, axis: Vec3): Entries
  {
    if angle == 0.0 then a
    else
      var n := Rotation(s, c, axis.x, axis.y, axis.z);
      seq(16, i requires 0 <= i < 16 => RotatedEntry(a, n, i / 4, i % 4))
  }

  /** Entry (row, col) after `rotate`: column 3 is kept, the other columns combine the first
      three entries of the row with the rotation block `n`. */
  function RotatedEntry(a: Entries, n: Entries, row: nat, col: nat): real
    requires row < 4 && col < 4
  {
    if col == 3 then a[row * 4 + 3]
    else a[row * 4] * n[col] + a[row * 4 + 1] * n[4 + col] + a[row * 4 + 2] * n[8 + col]
  }

  /** The determinant as a polynomial in the sixteen entries, row by row. */
  function DetOf(m00: real, m01: real, m02: real, m03: real, m10: real, m11: real, m12: real, m13: real, m20: real, m21: real, m22: real, m23: real, m30: real, m31: real, m32: real, m33: real): real
  {
    m30 * m21 * m12 * m03 - m20 * m31 * m12 * m03 - m30 * m11 * m22 * m03 +
    m10 * m31 * m22 * m03 + m20 * m11 * m32 * m03 - m10 * m21 * m32 * m03 -
    m30 * m21 * m02 * m13 + m20 * m31 * m02 * m13 + m30 * m01 * m22 * m13 -
    m00 * m31 * m22 * m13 - m20 * m01 * m32 * m13 + m00 * m21 * m32 * m13 +
    m30 * m11 * m02 * m23 - m10 * m31 * m02 * m23 - m30 * m01 * m12 * m23 +
    m00 * m31 * m12 * m23 + m10 * m01 * m32 * m23 - m00 * m11 * m32 * m23 -
    m20 * m11 * m02 * m33 + m10 * m21 * m02 * m33 + m20 * m01 * m12 * m33 -
    m00 * m21 * m12 * m33 - m10 * m01 * m22 * m33 + m00 * m11 * m22 * m33
  }

  /** The adjugate (transposed cofactor matrix) of the matrix with the given entries, as
      `adjoint` computes it. */
  function AdjugateOf(m00: real, m01: real, m02: real, m03: real, m10: real, m11: real, m12: real, m13: real, m20: real, m21: real, m22: real, m23: real, m30: real, m31: real, m32: real, m33: real): Entries
  {
    [m12 * m23 * m31 - m13 * m22 * m31 + m13 * m21 * m32 - m11 * m23 * m32 - m12 * m21 * m33 + m11 * m22 * m33,
     m03 * m22 * m31 - m02 * m23 * m31 - m03 * m21 * m32 + m01 * m23 * m32 + m02 * m21 * m33 - m01 * m22 * m33,
     m02 * m13 * m31 - m03 * m12 * m31 + m03 * m11 * m32 - m01 * m13 * m32 - m02 * m11 * m33 + m01 * m12 * m33,
     m03 * m12 * m21 - m02 * m13 * m21 - m03 * m11 * m22 + m01 * m13 * m22 + m02 * m11 * m23 - m01 * m12 * m23,
     m13 * m22 * m30 - m12 * m23 * m30 - m13 * m20 * m32 + m10 * m23 * m32 + m12 * m20 * m33 - m10 * m22 * m33,
     m02 * m23 * m30 - m03 * m22 * m30 + m03 * m20 * m32 - m00 * m23 * m32 - m02 * m20 * m33 + m00 * m22 * m33,
     m03 * m12 * m30 - m02 * m13 * m30 - m03 * m10 * m32 + m00 * m13 * m32 + m02 * m10 * m33 - m00 * m12 * m33,
     m02 * m13 * m20 - m03 * m12 * m20 + m03 * m10 * m22 - m00 * m13 * m22 - m02 * m10 * m23 + m00 * m12 * m23,
     m11 * m23 * m30 - m13 * m21 * m30 + m13 * m20 * m31 - m10 * m23 * m31 - m11 * m20 * m33 + m10 * m21 * m33,
     m03 * m21 * m30 - m01 * m23 * m30 - m03 * m20 * m31 + m00 * m23 * m31 + m01 * m20 * m33 - m00 * m21 * m33,
     m01 * m13 * m30 - m03 * m11 * m30 + m03 * m10 * m31 - m00 * m13 * m31 - m01 * m10 * m33 + m00 * m11 * m33,
     m03 * m11 * m20 - m01 * m13 * m20 - m03 * m10 * m21 + m00 * m13 * m21 + m01 * m10 * m23 - m00 * m11 * m23,
     m12 * m21 * m30 - m11 * m22 * m30 - m12 * m20 * m31 + m10 * m22 * m31 + m11 * m20 * m32 - m10 * m21 * m32,
     m01 * m22 * m30 - m02 * m21 * m30 + m02 * m20 * m31 - m00 * m22 * m31 - m01 * m20 * m32 + m00 * m21 * m32,
     m02 * m11 * m30 - m01 * m12 * m30 - m02 * m10 * m31 + m00 * m12 * m31 + m01 * m10 * m32 - m00 * m11 * m32,
     m01 * m12 * m20 - m02 * m11 * m20 + m02 * m10 * m21 - m00 * m12 * m21 - m01 * m10 * m22 + m00 * m11 * m22]
  }

  /** The determinant of a matrix. */
  function Det(a: Entries): real
  {
    DetOf(a[0], a[1], a[2], a[3], a[4], a[5], a[6], a[7], a[8], a[9], a[10], a[11], a[12], a[13], a[14], a[15])
  }

  /** The adjugate of a matrix. */
  function Adjugate(a: Entries): Entries
  {
    AdjugateOf(a[0], a[1], a[2], a[3], a[4], a[5], a[6], a[7], a[8], a[9], a[10], a[11], a[12], a[13], a[14], a[15])
  }

  /** `determinant()` as written: the polynomial is converted to the declared return type `bool`,
      so it reports only whether the determinant is nonzero. */
  function DeterminantAsWritten(a: Entries): bool
  {
    Det(a) != 0.0
  }

  /** `inverse()` as written: the adjugate multiplied by the boolean determinant, converted back
      to a scalar (1 when true, 0 when false). */
  function InverseAsWritten(a: Entries): (r: Entries)
    ensures DeterminantAsWritten(a) ==> r == Adjugate(a)
    ensures !DeterminantAsWritten(a) ==> r == Diagonal(0.0)
  {
    var det := if DeterminantAsWritten(a) then 1.0 else 0.0;
    var r := Scaled(Adjugate(a), det);
    assert DeterminantAsWritten(a) ==> r == Adjugate(a);
    assert !DeterminantAsWritten(a) ==> r == Diagonal(0.0);
    r
  }

  /** The evidently intended inverse: the adjugate divided by the determinant. A singular
      matrix maps to the zero matrix, which is also what the code as written yields for it. */
  function Inverse(a: Entries): Entries
  {
    if Det(a) != 0.0 then Scaled(Adjugate(a), 1.0 / Det(a)) else Diagonal(0.0)
  }

  /** Multiplying the identity leaves a matrix unchanged, on either side. */
  lemma {:induction false} ProductIdentity(a: Entries)
    ensures Product(a, Identity()) == a
    ensures Product(Identity(), a) == a
  {
    forall i | 0 <= i < 16 ensures Product(a, Identity())[i] == a[i] && Product(Identity(), a)[i] == a[i] {
      var row, col := i / 4, i % 4;
      SlotBijective(i, row, col);
      ProductAt(a, Identity(), row, col);
      ProductAt(Identity(), a, row, col);
    }
  }

  /** `mat4(s)` is `s` times the identity, and multiplying by it scales every entry by `s`. */
  lemma {:induction false} DiagonalIsScaledIdentity(a: Entries, s: real)
    ensures Diagonal(s) == Scaled(Identity(), s)
    ensures Product(a, Diagonal(s)) == Scaled(a, s)
  {
    DiagonalScalesIdentity(s);
    ProductDiagonal(a, s);
  }

  lemma {:induction false} DiagonalScalesIdentity(s: real)
    ensures Diagonal(s) == Scaled(Identity(), s)
  {
    var lhs, rhs := Diagonal(s), Scaled(Identity(), s);
    assert forall i | 0 <= i < 16 :: lhs[i] == rhs[i];
  }

  lemma {:induction false} ProductDiagonal(a: Entries, s: real)
    ensures Product(a, Diagonal(s)) == Scaled(a, s)
  {
    var lhs, rhs := Product(a, Diagonal(s)), Scaled(a, s);
    forall i | 0 <= i < 16 ensures lhs[i] == rhs[i] {
      var row, col := i / 4, i % 4;
      assert lhs[i] == Dot(a, Diagonal(s), row, col);
      DotDiagonal(a, s, row, col);
      assert row * 4 + col == i;
    }
    assert lhs == rhs;
  }

  /** Row `row` of `a` against column `col` of `Diagonal(s)` picks out entry (row, col), scaled. */
  lemma {:induction false} DotDiagonal(a: Entries, s: real, row: nat, col: nat)
    requires row < 4 && col < 4
    ensures Dot(a, Diagonal(s), row, col) == a[row * 4 + col] * s
  {
    var b := Diagonal(s);
    assert b[col] == if col == 0 then s else 0.0;
    assert b[4 + col] == if col == 1 then s else 0.0;
    assert b[8 + col] == if col == 2 then s else 0.0;
    assert b[12 + col] == if col == 3 then s else 0.0;
  }

  /** Scaling by s and then by t scales by s * t. */
  lemma {:induction false} ScaledTwice(a: Entries, s: real, t: real)
    ensures Scaled(Scaled(a, s), t) == Scaled(a, s * t)
  {
    forall i | 0 <= i < 16 ensures Scaled(Scaled(a, s), t)[i] == Scaled(a, s * t)[i] {
      assert a[i] * s * t == a[i] * (s * t);
    }
  }

  /** Transposing moves entry (row, col) to (col, row), and transposing twice restores the matrix. */
  lemma {:induction false} TransposeInvolutive(a: Entries, row: nat, col: nat)
    requires row < 4 && col < 4
    ensures At(Transposed(a), col, row) == At(a, row, col)
    ensures Transposed(Transposed(a)) == a
  {
    assert Transposed(Transposed(a))[..] == a[..];
  }

  /** `scale(x, y, z)` touches only slots 0, 5 and 10; on the identity it gives diag(x, y, z, 1). */
  lemma {:induction false} ScaledAxesProperties(a: Entries, x: real, y: real, z: real)
    ensures forall i | 0 <= i < 16 && i != 0 && i != 5 && i != 10 :: ScaledAxes(a, x, y, z)[i] == a[i]
    ensures At(ScaledAxes(a, x, y, z), 0, 0) == At(a, 0, 0) * x
    ensures At(ScaledAxes(a, x, y, z), 1, 1) == At(a, 1, 1) * y
    ensures At(ScaledAxes(a, x, y, z), 2, 2) == At(a, 2, 2) * z
    ensures ScaledAxes(Identity(), x, y, z)
         == [x, 0.0, 0.0, 0.0, 0.0, y, 0.0, 0.0, 0.0, 0.0, z, 0.0, 0.0, 0.0, 0.0, 1.0]
  {
    var d := [x, 0.0, 0.0, 0.0, 0.0, y, 0.0, 0.0, 0.0, 0.0, z, 0.0, 0.0, 0.0, 0.0, 1.0];
    var r := ScaledAxes(Identity(), x, y, z);
    assert forall i | 0 <= i < 16 :: r[i] == d[i];
  }

  /** `translate` keeps column 3 and equals multiplying on the right by the translation matrix. */
  lemma {:induction false} TranslatedIsProduct(a: Entries, x: real, y: real, z: real)
    ensures forall row: nat | row < 4 :: At(Translated(a, x, y, z), row, 3) == At(a, row, 3)
    ensures Translated(a, x, y, z) == Product(a, Translation(x, y, z))
  {
    forall row: nat | row < 4 ensures At(Translated(a, x, y, z), row, 3) == At(a, row, 3) {
      SlotBijective(Slot(row, 3), row, 3);
    }
    forall i | 0 <= i < 16 ensures Translated(a, x, y, z)[i] == Product(a, Translation(x, y, z))[i] {
      var row, col := i / 4, i % 4;
      SlotBijective(i, row, col);
      ProductAt(a, Translation(x, y, z), row, col);
    }
  }

  /** `rotate(0, v)` is the identity map; any other angle multiplies on the right by the rotation matrix. */
  lemma {:induction false} RotatedIsProduct(a: Entries, angle: real, s: real, c: real, axis: Vec3)
    ensures angle == 0.0 ==> Rotated(a, angle, s, c, axis) == a
    ensures angle != 0.0 ==> Rotated(a, angle, s, c, axis) == Product(a, Rotation(s, c, axis.x, axis.y, axis.z))
  {
    if angle != 0.0 {
      var n := Rotation(s, c, axis.x, axis.y, axis.z);
      forall i | 0 <= i < 16 ensures Rotated(a, angle, s, c, axis)[i] == Product(a, n)[i] {
        var row, col := i / 4, i % 4;
        SlotBijective(i, row, col);
        ProductAt(a, n, row, col);
      }
    }
  }

  /** A `mat4` object; `m` is its fixed array of sixteen slots. */
  class Mat4 {
    const m: array<real>

    predicate Valid()
    {
      m.Length == 16
    }

    /** The abstract value: the sixteen slots in order. */
    function Value(): Entries
      reads m
      requires Valid()
    {
      m[..]
    }

    /** `mat4(s)`: `s` on the diagonal, 0 elsewhere. */
    constructor Scalar(s: real)
      ensures Valid() && fresh(m)
      ensures Value() == Diagonal(s)
    {
      m := new real[16](i => if i % 5 == 0 then s else 0.0);
      new;
      assert m[..] == Diagonal(s);
    }

    /** The sixteen-argument constructor, taking m00 .. m33 in row-major order. */
    constructor Elements(e: Entries)
      ensures Valid() && fresh(m)
      ensures Value() == e
    {
      m := new real[16](i requires 0 <= i < 16 => e[i]);
      new;
      assert m[..] == e;
    }

    /** The converting constructors from another `mat4<U>`: slot-by-slot copies (one scalar type here). */
    constructor Copy(source: Mat4)
      requires source.Valid()
      ensures Valid() && fresh(m)
      ensures Value() == source.Value()
    {
      var e := source.m[..];
      m := new real[16](i requires 0 <= i < 16 => e[i]);
      new;
      assert m[..] == e;
    }

    /** `operator*=(mat4)`: all old entries of both operands are read before any slot is written,
        so `a *= a` squares `a`. */
    method MulAssign(n: Mat4)
      requires Valid() && n.Valid()
      modifies m
      ensures Value() == Product(old(Value()), old(n.Value()))
    {
      var a, b := m[..], n.m[..];
      forall i | 0 <= i < 16 {
        m[i] := Dot(a, b, i / 4, i % 4);
      }
      assert m[..] == Product(a, b);
    }

    /** `operator*(mat4)`: the product in a new matrix; this one is unchanged. */
    method Times(n: Mat4) returns (r: Mat4)
      requires Valid() && n.Valid()
      ensures fresh(r) && fresh(r.m) && r.Valid()
      ensures r.Value() == Product(Value(), n.Value())
    {
      r := new Mat4.Copy(this);
      r.MulAssign(n);
    }

    /** `operator*=(T)`: every slot multiplied by `s`. */
    method ScaleAll(s: real)
      requires Valid()
      modifies m
      ensures Value() == Scaled(old(Value()), s)
    {
      var a := m[..];
      forall i | 0 <= i < 16 {
        m[i] := a[i] * s;
      }
      assert forall i | 0 <= i < 16 :: m[i] == Scaled(a, s)[i];
      assert m[..] == Scaled(a, s);
    }

    /** `operator*(T)`: the scaled matrix in a new object. */
    method TimesScalar(s: real) returns (r: Mat4)
      requires Valid()
      ensures fresh(r) && fresh(r.m) && r.Valid()
      ensures r.Value() == Scaled(Value(), s)
    {
      r := new Mat4.Copy(this);
      r.ScaleAll(s);
    }

    /** The getters m00() .. m33(): entry (row, col) is slot row * 4 + col, as in the qvm `read_element`. */
    method Get(row: nat, col: nat) returns (v: real)
      requires Valid() && row < 4 && col < 4
      ensures v == At(Value(), row, col)
    {
      v := m[row * 4 + col];
    }

    /** The setters m00(val) .. m33(val) and the qvm `write_element`: slot row * 4 + col becomes `v`,
        every other slot keeps its value. */
    method Set(row: nat, col: nat, v: real)
      requires Valid() && row < 4 && col < 4
      modifies m
      ensures At(Value(), row, col) == v
      ensures forall i | 0 <= i < 16 && i != Slot(row, col) :: m[i] == old(m[i])
    {
      m[row * 4 + col] := v;
    }

    /** `scale(x, y, z)`. */
    method ScaleAxes(x: real, y: real, z: real)
      requires Valid()
      modifies m
      ensures Value() == ScaledAxes(old(Value()), x, y, z)
    {
      ghost var a := m[..];
      m[0] := m[0] * x;
      m[5] := m[5] * y;
      m[10] := m[10] * z;
      assert forall i | 0 <= i < 16 :: m[i] == ScaledAxes(a, x, y, z)[i];
      assert m[..] == ScaledAxes(a, x, y, z);
    }

    /** `scale(s)`, which is `scale(s, s, s)`. */
    method ScaleUniform(s: real)
      requires Valid()
      modifies m
      ensures Value() == ScaledAxes(old(Value()), s, s, s)
    {
      ScaleAxes(s, s, s);
    }

    /** `scale(vec3)`, which is `scale(v.x, v.y, v.z)`. */
    method ScaleVec(v: Vec3)
      requires Valid()
      modifies m
      ensures Value() == ScaledAxes(old(Value()), v.x, v.y, v.z)
    {
      ScaleAxes(v.x, v.y, v.z);
    }

    /** `identity()`. */
    method SetIdentity()
      requires Valid()
      modifies m
      ensures Value() == Identity()
    {
      forall i | 0 <= i < 16 {
        m[i] := if i % 5 == 0 then 1.0 else 0.0;
      }
      assert m[..] == Identity();
    }

    /** `rotate(angle, axis)`. The sine and cosine of `angle` and the normalised axis are parameters;
        a zero angle returns before any of them is used. */
    method Rotate(angle: real, s: real, c: real, unitAxis: Vec3)
      requires Valid()
      modifies m
      ensures Value() == Rotated(old(Value()), angle, s, c, unitAxis)
    {
      if angle == 0.0 {
        return;
      }
      var a := m[..];
      var n := Rotation(s, c, unitAxis.x, unitAxis.y, unitAxis.z);
      forall i | 0 <= i < 16 {
        m[i] := RotatedEntry(a, n, i / 4, i % 4);
      }
      assert m[..] == Rotated(a, angle, s, c, unitAxis);
    }

    /** `translate(x, y, z)`. */
    method Translate(x: real, y: real, z: real)
      requires Valid()
      modifies m
      ensures Value() == Translated(old(Value()), x, y, z)
    {
      var a := m[..];
      forall i | 0 <= i < 16 {
        m[i] := TranslatedEntry(a, i / 4, i % 4, x, y, z);
      }
      assert m[..] == Translated(a, x, y, z);
    }

    /** `translate(vec3)`. */
    method TranslateVec(v: Vec3)
      requires Valid()
      modifies m
      ensures Value() == Translated(old(Value()), v.x, v.y, v.z)
    {
      Translate(v.x, v.y, v.z);
    }

    /** `adjoint()`: the matrix becomes its adjugate. */
    method Adjoint()
      requires Valid()
      modifies m
      ensures Value() == Adjugate(old(Value()))
    {
      var a := Adjugate(m[..]);
      forall i | 0 <= i < 16 {
        m[i] := a[i];
      }
      assert m[..] == a;
    }

    /** `determinant()`, whose declared return type is `bool`: true exactly when the polynomial is nonzero. */
    function Determinant(): (r: bool)
      reads m
      requires Valid()
      ensures r <==> Det(Value()) != 0.0
    {
      DeterminantAsWritten(m[..])
    }

    /** `is_invertible()`: the determinant compared with 0. */
    function IsInvertible(): (r: bool)
      reads m
      requires Valid()
      ensures r <==> Det(Value()) != 0.0
    {
      Determinant() != false
    }

    /** `inverse()`, with the determinant kept as a scalar (see `InverseAsWritten` for the code as written). */
    method Invert()
      requires Valid()
      modifies m
      ensures Value() == Inverse(old(Value()))
    {
      var d := Det(m[..]);
      Adjoint();
      ScaleAll(if d != 0.0 then 1.0 / d else 0.0);
      assert d == 0.0 ==> m[..] == Diagonal(0.0);
    }

    /** `transpose()`: slot row * 4 + col receives old slot col * 4 + row. */
    method Transpose()
      requires Valid()
      modifies m
      ensures Value() == Transposed(old(Value()))
    {
      var a := m[..];
      forall i | 0 <= i < 16 {
        m[i] := a[i % 4 * 4 + i / 4];
      }
      assert m[..] == Transposed(a);
    }
  }
}
