/** The adjugate identity `a * adj(a) == det(a) * I` for the polynomials `adjoint` and
    `determinant` compute, and what it implies for `inverse`. */
module AdjugateProof {
  import opened Matrix

  // Entry (i, j) of `a * Adjugate(a)`, one polynomial identity per lemma over plain variables
  // (the solver handles these over variables, not over sequence elements): row i of the
  // matrix against column j of the adjugate gives the determinant when i == j and 0 otherwise.

  lemma AdjugateEntry00(m00: real, m01: real, m02: real, m03: real, m10: real, m11: real, m12: real, m13: real, m20: real, m21: real, m22: real, m23: real, m30: real, m31: real, m32: real, m33: real,
                         c0: real, c1: real, c2: real, c3: real, d: real, p: real)
    requires c0 == m12 * m23 * m31 - m13 * m22 * m31 + m13 * m21 * m32 - m11 * m23 * m32 - m12 * m21 * m33 + m11 * m22 * m33
    requires c1 == m13 * m22 * m30 - m12 * m23 * m30 - m13 * m20 * m32 + m10 * m23 * m32 + m12 * m20 * m33 - m10 * m22 * m33
    requires c2 == m11 * m23 * m30 - m13 * m21 * m30 + m13 * m20 * m31 - m10 * m23 * m31 - m11 * m20 * m33 + m10 * m21 * m33
    requires c3 == m12 * m21 * m30 - m11 * m22 * m30 - m12 * m20 * m31 + m10 * m22 * m31 + m11 * m20 * m32 - m10 * m21 * m32
    requires d == m30 * m21 * m12 * m03 - m20 * m31 * m12 * m03 - m30 * m11 * m22 * m03 +
      m10 * m31 * m22 * m03 + m20 * m11 * m32 * m03 - m10 * m21 * m32 * m03 -
      m30 * m21 * m02 * m13 + m20 * m31 * m02 * m13 + m30 * m01 * m22 * m13 -
      m00 * m31 * m22 * m13 - m20 * m01 * m32 * m13 + m00 * m21 * m32 * m13 +
      m30 * m11 * m02 * m23 - m10 * m31 * m02 * m23 - m30 * m01 * m12 * m23 +
      m00 * m31 * m12 * m23 + m10 * m01 * m32 * m23 - m00 * m11 * m32 * m23 -
      m20 * m11 * m02 * m33 + m10 * m21 * m02 * m33 + m20 * m01 * m12 * m33 -
      m00 * m21 * m12 * m33 - m10 * m01 * m22 * m33 + m00 * m11 * m22 * m33
    requires p == m00 * c0 + m01 * c1 + m02 * c2 + m03 * c3
    ensures p == d
  {
  }

  lemma AdjugateEntry01(m00: real, m01: real, m02: real, m03: real, m10: real, m11: real, m12: real, m13: real, m20: real, m21: real, m22: real, m23: real, m30: real, m31: real, m32: real, m33: real,
                         c0: real, c1: real, c2: real, c3: real, p: real)
    requires c0 == m03 * m22 * m31 - m02 * m23 * m31 - m03 * m21 * m32 + m01 * m23 * m32 + m02 * m21 * m33 - m01 * m22 * m33
    requires c1 == m02 * m23 * m30 - m03 * m22 * m30 + m03 * m20 * m32 - m00 * m23 * m32 - m02 * m20 * m33 + m00 * m22 * m33
    requires c2 == m03 * m21 * m30 - m01 * m23 * m30 - m03 * m20 * m31 + m00 * m23 * m31 + m01 * m20 * m33 - m00 * m21 * m33
    requires c3 == m01 * m22 * m30 - m02 * m21 * m30 + m02 * m20 * m31 - m00 * m22 * m31 - m01 * m20 * m32 + m00 * m21 * m32
    requires p == m00 * c0 + m01 * c1 + m02 * c2 + m03 * c3
    ensures p == 0.0
  {
  }

  lemma AdjugateEntry02(m00: real, m01: real, m02: real, m03: real, m10: real, m11: real, m12: real, m13: real, m20: real, m21: real, m22: real, m23: real, m30: real, m31: real, m32: real, m33: real,
                         c0: real, c1: real, c2: real, c3: real, p: real)
    requires c0 == m02 * m13 * m31 - m03 * m12 * m31 + m03 * m11 * m32 - m01 * m13 * m32 - m02 * m11 * m33 + m01 * m12 * m33
    requires c1 == m03 * m12 * m30 - m02 * m13 * m30 - m03 * m10 * m32 + m00 * m13 * m32 + m02 * m10 * m33 - m00 * m12 * m33
    requires c2 == m01 * m13 * m30 - m03 * m11 * m30 + m03 * m10 * m31 - m00 * m13 * m31 - m01 * m10 * m33 + m00 * m11 * m33
    requires c3 == m02 * m11 * m30 - m01 * m12 * m30 - m02 * m10 * m31 + m00 * m12 * m31 + m01 * m10 * m32 - m00 * m11 * m32
    requires p == m00 * c0 + m01 * c1 + m02 * c2 + m03 * c3
    ensures p == 0.0
  {
  }

  lemma AdjugateEntry03(m00: real, m01: real, m02: real, m03: real, m10: real, m11: real, m12: real, m13: real, m20: real, m21: real, m22: real, m23: real, m30: real, m31: real, m32: real, m33: real,
                         c0: real, c1: real, c2: real, c3: real, p: real)
    requires c0 == m03 * m12 * m21 - m02 * m13 * m21 - m03 * m11 * m22 + m01 * m13 * m22 + m02 * m11 * m23 - m01 * m12 * m23
    requires c1 == m02 * m13 * m20 - m03 * m12 * m20 + m03 * m10 * m22 - m00 * m13 * m22 - m02 * m10 * m23 + m00 * m12 * m23
    requires c2 == m03 * m11 * m20 - m01 * m13 * m20 - m03 * m10 * m21 + m00 * m13 * m21 + m01 * m10 * m23 - m00 * m11 * m23
    requires c3 == m01 * m12 * m20 - m02 * m11 * m20 + m02 * m10 * m21 - m00 * m12 * m21 - m01 * m10 * m22 + m00 * m11 * m22
    requires p == m00 * c0 + m01 * c1 + m02 * c2 + m03 * c3
    ensures p == 0.0
  {
  }

  lemma AdjugateEntry10(m00: real, m01: real, m02: real, m03: real, m10: real, m11: real, m12: real, m13: real, m20: real, m21: real, m22: real, m23: real, m30: real, m31: real, m32: real, m33: real,
                         c0: real, c1: real, c2: real, c3: real, p: real)
    requires c0 == m12 * m23 * m31 - m13 * m22 * m31 + m13 * m21 * m32 - m11 * m23 * m32 - m12 * m21 * m33 + m11 * m22 * m33
    requires c1 == m13 * m22 * m30 - m12 * m23 * m30 - m13 * m20 * m32 + m10 * m23 * m32 + m12 * m20 * m33 - m10 * m22 * m33
    requires c2 == m11 * m23 * m30 - m13 * m21 * m30 + m13 * m20 * m31 - m10 * m23 * m31 - m11 * m20 * m33 + m10 * m21 * m33
    requires c3 == m12 * m21 * m30 - m11 * m22 * m30 - m12 * m20 * m31 + m10 * m22 * m31 + m11 * m20 * m32 - m10 * m21 * m32
    requires p == m10 * c0 + m11 * c1 + m12 * c2 + m13 * c3
    ensures p == 0.0
  {
  }

  lemma AdjugateEntry11(m00: real, m01: real, m02: real, m03: real, m10: real, m11: real, m12: real, m13: real, m20: real, m21: real, m22: real, m23: real, m30: real, m31: real, m32: real, m33: real,
                         c0: real, c1: real, c2: real, c3: real, d: real, p: real)
    requires c0 == m03 * m22 * m31 - m02 * m23 * m31 - m03 * m21 * m32 + m01 * m23 * m32 + m02 * m21 * m33 - m01 * m22 * m33
    requires c1 == m02 * m23 * m30 - m03 * m22 * m30 + m03 * m20 * m32 - m00 * m23 * m32 - m02 * m20 * m33 + m00 * m22 * m33
    requires c2 == m03 * m21 * m30 - m01 * m23 * m30 - m03 * m20 * m31 + m00 * m23 * m31 + m01 * m20 * m33 - m00 * m21 * m33
    requires c3 == m01 * m22 * m30 - m02 * m21 * m30 + m02 * m20 * m31 - m00 * m22 * m31 - m01 * m20 * m32 + m00 * m21 * m32
    requires d == m30 * m21 * m12 * m03 - m20 * m31 * m12 * m03 - m30 * m11 * m22 * m03 +
      m10 * m31 * m22 * m03 + m20 * m11 * m32 * m03 - m10 * m21 * m32 * m03 -
      m30 * m21 * m02 * m13 + m20 * m31 * m02 * m13 + m30 * m01 * m22 * m13 -
      m00 * m31 * m22 * m13 - m20 * m01 * m32 * m13 + m00 * m21 * m32 * m13 +
      m30 * m11 * m02 * m23 - m10 * m31 * m02 * m23 - m30 * m01 * m12 * m23 +
      m00 * m31 * m12 * m23 + m10 * m01 * m32 * m23 - m00 * m11 * m32 * m23 -
      m20 * m11 * m02 * m33 + m10 * m21 * m02 * m33 + m20 * m01 * m12 * m33 -
      m00 * m21 * m12 * m33 - m10 * m01 * m22 * m33 + m00 * m11 * m22 * m33
    requires p == m10 * c0 + m11 * c1 + m12 * c2 + m13 * c3
    ensures p == d
  {
  }

  lemma AdjugateEntry12(m00: real, m01: real, m02: real, m03: real, m10: real, m11: real, m12: real, m13: real, m20: real, m21: real, m22: real, m23: real, m30: real, m31: real, m32: real, m33: real,
                         c0: real, c1: real, c2: real, c3: real, p: real)
    requires c0 == m02 * m13 * m31 - m03 * m12 * m31 + m03 * m11 * m32 - m01 * m13 * m32 - m02 * m11 * m33 + m01 * m12 * m33
    requires c1 == m03 * m12 * m30 - m02 * m13 * m30 - m03 * m10 * m32 + m00 * m13 * m32 + m02 * m10 * m33 - m00 * m12 * m33
    requires c2 == m01 * m13 * m30 - m03 * m11 * m30 + m03 * m10 * m31 - m00 * m13 * m31 - m01 * m10 * m33 + m00 * m11 * m33
    requires c3 == m02 * m11 * m30 - m01 * m12 * m30 - m02 * m10 * m31 + m00 * m12 * m31 + m01 * m10 * m32 - m00 * m11 * m32
    requires p == m10 * c0 + m11 * c1 + m12 * c2 + m13 * c3
    ensures p == 0.0
  {
  }

  lemma AdjugateEntry13(m00: real, m01: real, m02: real, m03: real, m10: real, m11: real, m12: real, m13: real, m20: real, m21: real, m22: real, m23: real, m30: real, m31: real, m32: real, m33: real,
                         c0: real, c1: real, c2: real, c3: real, p: real)
    requires c0 == m03 * m12 * m21 - m02 * m13 * m21 - m03 * m11 * m22 + m01 * m13 * m22 + m02 * m11 * m23 - m01 * m12 * m23
    requires c1 == m02 * m13 * m20 - m03 * m12 * m20 + m03 * m10 * m22 - m00 * m13 * m22 - m02 * m10 * m23 + m00 * m12 * m23
    requires c2 == m03 * m11 * m20 - m01 * m13 * m20 - m03 * m10 * m21 + m00 * m13 * m21 + m01 * m10 * m23 - m00 * m11 * m23
    requires c3 == m01 * m12 * m20 - m02 * m11 * m20 + m02 * m10 * m21 - m00 * m12 * m21 - m01 * m10 * m22 + m00 * m11 * m22
    requires p == m10 * c0 + m11 * c1 + m12 * c2 + m13 * c3
    ensures p == 0.0
  {
  }

  lemma AdjugateEntry20(m00: real, m01: real, m02: real, m03: real, m10: real, m11: real, m12: real, m13: real, m20: real, m21: real, m22: real, m23: real, m30: real, m31: real, m32: real, m33: real,
                         c0: real, c1: real, c2: real, c3: real, p: real)
    requires c0 == m12 * m23 * m31 - m13 * m22 * m31 + m13 * m21 * m32 - m11 * m23 * m32 - m12 * m21 * m33 + m11 * m22 * m33
    requires c1 == m13 * m22 * m30 - m12 * m23 * m30 - m13 * m20 * m32 + m10 * m23 * m32 + m12 * m20 * m33 - m10 * m22 * m33
    requires c2 == m11 * m23 * m30 - m13 * m21 * m30 + m13 * m20 * m31 - m10 * m23 * m31 - m11 * m20 * m33 + m10 * m21 * m33
    requires c3 == m12 * m21 * m30 - m11 * m22 * m30 - m12 * m20 * m31 + m10 * m22 * m31 + m11 * m20 * m32 - m10 * m21 * m32
    requires p == m20 * c0 + m21 * c1 + m22 * c2 + m23 * c3
    ensures p == 0.0
  {
  }

  lemma AdjugateEntry21(m00: real, m01: real, m02: real, m03: real, m10: real, m11: real, m12: real, m13: real, m20: real, m21: real, m22: real, m23: real, m30: real, m31: real, m32: real, m33: real,
                         c0: real, c1: real, c2: real, c3: real, p: real)
    requires c0 == m03 * m22 * m31 - m02 * m23 * m31 - m03 * m21 * m32 + m01 * m23 * m32 + m02 * m21 * m33 - m01 * m22 * m33
    requires c1 == m02 * m23 * m30 - m03 * m22 * m30 + m03 * m20 * m32 - m00 * m23 * m32 - m02 * m20 * m33 + m00 * m22 * m33
    requires c2 == m03 * m21 * m30 - m01 * m23 * m30 - m03 * m20 * m31 + m00 * m23 * m31 + m01 * m20 * m33 - m00 * m21 * m33
    requires c3 == m01 * m22 * m30 - m02 * m21 * m30 + m02 * m20 * m31 - m00 * m22 * m31 - m01 * m20 * m32 + m00 * m21 * m32
    requires p == m20 * c0 + m21 * c1 + m22 * c2 + m23 * c3
    ensures p == 0.0
  {
  }

  lemma AdjugateEntry22(m00: real, m01: real, m02: real, m03: real, m10: real, m11: real, m12: real, m13: real, m20: real, m21: real, m22: real, m23: real, m30: real, m31: real, m32: real, m33: real,
                         c0: real, c1: real, c2: real, c3: real, d: real, p: real)
    requires c0 == m02 * m13 * m31 - m03 * m12 * m31 + m03 * m11 * m32 - m01 * m13 * m32 - m02 * m11 * m33 + m01 * m12 * m33
    requires c1 == m03 * m12 * m30 - m02 * m13 * m30 - m03 * m10 * m32 + m00 * m13 * m32 + m02 * m10 * m33 - m00 * m12 * m33
    requires c2 == m01 * m13 * m30 - m03 * m11 * m30 + m03 * m10 * m31 - m00 * m13 * m31 - m01 * m10 * m33 + m00 * m11 * m33
    requires c3 == m02 * m11 * m30 - m01 * m12 * m30 - m02 * m10 * m31 + m00 * m12 * m31 + m01 * m10 * m32 - m00 * m11 * m32
    requires d == m30 * m21 * m12 * m03 - m20 * m31 * m12 * m03 - m30 * m11 * m22 * m03 +
      m10 * m31 * m22 * m03 + m20 * m11 * m32 * m03 - m10 * m21 * m32 * m03 -
      m30 * m21 * m02 * m13 + m20 * m31 * m02 * m13 + m30 * m01 * m22 * m13 -
      m00 * m31 * m22 * m13 - m20 * m01 * m32 * m13 + m00 * m21 * m32 * m13 +
      m30 * m11 * m02 * m23 - m10 * m31 * m02 * m23 - m30 * m01 * m12 * m23 +
      m00 * m31 * m12 * m23 + m10 * m01 * m32 * m23 - m00 * m11 * m32 * m23 -
      m20 * m11 * m02 * m33 + m10 * m21 * m02 * m33 + m20 * m01 * m12 * m33 -
      m00 * m21 * m12 * m33 - m10 * m01 * m22 * m33 + m00 * m11 * m22 * m33
    requires p == m20 * c0 + m21 * c1 + m22 * c2 + m23 * c3
    ensures p == d
  {
  }

  lemma AdjugateEntry23(m00: real, m01: real, m02: real, m03: real, m10: real, m11: real, m12: real, m13: real, m20: real, m21: real, m22: real, m23: real, m30: real, m31: real, m32: real, m33: real,
                         c0: real, c1: real, c2: real, c3: real, p: real)
    requires c0 == m03 * m12 * m21 - m02 * m13 * m21 - m03 * m11 * m22 + m01 * m13 * m22 + m02 * m11 * m23 - m01 * m12 * m23
    requires c1 == m02 * m13 * m20 - m03 * m12 * m20 + m03 * m10 * m22 - m00 * m13 * m22 - m02 * m10 * m23 + m00 * m12 * m23
    requires c2 == m03 * m11 * m20 - m01 * m13 * m20 - m03 * m10 * m21 + m00 * m13 * m21 + m01 * m10 * m23 - m00 * m11 * m23
    requires c3 == m01 * m12 * m20 - m02 * m11 * m20 + m02 * m10 * m21 - m00 * m12 * m21 - m01 * m10 * m22 + m00 * m11 * m22
    requires p == m20 * c0 + m21 * c1 + m22 * c2 + m23 * c3
    ensures p == 0.0
  {
  }

  lemma AdjugateEntry30(m00: real, m01: real, m02: real, m03: real, m10: real, m11: real, m12: real, m13: real, m20: real, m21: real, m22: real, m23: real, m30: real, m31: real, m32: real, m33: real,
                         c0: real, c1: real, c2: real, c3: real, p: real)
    requires c0 == m12 * m23 * m31 - m13 * m22 * m31 + m13 * m21 * m32 - m11 * m23 * m32 - m12 * m21 * m33 + m11 * m22 * m33
    requires c1 == m13 * m22 * m30 - m12 * m23 * m30 - m13 * m20 * m32 + m10 * m23 * m32 + m12 * m20 * m33 - m10 * m22 * m33
    requires c2 == m11 * m23 * m30 - m13 * m21 * m30 + m13 * m20 * m31 - m10 * m23 * m31 - m11 * m20 * m33 + m10 * m21 * m33
    requires c3 == m12 * m21 * m30 - m11 * m22 * m30 - m12 * m20 * m31 + m10 * m22 * m31 + m11 * m20 * m32 - m10 * m21 * m32
    requires p == m30 * c0 + m31 * c1 + m32 * c2 + m33 * c3
    ensures p == 0.0
  {
  }

  lemma AdjugateEntry31(m00: real, m01: real, m02: real, m03: real, m10: real, m11: real, m12: real, m13: real, m20: real, m21: real, m22: real, m23: real, m30: real, m31: real, m32: real, m33: real,
                         c0: real, c1: real, c2: real, c3: real, p: real)
    requires c0 == m03 * m22 * m31 - m02 * m23 * m31 - m03 * m21 * m32 + m01 * m23 * m32 + m02 * m21 * m33 - m01 * m22 * m33
    requires c1 == m02 * m23 * m30 - m03 * m22 * m30 + m03 * m20 * m32 - m00 * m23 * m32 - m02 * m20 * m33 + m00 * m22 * m33
    requires c2 == m03 * m21 * m30 - m01 * m23 * m30 - m03 * m20 * m31 + m00 * m23 * m31 + m01 * m20 * m33 - m00 * m21 * m33
    requires c3 == m01 * m22 * m30 - m02 * m21 * m30 + m02 * m20 * m31 - m00 * m22 * m31 - m01 * m20 * m32 + m00 * m21 * m32
    requires p == m30 * c0 + m31 * c1 + m32 * c2 + m33 * c3
    ensures p == 0.0
  {
  }

  lemma AdjugateEntry32(m00: real, m01: real, m02: real, m03: real, m10: real, m11: real, m12: real, m13: real, m20: real, m21: real, m22: real, m23: real, m30: real, m31: real, m32: real, m33: real,
                         c0: real, c1: real, c2: real, c3: real, p: real)
    requires c0 == m02 * m13 * m31 - m03 * m12 * m31 + m03 * m11 * m32 - m01 * m13 * m32 - m02 * m11 * m33 + m01 * m12 * m33
    requires c1 == m03 * m12 * m30 - m02 * m13 * m30 - m03 * m10 * m32 + m00 * m13 * m32 + m02 * m10 * m33 - m00 * m12 * m33
    requires c2 == m01 * m13 * m30 - m03 * m11 * m30 + m03 * m10 * m31 - m00 * m13 * m31 - m01 * m10 * m33 + m00 * m11 * m33
    requires c3 == m02 * m11 * m30 - m01 * m12 * m30 - m02 * m10 * m31 + m00 * m12 * m31 + m01 * m10 * m32 - m00 * m11 * m32
    requires p == m30 * c0 + m31 * c1 + m32 * c2 + m33 * c3
    ensures p == 0.0
  {
  }

  lemma AdjugateEntry33(m00: real, m01: real, m02: real, m03: real, m10: real, m11: real, m12: real, m13: real, m20: real, m21: real, m22: real, m23: real, m30: real, m31: real, m32: real, m33: real,
                         c0: real, c1: real, c2: real, c3: real, d: real, p: real)
    requires c0 == m03 * m12 * m21 - m02 * m13 * m21 - m03 * m11 * m22 + m01 * m13 * m22 + m02 * m11 * m23 - m01 * m12 * m23
    requires c1 == m02 * m13 * m20 - m03 * m12 * m20 + m03 * m10 * m22 - m00 * m13 * m22 - m02 * m10 * m23 + m00 * m12 * m23
    requires c2 == m03 * m11 * m20 - m01 * m13 * m20 - m03 * m10 * m21 + m00 * m13 * m21 + m01 * m10 * m23 - m00 * m11 * m23
    requires c3 == m01 * m12 * m20 - m02 * m11 * m20 + m02 * m10 * m21 - m00 * m12 * m21 - m01 * m10 * m22 + m00 * m11 * m22
    requires d == m30 * m21 * m12 * m03 - m20 * m31 * m12 * m03 - m30 * m11 * m22 * m03 +
      m10 * m31 * m22 * m03 + m20 * m11 * m32 * m03 - m10 * m21 * m32 * m03 -
      m30 * m21 * m02 * m13 + m20 * m31 * m02 * m13 + m30 * m01 * m22 * m13 -
      m00 * m31 * m22 * m13 - m20 * m01 * m32 * m13 + m00 * m21 * m32 * m13 +
      m30 * m11 * m02 * m23 - m10 * m31 * m02 * m23 - m30 * m01 * m12 * m23 +
      m00 * m31 * m12 * m23 + m10 * m01 * m32 * m23 - m00 * m11 * m32 * m23 -
      m20 * m11 * m02 * m33 + m10 * m21 * m02 * m33 + m20 * m01 * m12 * m33 -
      m00 * m21 * m12 * m33 - m10 * m01 * m22 * m33 + m00 * m11 * m22 * m33
    requires p == m30 * c0 + m31 * c1 + m32 * c2 + m33 * c3
    ensures p == d
  {
  }
  /** `AdjugateOf` and `DetOf` spelled out entry by entry. */
  lemma AdjugateOfEntries(m00: real, m01: real, m02: real, m03: real, m10: real, m11: real, m12: real, m13: real, m20: real, m21: real, m22: real, m23: real, m30: real, m31: real, m32: real, m33: real)
    ensures DetOf(m00, m01, m02, m03, m10, m11, m12, m13, m20, m21, m22, m23, m30, m31, m32, m33) ==
      m30 * m21 * m12 * m03 - m20 * m31 * m12 * m03 - m30 * m11 * m22 * m03 +
      m10 * m31 * m22 * m03 + m20 * m11 * m32 * m03 - m10 * m21 * m32 * m03 -
      m30 * m21 * m02 * m13 + m20 * m31 * m02 * m13 + m30 * m01 * m22 * m13 -
      m00 * m31 * m22 * m13 - m20 * m01 * m32 * m13 + m00 * m21 * m32 * m13 +
      m30 * m11 * m02 * m23 - m10 * m31 * m02 * m23 - m30 * m01 * m12 * m23 +
      m00 * m31 * m12 * m23 + m10 * m01 * m32 * m23 - m00 * m11 * m32 * m23 -
      m20 * m11 * m02 * m33 + m10 * m21 * m02 * m33 + m20 * m01 * m12 * m33 -
      m00 * m21 * m12 * m33 - m10 * m01 * m22 * m33 + m00 * m11 * m22 * m33
    ensures AdjugateOf(m00, m01, m02, m03, m10, m11, m12, m13, m20, m21, m22, m23, m30, m31, m32, m33)[0] == m12 * m23 * m31 - m13 * m22 * m31 + m13 * m21 * m32 - m11 * m23 * m32 - m12 * m21 * m33 + m11 * m22 * m33
    ensures AdjugateOf(m00, m01, m02, m03, m10, m11, m12, m13, m20, m21, m22, m23, m30, m31, m32, m33)[1] == m03 * m22 * m31 - m02 * m23 * m31 - m03 * m21 * m32 + m01 * m23 * m32 + m02 * m21 * m33 - m01 * m22 * m33
    ensures AdjugateOf(m00, m01, m02, m03, m10, m11, m12, m13, m20, m21, m22, m23, m30, m31, m32, m33)[2] == m02 * m13 * m31 - m03 * m12 * m31 + m03 * m11 * m32 - m01 * m13 * m32 - m02 * m11 * m33 + m01 * m12 * m33
    ensures AdjugateOf(m00, m01, m02, m03, m10, m11, m12, m13, m20, m21, m22, m23, m30, m31, m32, m33)[3] == m03 * m12 * m21 - m02 * m13 * m21 - m03 * m11 * m22 + m01 * m13 * m22 + m02 * m11 * m23 - m01 * m12 * m23
    ensures AdjugateOf(m00, m01, m02, m03, m10, m11, m12, m13, m20, m21, m22, m23, m30, m31, m32, m33)[4] == m13 * m22 * m30 - m12 * m23 * m30 - m13 * m20 * m32 + m10 * m23 * m32 + m12 * m20 * m33 - m10 * m22 * m33
    ensures AdjugateOf(m00, m01, m02, m03, m10, m11, m12, m13, m20, m21, m22, m23, m30, m31, m32, m33)[5] == m02 * m23 * m30 - m03 * m22 * m30 + m03 * m20 * m32 - m00 * m23 * m32 - m02 * m20 * m33 + m00 * m22 * m33
    ensures AdjugateOf(m00, m01, m02, m03, m10, m11, m12, m13, m20, m21, m22, m23, m30, m31, m32, m33)[6] == m03 * m12 * m30 - m02 * m13 * m30 - m03 * m10 * m32 + m00 * m13 * m32 + m02 * m10 * m33 - m00 * m12 * m33
    ensures AdjugateOf(m00, m01, m02, m03, m10, m11, m12, m13, m20, m21, m22, m23, m30, m31, m32, m33)[7] == m02 * m13 * m20 - m03 * m12 * m20 + m03 * m10 * m22 - m00 * m13 * m22 - m02 * m10 * m23 + m00 * m12 * m23
    ensures AdjugateOf(m00, m01, m02, m03, m10, m11, m12, m13, m20, m21, m22, m23, m30, m31, m32, m33)[8] == m11 * m23 * m30 - m13 * m21 * m30 + m13 * m20 * m31 - m10 * m23 * m31 - m11 * m20 * m33 + m10 * m21 * m33
    ensures AdjugateOf(m00, m01, m02, m03, m10, m11, m12, m13, m20, m21, m22, m23, m30, m31, m32, m33)[9] == m03 * m21 * m30 - m01 * m23 * m30 - m03 * m20 * m31 + m00 * m23 * m31 + m01 * m20 * m33 - m00 * m21 * m33
    ensures AdjugateOf(m00, m01, m02, m03, m10, m11, m12, m13, m20, m21, m22, m23, m30, m31, m32, m33)[10] == m01 * m13 * m30 - m03 * m11 * m30 + m03 * m10 * m31 - m00 * m13 * m31 - m01 * m10 * m33 + m00 * m11 * m33
    ensures AdjugateOf(m00, m01, m02, m03, m10, m11, m12, m13, m20, m21, m22, m23, m30, m31, m32, m33)[11] == m03 * m11 * m20 - m01 * m13 * m20 - m03 * m10 * m21 + m00 * m13 * m21 + m01 * m10 * m23 - m00 * m11 * m23
    ensures AdjugateOf(m00, m01, m02, m03, m10, m11, m12, m13, m20, m21, m22, m23, m30, m31, m32, m33)[12] == m12 * m21 * m30 - m11 * m22 * m30 - m12 * m20 * m31 + m10 * m22 * m31 + m11 * m20 * m32 - m10 * m21 * m32
    ensures AdjugateOf(m00, m01, m02, m03, m10, m11, m12, m13, m20, m21, m22, m23, m30, m31, m32, m33)[13] == m01 * m22 * m30 - m02 * m21 * m30 + m02 * m20 * m31 - m00 * m22 * m31 - m01 * m20 * m32 + m00 * m21 * m32
    ensures AdjugateOf(m00, m01, m02, m03, m10, m11, m12, m13, m20, m21, m22, m23, m30, m31, m32, m33)[14] == m02 * m11 * m30 - m01 * m12 * m30 - m02 * m10 * m31 + m00 * m12 * m31 + m01 * m10 * m32 - m00 * m11 * m32
    ensures AdjugateOf(m00, m01, m02, m03, m10, m11, m12, m13, m20, m21, m22, m23, m30, m31, m32, m33)[15] == m01 * m12 * m20 - m02 * m11 * m20 + m02 * m10 * m21 - m00 * m12 * m21 - m01 * m10 * m22 + m00 * m11 * m22
  {
  }

  lemma AdjugateEntryOf00(m00: real, m01: real, m02: real, m03: real, m10: real, m11: real, m12: real, m13: real, m20: real, m21: real, m22: real, m23: real, m30: real, m31: real, m32: real, m33: real, p: real)
    requires p == m00 * AdjugateOf(m00, m01, m02, m03, m10, m11, m12, m13, m20, m21, m22, m23, m30, m31, m32, m33)[0] + m01 * AdjugateOf(m00, m01, m02, m03, m10, m11, m12, m13, m20, m21, m22, m23, m30, m31, m32, m33)[4] + m02 * AdjugateOf(m00, m01, m02, m03, m10, m11, m12, m13, m20, m21, m22, m23, m30, m31, m32, m33)[8] + m03 * AdjugateOf(m00, m01, m02, m03, m10, m11, m12, m13, m20, m21, m22, m23, m30, m31, m32, m33)[12]
    ensures p == DetOf(m00, m01, m02, m03, m10, m11, m12, m13, m20, m21, m22, m23, m30, m31, m32, m33)
  {
    AdjugateOfEntries(m00, m01, m02, m03, m10, m11, m12, m13, m20, m21, m22, m23, m30, m31, m32, m33);
    var adj := AdjugateOf(m00, m01, m02, m03, m10, m11, m12, m13, m20, m21, m22, m23, m30, m31, m32, m33);
    AdjugateEntry00(m00, m01, m02, m03, m10, m11, m12, m13, m20, m21, m22, m23, m30, m31, m32, m33,
                     adj[0], adj[4], adj[8], adj[12], DetOf(m00, m01, m02, m03, m10, m11, m12, m13, m20, m21, m22, m23, m30, m31, m32, m33), p);
  }

  lemma AdjugateEntryOf01(m00: real, m01: real, m02: real, m03: real, m10: real, m11: real, m12: real, m13: real, m20: real, m21: real, m22: real, m23: real, m30: real, m31: real, m32: real, m33: real, p: real)
    requires p == m00 * AdjugateOf(m00, m01, m02, m03, m10, m11, m12, m13, m20, m21, m22, m23, m30, m31, m32, m33)[1] + m01 * AdjugateOf(m00, m01, m02, m03, m10, m11, m12, m13, m20, m21, m22, m23, m30, m31, m32, m33)[5] + m02 * AdjugateOf(m00, m01, m02, m03, m10, m11, m12, m13, m20, m21, m22, m23, m30, m31, m32, m33)[9] + m03 * AdjugateOf(m00, m01, m02, m03, m10, m11, m12, m13, m20, m21, m22, m23, m30, m31, m32, m33)[13]
    ensures p == 0.0
  {
    AdjugateOfEntries(m00, m01, m02, m03, m10, m11, m12, m13, m20, m21, m22, m23, m30, m31, m32, m33);
    var adj := AdjugateOf(m00, m01, m02, m03, m10, m11, m12, m13, m20, m21, m22, m23, m30, m31, m32, m33);
    AdjugateEntry01(m00, m01, m02, m03, m10, m11, m12, m13, m20, m21, m22, m23, m30, m31, m32, m33,
                     adj[1], adj[5], adj[9], adj[13], p);
  }

  lemma AdjugateEntryOf02(m00: real, m01: real, m02: real, m03: real, m10: real, m11: real, m12: real, m13: real, m20: real, m21: real, m22: real, m23: real, m30: real, m31: real, m32: real, m33: real, p: real)
    requires p == m00 * AdjugateOf(m00, m01, m02, m03, m10, m11, m12, m13, m20, m21, m22, m23, m30, m31, m32, m33)[2] + m01 * AdjugateOf(m00, m01, m02, m03, m10, m11, m12, m13, m20, m21, m22, m23, m30, m31, m32, m33)[6] + m02 * AdjugateOf(m00, m01, m02, m03, m10, m11, m12, m13, m20, m21, m22, m23, m30, m31, m32, m33)[10] + m03 * AdjugateOf(m00, m01, m02, m03, m10, m11, m12, m13, m20, m21, m22, m23, m30, m31, m32, m33)[14]
    ensures p == 0.0
  {
    AdjugateOfEntries(m00, m01, m02, m03, m10, m11, m12, m13, m20, m21, m22, m23, m30, m31, m32, m33);
    var adj := AdjugateOf(m00, m01, m02, m03, m10, m11, m12, m13, m20, m21, m22, m23, m30, m31, m32, m33);
    AdjugateEntry02(m00, m01, m02, m03, m10, m11, m12, m13, m20, m21, m22, m23, m30, m31, m32, m33,
                     adj[2], adj[6], adj[10], adj[14], p);
  }

  lemma AdjugateEntryOf03(m00: real, m01: real, m02: real, m03: real, m10: real, m11: real, m12: real, m13: real, m20: real, m21: real, m22: real, m23: real, m30: real, m31: real, m32: real, m33: real, p: real)
    requires p == m00 * AdjugateOf(m00, m01, m02, m03, m10, m11, m12, m13, m20, m21, m22, m23, m30, m31, m32, m33)[3] + m01 * AdjugateOf(m00, m01, m02, m03, m10, m11, m12, m13, m20, m21, m22, m23, m30, m31, m32, m33)[7] + m02 * AdjugateOf(m00, m01, m02, m03, m10, m11, m12, m13, m20, m21, m22, m23, m30, m31, m32, m33)[11] + m03 * AdjugateOf(m00, m01, m02, m03, m10, m11, m12, m13, m20, m21, m22, m23, m30, m31, m32, m33)[15]
    ensures p == 0.0
  {
    AdjugateOfEntries(m00, m01, m02, m03, m10, m11, m12, m13, m20, m21, m22, m23, m30, m31, m32, m33);
    var adj := AdjugateOf(m00, m01, m02, m03, m10, m11, m12, m13, m20, m21, m22, m23, m30, m31, m32, m33);
    AdjugateEntry03(m00, m01, m02, m03, m10, m11, m12, m13, m20, m21, m22, m23, m30, m31, m32, m33,
                     adj[3], adj[7], adj[11], adj[15], p);
  }

  lemma AdjugateEntryOf10(m00: real, m01: real, m02: real, m03: real, m10: real, m11: real, m12: real, m13: real, m20: real, m21: real, m22: real, m23: real, m30: real, m31: real, m32: real, m33: real, p: real)
    requires p == m10 * AdjugateOf(m00, m01, m02, m03, m10, m11, m12, m13, m20, m21, m22, m23, m30, m31, m32, m33)[0] + m11 * AdjugateOf(m00, m01, m02, m03, m10, m11, m12, m13, m20, m21, m22, m23, m30, m31, m32, m33)[4] + m12 * AdjugateOf(m00, m01, m02, m03, m10, m11, m12, m13, m20, m21, m22, m23, m30, m31, m32, m33)[8] + m13 * AdjugateOf(m00, m01, m02, m03, m10, m11, m12, m13, m20, m21, m22, m23, m30, m31, m32, m33)[12]
    ensures p == 0.0
  {
    AdjugateOfEntries(m00, m01, m02, m03, m10, m11, m12, m13, m20, m21, m22, m23, m30, m31, m32, m33);
    var adj := AdjugateOf(m00, m01, m02, m03, m10, m11, m12, m13, m20, m21, m22, m23, m30, m31, m32, m33);
    AdjugateEntry10(m00, m01, m02, m03, m10, m11, m12, m13, m20, m21, m22, m23, m30, m31, m32, m33,
                     adj[0], adj[4], adj[8], adj[12], p);
  }

  lemma AdjugateEntryOf11(m00: real, m01: real, m02: real, m03: real, m10: real, m11: real, m12: real, m13: real, m20: real, m21: real, m22: real, m23: real, m30: real, m31: real, m32: real, m33: real, p: real)
    requires p == m10 * AdjugateOf(m00, m01, m02, m03, m10, m11, m12, m13, m20, m21, m22, m23, m30, m31, m32, m33)[1] + m11 * AdjugateOf(m00, m01, m02, m03, m10, m11, m12, m13, m20, m21, m22, m23, m30, m31, m32, m33)[5] + m12 * AdjugateOf(m00, m01, m02, m03, m10, m11, m12, m13, m20, m21, m22, m23, m30, m31, m32, m33)[9] + m13 * AdjugateOf(m00, m01, m02, m03, m10, m11, m12, m13, m20, m21, m22, m23, m30, m31, m32, m33)[13]
    ensures p == DetOf(m00, m01, m02, m03, m10, m11, m12, m13, m20, m21, m22, m23, m30, m31, m32, m33)
  {
    AdjugateOfEntries(m00, m01, m02, m03, m10, m11, m12, m13, m20, m21, m22, m23, m30, m31, m32, m33);
    var adj := AdjugateOf(m00, m01, m02, m03, m10, m11, m12, m13, m20, m21, m22, m23, m30, m31, m32, m33);
    AdjugateEntry11(m00, m01, m02, m03, m10, m11, m12, m13, m20, m21, m22, m23, m30, m31, m32, m33,
                     adj[1], adj[5], adj[9], adj[13], DetOf(m00, m01, m02, m03, m10, m11, m12, m13, m20, m21, m22, m23, m30, m31, m32, m33), p);
  }

  lemma AdjugateEntryOf12(m00: real, m01: real, m02: real, m03: real, m10: real, m11: real, m12: real, m13: real, m20: real, m21: real, m22: real, m23: real, m30: real, m31: real, m32: real, m33: real, p: real)
    requires p == m10 * AdjugateOf(m00, m01, m02, m03, m10, m11, m12, m13, m20, m21, m22, m23, m30, m31, m32, m33)[2] + m11 * AdjugateOf(m00, m01, m02, m03, m10, m11, m12, m13, m20, m21, m22, m23, m30, m31, m32, m33)[6] + m12 * AdjugateOf(m00, m01, m02, m03, m10, m11, m12, m13, m20, m21, m22, m23, m30, m31, m32, m33)[10] + m13 * AdjugateOf(m00, m01, m02, m03, m10, m11, m12, m13, m20, m21, m22, m23, m30, m31, m32, m33)[14]
    ensures p == 0.0
  {
    AdjugateOfEntries(m00, m01, m02, m03, m10, m11, m12, m13, m20, m21, m22, m23, m30, m31, m32, m33);
    var adj := AdjugateOf(m00, m01, m02, m03, m10, m11, m12, m13, m20, m21, m22, m23, m30, m31, m32, m33);
    AdjugateEntry12(m00, m01, m02, m03, m10, m11, m12, m13, m20, m21, m22, m23, m30, m31, m32, m33,
                     adj[2], adj[6], adj[10], adj[14], p);
  }

  lemma AdjugateEntryOf13(m00: real, m01: real, m02: real, m03: real, m10: real, m11: real, m12: real, m13: real, m20: real, m21: real, m22: real, m23: real, m30: real, m31: real, m32: real, m33: real, p: real)
    requires p == m10 * AdjugateOf(m00, m01, m02, m03, m10, m11, m12, m13, m20, m21, m22, m23, m30, m31, m32, m33)[3] + m11 * AdjugateOf(m00, m01, m02, m03, m10, m11, m12, m13, m20, m21, m22, m23, m30, m31, m32, m33)[7] + m12 * AdjugateOf(m00, m01, m02, m03, m10, m11, m12, m13, m20, m21, m22, m23, m30, m31, m32, m33)[11] + m13 * AdjugateOf(m00, m01, m02, m03, m10, m11, m12, m13, m20, m21, m22, m23, m30, m31, m32, m33)[15]
    ensures p == 0.0
  {
    AdjugateOfEntries(m00, m01, m02, m03, m10, m11, m12, m13, m20, m21, m22, m23, m30, m31, m32, m33);
    var adj := AdjugateOf(m00, m01, m02, m03, m10, m11, m12, m13, m20, m21, m22, m23, m30, m31, m32, m33);
    AdjugateEntry13(m00, m01, m02, m03, m10, m11, m12, m13, m20, m21, m22, m23, m30, m31, m32, m33,
                     adj[3], adj[7], adj[11], adj[15], p);
  }

  lemma AdjugateEntryOf20(m00: real, m01: real, m02: real, m03: real, m10: real, m11: real, m12: real, m13: real, m20: real, m21: real, m22: real, m23: real, m30: real, m31: real, m32: real, m33: real, p: real)
    requires p == m20 * AdjugateOf(m00, m01, m02, m03, m10, m11, m12, m13, m20, m21, m22, m23, m30, m31, m32, m33)[0] + m21 * AdjugateOf(m00, m01, m02, m03, m10, m11, m12, m13, m20, m21, m22, m23, m30, m31, m32, m33)[4] + m22 * AdjugateOf(m00, m01, m02, m03, m10, m11, m12, m13, m20, m21, m22, m23, m30, m31, m32, m33)[8] + m23 * AdjugateOf(m00, m01, m02, m03, m10, m11, m12, m13, m20, m21, m22, m23, m30, m31, m32, m33)[12]
    ensures p == 0.0
  {
    AdjugateOfEntries(m00, m01, m02, m03, m10, m11, m12, m13, m20, m21, m22, m23, m30, m31, m32, m33);
    var adj := AdjugateOf(m00, m01, m02, m03, m10, m11, m12, m13, m20, m21, m22, m23, m30, m31, m32, m33);
    AdjugateEntry20(m00, m01, m02, m03, m10, m11, m12, m13, m20, m21, m22, m23, m30, m31, m32, m33,
                     adj[0], adj[4], adj[8], adj[12], p);
  }

  lemma AdjugateEntryOf21(m00: real, m01: real, m02: real, m03: real, m10: real, m11: real, m12: real, m13: real, m20: real, m21: real, m22: real, m23: real, m30: real, m31: real, m32: real, m33: real, p: real)
    requires p == m20 * AdjugateOf(m00, m01, m02, m03, m10, m11, m12, m13, m20, m21, m22, m23, m30, m31, m32, m33)[1] + m21 * AdjugateOf(m00, m01, m02, m03, m10, m11, m12, m13, m20, m21, m22, m23, m30, m31, m32, m33)[5] + m22 * AdjugateOf(m00, m01, m02, m03, m10, m11, m12, m13, m20, m21, m22, m23, m30, m31, m32, m33)[9] + m23 * AdjugateOf(m00, m01, m02, m03, m10, m11, m12, m13, m20, m21, m22, m23, m30, m31, m32, m33)[13]
    ensures p == 0.0
  {
    AdjugateOfEntries(m00, m01, m02, m03, m10, m11, m12, m13, m20, m21, m22, m23, m30, m31, m32, m33);
    var adj := AdjugateOf(m00, m01, m02, m03, m10, m11, m12, m13, m20, m21, m22, m23, m30, m31, m32, m33);
    AdjugateEntry21(m00, m01, m02, m03, m10, m11, m12, m13, m20, m21, m22, m23, m30, m31, m32, m33,
                     adj[1], adj[5], adj[9], adj[13], p);
  }

  lemma AdjugateEntryOf22(m00: real, m01: real, m02: real, m03: real, m10: real, m11: real, m12: real, m13: real, m20: real, m21: real, m22: real, m23: real, m30: real, m31: real, m32: real, m33: real, p: real)
    requires p == m20 * AdjugateOf(m00, m01, m02, m03, m10, m11, m12, m13, m20, m21, m22, m23, m30, m31, m32, m33)[2] + m21 * AdjugateOf(m00, m01, m02, m03, m10, m11, m12, m13, m20, m21, m22, m23, m30, m31, m32, m33)[6] + m22 * AdjugateOf(m00, m01, m02, m03, m10, m11, m12, m13, m20, m21, m22, m23, m30, m31, m32, m33)[10] + m23 * AdjugateOf(m00, m01, m02, m03, m10, m11, m12, m13, m20, m21, m22, m23, m30, m31, m32, m33)[14]
    ensures p == DetOf(m00, m01, m02, m03, m10, m11, m12, m13, m20, m21, m22, m23, m30, m31, m32, m33)
  {
    AdjugateOfEntries(m00, m01, m02, m03, m10, m11, m12, m13, m20, m21, m22, m23, m30, m31, m32, m33);
    var adj := AdjugateOf(m00, m01, m02, m03, m10, m11, m12, m13, m20, m21, m22, m23, m30, m31, m32, m33);
    AdjugateEntry22(m00, m01, m02, m03, m10, m11, m12, m13, m20, m21, m22, m23, m30, m31, m32, m33,
                     adj[2], adj[6], adj[10], adj[14], DetOf(m00, m01, m02, m03, m10, m11, m12, m13, m20, m21, m22, m23, m30, m31, m32, m33), p);
  }

  lemma AdjugateEntryOf23(m00: real, m01: real, m02: real, m03: real, m10: real, m11: real, m12: real, m13: real, m20: real, m21: real, m22: real, m23: real, m30: real, m31: real, m32: real, m33: real, p: real)
    requires p == m20 * AdjugateOf(m00, m01, m02, m03, m10, m11, m12, m13, m20, m21, m22, m23, m30, m31, m32, m33)[3] + m21 * AdjugateOf(m00, m01, m02, m03, m10, m11, m12, m13, m20, m21, m22, m23, m30, m31, m32, m33)[7] + m22 * AdjugateOf(m00, m01, m02, m03, m10, m11, m12, m13, m20, m21, m22, m23, m30, m31, m32, m33)[11] + m23 * AdjugateOf(m00, m01, m02, m03, m10, m11, m12, m13, m20, m21, m22, m23, m30, m31, m32, m33)[15]
    ensures p == 0.0
  {
    AdjugateOfEntries(m00, m01, m02, m03, m10, m11, m12, m13, m20, m21, m22, m23, m30, m31, m32, m33);
    var adj := AdjugateOf(m00, m01, m02, m03, m10, m11, m12, m13, m20, m21, m22, m23, m30, m31, m32, m33);
    AdjugateEntry23(m00, m01, m02, m03, m10, m11, m12, m13, m20, m21, m22, m23, m30, m31, m32, m33,
                     adj[3], adj[7], adj[11], adj[15], p);
  }

  lemma AdjugateEntryOf30(m00: real, m01: real, m02: real, m03: real, m10: real, m11: real, m12: real, m13: real, m20: real, m21: real, m22: real, m23: real, m30: real, m31: real, m32: real, m33: real, p: real)
    requires p == m30 * AdjugateOf(m00, m01, m02, m03, m10, m11, m12, m13, m20, m21, m22, m23, m30, m31, m32, m33)[0] + m31 * AdjugateOf(m00, m01, m02, m03, m10, m11, m12, m13, m20, m21, m22, m23, m30, m31, m32, m33)[4] + m32 * AdjugateOf(m00, m01, m02, m03, m10, m11, m12, m13, m20, m21, m22, m23, m30, m31, m32, m33)[8] + m33 * AdjugateOf(m00, m01, m02, m03, m10, m11, m12, m13, m20, m21, m22, m23, m30, m31, m32, m33)[12]
    ensures p == 0.0
  {
    AdjugateOfEntries(m00, m01, m02, m03, m10, m11, m12, m13, m20, m21, m22, m23, m30, m31, m32, m33);
    var adj := AdjugateOf(m00, m01, m02, m03, m10, m11, m12, m13, m20, m21, m22, m23, m30, m31, m32, m33);
    AdjugateEntry30(m00, m01, m02, m03, m10, m11, m12, m13, m20, m21, m22, m23, m30, m31, m32, m33,
                     adj[0], adj[4], adj[8], adj[12], p);
  }

  lemma AdjugateEntryOf31(m00: real, m01: real, m02: real, m03: real, m10: real, m11: real, m12: real, m13: real, m20: real, m21: real, m22: real, m23: real, m30: real, m31: real, m32: real, m33: real, p: real)
    requires p == m30 * AdjugateOf(m00, m01, m02, m03, m10, m11, m12, m13, m20, m21, m22, m23, m30, m31, m32, m33)[1] + m31 * AdjugateOf(m00, m01, m02, m03, m10, m11, m12, m13, m20, m21, m22, m23, m30, m31, m32, m33)[5] + m32 * AdjugateOf(m00, m01, m02, m03, m10, m11, m12, m13, m20, m21, m22, m23, m30, m31, m32, m33)[9] + m33 * AdjugateOf(m00, m01, m02, m03, m10, m11, m12, m13, m20, m21, m22, m23, m30, m31, m32, m33)[13]
    ensures p == 0.0
  {
    AdjugateOfEntries(m00, m01, m02, m03, m10, m11, m12, m13, m20, m21, m22, m23, m30, m31, m32, m33);
    var adj := AdjugateOf(m00, m01, m02, m03, m10, m11, m12, m13, m20, m21, m22, m23, m30, m31, m32, m33);
    AdjugateEntry31(m00, m01, m02, m03, m10, m11, m12, m13, m20, m21, m22, m23, m30, m31, m32, m33,
                     adj[1], adj[5], adj[9], adj[13], p);
  }

  lemma AdjugateEntryOf32(m00: real, m01: real, m02: real, m03: real, m10: real, m11: real, m12: real, m13: real, m20: real, m21: real, m22: real, m23: real, m30: real, m31: real, m32: real, m33: real, p: real)
    requires p == m30 * AdjugateOf(m00, m01, m02, m03, m10, m11, m12, m13, m20, m21, m22, m23, m30, m31, m32, m33)[2] + m31 * AdjugateOf(m00, m01, m02, m03, m10, m11, m12, m13, m20, m21, m22, m23, m30, m31, m32, m33)[6] + m32 * AdjugateOf(m00, m01, m02, m03, m10, m11, m12, m13, m20, m21, m22, m23, m30, m31, m32, m33)[10] + m33 * AdjugateOf(m00, m01, m02, m03, m10, m11, m12, m13, m20, m21, m22, m23, m30, m31, m32, m33)[14]
    ensures p == 0.0
  {
    AdjugateOfEntries(m00, m01, m02, m03, m10, m11, m12, m13, m20, m21, m22, m23, m30, m31, m32, m33);
    var adj := AdjugateOf(m00, m01, m02, m03, m10, m11, m12, m13, m20, m21, m22, m23, m30, m31, m32, m33);
    AdjugateEntry32(m00, m01, m02, m03, m10, m11, m12, m13, m20, m21, m22, m23, m30, m31, m32, m33,
                     adj[2], adj[6], adj[10], adj[14], p);
  }

  lemma AdjugateEntryOf33(m00: real, m01: real, m02: real, m03: real, m10: real, m11: real, m12: real, m13: real, m20: real, m21: real, m22: real, m23: real, m30: real, m31: real, m32: real, m33: real, p: real)
    requires p == m30 * AdjugateOf(m00, m01, m02, m03, m10, m11, m12, m13, m20, m21, m22, m23, m30, m31, m32, m33)[3] + m31 * AdjugateOf(m00, m01, m02, m03, m10, m11, m12, m13, m20, m21, m22, m23, m30, m31, m32, m33)[7] + m32 * AdjugateOf(m00, m01, m02, m03, m10, m11, m12, m13, m20, m21, m22, m23, m30, m31, m32, m33)[11] + m33 * AdjugateOf(m00, m01, m02, m03, m10, m11, m12, m13, m20, m21, m22, m23, m30, m31, m32, m33)[15]
    ensures p == DetOf(m00, m01, m02, m03, m10, m11, m12, m13, m20, m21, m22, m23, m30, m31, m32, m33)
  {
    AdjugateOfEntries(m00, m01, m02, m03, m10, m11, m12, m13, m20, m21, m22, m23, m30, m31, m32, m33);
    var adj := AdjugateOf(m00, m01, m02, m03, m10, m11, m12, m13, m20, m21, m22, m23, m30, m31, m32, m33);
    AdjugateEntry33(m00, m01, m02, m03, m10, m11, m12, m13, m20, m21, m22, m23, m30, m31, m32, m33,
                     adj[3], adj[7], adj[11], adj[15], DetOf(m00, m01, m02, m03, m10, m11, m12, m13, m20, m21, m22, m23, m30, m31, m32, m33), p);
  }

  lemma AdjugateProduct00(a: Entries)
    ensures Product(a, Adjugate(a))[0] == Det(a)
  {
    var b := Adjugate(a);
    assert Product(a, b)[0] == a[0] * b[0] + a[1] * b[4] + a[2] * b[8] + a[3] * b[12];
    AdjugateEntryOf00(a[0], a[1], a[2], a[3], a[4], a[5], a[6], a[7], a[8], a[9], a[10], a[11], a[12], a[13], a[14], a[15], Product(a, b)[0]);
  }

  lemma AdjugateProduct01(a: Entries)
    ensures Product(a, Adjugate(a))[1] == 0.0
  {
    var b := Adjugate(a);
    assert Product(a, b)[1] == a[0] * b[1] + a[1] * b[5] + a[2] * b[9] + a[3] * b[13];
    AdjugateEntryOf01(a[0], a[1], a[2], a[3], a[4], a[5], a[6], a[7], a[8], a[9], a[10], a[11], a[12], a[13], a[14], a[15], Product(a, b)[1]);
  }

  lemma AdjugateProduct02(a: Entries)
    ensures Product(a, Adjugate(a))[2] == 0.0
  {
    var b := Adjugate(a);
    assert Product(a, b)[2] == a[0] * b[2] + a[1] * b[6] + a[2] * b[10] + a[3] * b[14];
    AdjugateEntryOf02(a[0], a[1], a[2], a[3], a[4], a[5], a[6], a[7], a[8], a[9], a[10], a[11], a[12], a[13], a[14], a[15], Product(a, b)[2]);
  }

  lemma AdjugateProduct03(a: Entries)
    ensures Product(a, Adjugate(a))[3] == 0.0
  {
    var b := Adjugate(a);
    assert Product(a, b)[3] == a[0] * b[3] + a[1] * b[7] + a[2] * b[11] + a[3] * b[15];
    AdjugateEntryOf03(a[0], a[1], a[2], a[3], a[4], a[5], a[6], a[7], a[8], a[9], a[10], a[11], a[12], a[13], a[14], a[15], Product(a, b)[3]);
  }

  lemma AdjugateProduct10(a: Entries)
    ensures Product(a, Adjugate(a))[4] == 0.0
  {
    var b := Adjugate(a);
    assert Product(a, b)[4] == a[4] * b[0] + a[5] * b[4] + a[6] * b[8] + a[7] * b[12];
    AdjugateEntryOf10(a[0], a[1], a[2], a[3], a[4], a[5], a[6], a[7], a[8], a[9], a[10], a[11], a[12], a[13], a[14], a[15], Product(a, b)[4]);
  }

  lemma AdjugateProduct11(a: Entries)
    ensures Product(a, Adjugate(a))[5] == Det(a)
  {
    var b := Adjugate(a);
    assert Product(a, b)[5] == a[4] * b[1] + a[5] * b[5] + a[6] * b[9] + a[7] * b[13];
    AdjugateEntryOf11(a[0], a[1], a[2], a[3], a[4], a[5], a[6], a[7], a[8], a[9], a[10], a[11], a[12], a[13], a[14], a[15], Product(a, b)[5]);
  }

  lemma AdjugateProduct12(a: Entries)
    ensures Product(a, Adjugate(a))[6] == 0.0
  {
    var b := Adjugate(a);
    assert Product(a, b)[6] == a[4] * b[2] + a[5] * b[6] + a[6] * b[10] + a[7] * b[14];
    AdjugateEntryOf12(a[0], a[1], a[2], a[3], a[4], a[5], a[6], a[7], a[8], a[9], a[10], a[11], a[12], a[13], a[14], a[15], Product(a, b)[6]);
  }

  lemma AdjugateProduct13(a: Entries)
    ensures Product(a, Adjugate(a))[7] == 0.0
  {
    var b := Adjugate(a);
    assert Product(a, b)[7] == a[4] * b[3] + a[5] * b[7] + a[6] * b[11] + a[7] * b[15];
    AdjugateEntryOf13(a[0], a[1], a[2], a[3], a[4], a[5], a[6], a[7], a[8], a[9], a[10], a[11], a[12], a[13], a[14], a[15], Product(a, b)[7]);
  }

  lemma AdjugateProduct20(a: Entries)
    ensures Product(a, Adjugate(a))[8] == 0.0
  {
    var b := Adjugate(a);
    assert Product(a, b)[8] == a[8] * b[0] + a[9] * b[4] + a[10] * b[8] + a[11] * b[12];
    AdjugateEntryOf20(a[0], a[1], a[2], a[3], a[4], a[5], a[6], a[7], a[8], a[9], a[10], a[11], a[12], a[13], a[14], a[15], Product(a, b)[8]);
  }

  lemma AdjugateProduct21(a: Entries)
    ensures Product(a, Adjugate(a))[9] == 0.0
  {
    var b := Adjugate(a);
    assert Product(a, b)[9] == a[8] * b[1] + a[9] * b[5] + a[10] * b[9] + a[11] * b[13];
    AdjugateEntryOf21(a[0], a[1], a[2], a[3], a[4], a[5], a[6], a[7], a[8], a[9], a[10], a[11], a[12], a[13], a[14], a[15], Product(a, b)[9]);
  }

  lemma AdjugateProduct22(a: Entries)
    ensures Product(a, Adjugate(a))[10] == Det(a)
  {
    var b := Adjugate(a);
    assert Product(a, b)[10] == a[8] * b[2] + a[9] * b[6] + a[10] * b[10] + a[11] * b[14];
    AdjugateEntryOf22(a[0], a[1], a[2], a[3], a[4], a[5], a[6], a[7], a[8], a[9], a[10], a[11], a[12], a[13], a[14], a[15], Product(a, b)[10]);
  }

  lemma AdjugateProduct23(a: Entries)
    ensures Product(a, Adjugate(a))[11] == 0.0
  {
    var b := Adjugate(a);
    assert Product(a, b)[11] == a[8] * b[3] + a[9] * b[7] + a[10] * b[11] + a[11] * b[15];
    AdjugateEntryOf23(a[0], a[1], a[2], a[3], a[4], a[5], a[6], a[7], a[8], a[9], a[10], a[11], a[12], a[13], a[14], a[15], Product(a, b)[11]);
  }

  lemma AdjugateProduct30(a: Entries)
    ensures Product(a, Adjugate(a))[12] == 0.0
  {
    var b := Adjugate(a);
    assert Product(a, b)[12] == a[12] * b[0] + a[13] * b[4] + a[14] * b[8] + a[15] * b[12];
    AdjugateEntryOf30(a[0], a[1], a[2], a[3], a[4], a[5], a[6], a[7], a[8], a[9], a[10], a[11], a[12], a[13], a[14], a[15], Product(a, b)[12]);
  }

  lemma AdjugateProduct31(a: Entries)
    ensures Product(a, Adjugate(a))[13] == 0.0
  {
    var b := Adjugate(a);
    assert Product(a, b)[13] == a[12] * b[1] + a[13] * b[5] + a[14] * b[9] + a[15] * b[13];
    AdjugateEntryOf31(a[0], a[1], a[2], a[3], a[4], a[5], a[6], a[7], a[8], a[9], a[10], a[11], a[12], a[13], a[14], a[15], Product(a, b)[13]);
  }

  lemma AdjugateProduct32(a: Entries)
    ensures Product(a, Adjugate(a))[14] == 0.0
  {
    var b := Adjugate(a);
    assert Product(a, b)[14] == a[12] * b[2] + a[13] * b[6] + a[14] * b[10] + a[15] * b[14];
    AdjugateEntryOf32(a[0], a[1], a[2], a[3], a[4], a[5], a[6], a[7], a[8], a[9], a[10], a[11], a[12], a[13], a[14], a[15], Product(a, b)[14]);
  }

  lemma AdjugateProduct33(a: Entries)
    ensures Product(a, Adjugate(a))[15] == Det(a)
  {
    var b := Adjugate(a);
    assert Product(a, b)[15] == a[12] * b[3] + a[13] * b[7] + a[14] * b[11] + a[15] * b[15];
    AdjugateEntryOf33(a[0], a[1], a[2], a[3], a[4], a[5], a[6], a[7], a[8], a[9], a[10], a[11], a[12], a[13], a[14], a[15], Product(a, b)[15]);
  }


  /** `a * Adjugate(a)` is the determinant times the identity. */
  lemma {:induction false} AdjugateIdentity(a: Entries)
    ensures Product(a, Adjugate(a)) == Diagonal(Det(a))
  {
    AdjugateProduct00(a); AdjugateProduct01(a); AdjugateProduct02(a); AdjugateProduct03(a);
    AdjugateProduct10(a); AdjugateProduct11(a); AdjugateProduct12(a); AdjugateProduct13(a);
    AdjugateProduct20(a); AdjugateProduct21(a); AdjugateProduct22(a); AdjugateProduct23(a);
    AdjugateProduct30(a); AdjugateProduct31(a); AdjugateProduct32(a); AdjugateProduct33(a);
    assert forall i | 0 <= i < 16 :: Product(a, Adjugate(a))[i] == Diagonal(Det(a))[i];
  }

  /** Scaling the right operand scales the product. */
  lemma {:induction false} ProductScaledRight(a: Entries, b: Entries, s: real)
    ensures Product(a, Scaled(b, s)) == Scaled(Product(a, b), s)
  {
    var lhs, rhs := Product(a, Scaled(b, s)), Scaled(Product(a, b), s);
    forall i | 0 <= i < 16 ensures lhs[i] == rhs[i] {
      ProductScaledRightAt(a, b, s, i);
    }
    assert lhs == rhs;
  }

  lemma {:induction false} ProductScaledRightAt(a: Entries, b: Entries, s: real, i: nat)
    requires i < 16
    ensures Product(a, Scaled(b, s))[i] == Scaled(Product(a, b), s)[i]
  {
    var row, col := i / 4, i % 4;
    var p := Product(a, b);
    assert p[i] == Dot(a, b, row, col);
    assert Scaled(p, s)[i] == p[i] * s;
    assert Product(a, Scaled(b, s))[i] == Dot(a, Scaled(b, s), row, col);
    DotScaledRight(a, b, s, row, col);
  }

  lemma {:induction false} DotScaledRight(a: Entries, b: Entries, s: real, row: nat, col: nat)
    requires row < 4 && col < 4
    ensures Dot(a, Scaled(b, s), row, col) == Dot(a, b, row, col) * s
  {
    var c := Scaled(b, s);
    assert c[col] == b[col] * s && c[4 + col] == b[4 + col] * s;
    assert c[8 + col] == b[8 + col] * s && c[12 + col] == b[12 + col] * s;
    DistributeScale(a[row * 4], a[row * 4 + 1], a[row * 4 + 2], a[row * 4 + 3],
                    b[col], b[4 + col], b[8 + col], b[12 + col],
                    c[col], c[4 + col], c[8 + col], c[12 + col], s);
  }

  lemma DistributeScale(x0: real, x1: real, x2: real, x3: real, y0: real, y1: real, y2: real, y3: real,
                        z0: real, z1: real, z2: real, z3: real, s: real)
    requires z0 == y0 * s && z1 == y1 * s && z2 == y2 * s && z3 == y3 * s
    ensures x0 * z0 + x1 * z1 + x2 * z2 + x3 * z3 == (x0 * y0 + x1 * y1 + x2 * y2 + x3 * y3) * s
  {
  }

  /** The corrected `Inverse` is a right inverse of every matrix with a nonzero determinant,
      and yields the zero matrix for a singular one. */
  lemma {:induction false} InverseIsRightInverse(a: Entries)
    ensures Det(a) != 0.0 ==> Product(a, Inverse(a)) == Identity()
    ensures Det(a) == 0.0 ==> Inverse(a) == Diagonal(0.0)
  {
    var d := Det(a);
    if d != 0.0 {
      AdjugateIdentity(a);
      DividedByDiagonal(a, Adjugate(a), d);
    }
  }

  /** If `a * b` is `d` times the identity with `d` nonzero, then `b / d` is a right inverse of `a`. */
  lemma {:induction false} DividedByDiagonal(a: Entries, b: Entries, d: real)
    requires d != 0.0
    requires Product(a, b) == Diagonal(d)
    ensures Product(a, Scaled(b, 1.0 / d)) == Identity()
  {
    ProductScaledRight(a, b, 1.0 / d);
    assert d * (1.0 / d) == 1.0;
    assert forall i | 0 <= i < 16 :: Scaled(Diagonal(d), 1.0 / d)[i] == Identity()[i];
  }

  /** The code as written: for `2 * I` (determinant 16) `inverse()` yields `8 * I`, the adjugate,
      instead of `0.5 * I`, so the product with the original is `16 * I` and not the identity. */
  lemma {:induction false} InverseAsWrittenCounterexample()
    ensures Det(Diagonal(2.0)) == 16.0
    ensures InverseAsWritten(Diagonal(2.0)) == Diagonal(8.0)
    ensures Inverse(Diagonal(2.0)) == Diagonal(0.5)
    ensures Product(Diagonal(2.0), InverseAsWritten(Diagonal(2.0))) != Identity()
  {
    var a := Diagonal(2.0);
    assert Det(a) == 16.0;
    assert Adjugate(a) == Diagonal(8.0);
    assert Scaled(Adjugate(a), 1.0 / 16.0) == Diagonal(0.5);
    ProductAt(a, Diagonal(8.0), 0, 0);
    assert At(Product(a, Diagonal(8.0)), 0, 0) == 16.0;
  }

  /** `inverse()` as written agrees with the corrected `Inverse` exactly when the determinant is 0 or 1. */
  lemma {:induction false} InverseAsWrittenAgreement(a: Entries)
    ensures InverseAsWritten(a) == Inverse(a) <==> (Det(a) == 0.0 || Det(a) == 1.0)
  {
    var d := Det(a);
    if d == 1.0 {
      assert forall i | 0 <= i < 16 :: Scaled(Adjugate(a), 1.0 / d)[i] == Adjugate(a)[i];
    } else if d != 0.0 && InverseAsWritten(a) == Inverse(a) {
      InverseIsRightInverse(a);
      AdjugateIdentity(a);
      assert false;
    }
  }
}
