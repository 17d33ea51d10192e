/**
 * Arithmetic in GF(2^8) as FIPS-197 section 4 defines it, on bytes.
 *
 * Addition is the byte XOR (the evaluation key's `unchecked_bitxor` on
 * encrypted bytes); multiplication by {02} is `XTime`, and multiplication by
 * the other constants AES needs is built from it.  The lemmas show these
 * maps are GF(2)-linear and that the InvMixColumns matrix undoes the
 * MixColumns matrix on every column.
 */
module Gf {
  /** Addition in GF(2^8): the XOR of two bytes. */
  function Xor(a: bv8, b: bv8): bv8
  {
    a ^ b
  }

  /**
   * Multiplication by {02}: shift left, and reduce by the AES polynomial
   * m(x) = x^8 + x^4 + x^3 + x + 1 (the byte {1b}) when the top bit was set.
   */
  function XTime(b: bv8): bv8
  {
    (b << 1) ^ (if b >= 0x80 then 0x1b else 0)
  }

  /** Multiplication by {02}. */
  function Mul2(b: bv8): bv8
  {
    XTime(b)
  }

  /** Multiplication by {03} = {02} + {01}. */
  function Mul3(b: bv8): bv8
  {
    Xor(XTime(b), b)
  }

  /** Multiplication by {09} = {08} + {01}. */
  function Mul9(b: bv8): bv8
  {
    Xor(XTime(XTime(XTime(b))), b)
  }

  /** Multiplication by {0b} = {08} + {02} + {01}. */
  function Mul11(b: bv8): bv8
  {
    Xor(Xor(XTime(XTime(XTime(b))), XTime(b)), b)
  }

  /** Multiplication by {0d} = {08} + {04} + {01}. */
  function Mul13(b: bv8): bv8
  {
    Xor(Xor(XTime(XTime(XTime(b))), XTime(XTime(b))), b)
  }

  /** Multiplication by {0e} = {08} + {04} + {02}. */
  function Mul14(b: bv8): bv8
  {
    Xor(Xor(XTime(XTime(XTime(b))), XTime(XTime(b))), XTime(b))
  }

  /** MixColumns on one column (FIPS-197 equation 5.6). */
  function MixColumn(c: seq<bv8>): (r: seq<bv8>)
    requires |c| == 4
    ensures |r| == 4
  {
    [Xor(Xor(Xor(Mul2(c[0]), Mul3(c[1])), c[2]), c[3]),
     Xor(Xor(Xor(c[0], Mul2(c[1])), Mul3(c[2])), c[3]),
     Xor(Xor(Xor(c[0], c[1]), Mul2(c[2])), Mul3(c[3])),
     Xor(Xor(Xor(Mul3(c[0]), c[1]), c[2]), Mul2(c[3]))]
  }

  /** InvMixColumns on one column (FIPS-197 equation 5.10). */
  function InvMixColumn(c: seq<bv8>): (r: seq<bv8>)
    requires |c| == 4
    ensures |r| == 4
  {
    [Xor(Xor(Xor(Mul14(c[0]), Mul11(c[1])), Mul13(c[2])), Mul9(c[3])),
     Xor(Xor(Xor(Mul9(c[0]), Mul14(c[1])), Mul11(c[2])), Mul13(c[3])),
     Xor(Xor(Xor(Mul13(c[0]), Mul9(c[1])), Mul14(c[2])), Mul11(c[3])),
     Xor(Xor(Xor(Mul11(c[0]), Mul13(c[1])), Mul9(c[2])), Mul14(c[3]))]
  }

  /** The byte-wise XOR of two columns. */
  function XorColumn(v: seq<bv8>, w: seq<bv8>): (r: seq<bv8>)
    requires |v| == 4 && |w| == 4
    ensures |r| == 4
  {
    [Xor(v[0], w[0]), Xor(v[1], w[1]), Xor(v[2], w[2]), Xor(v[3], w[3])]
  }

  /** The reduction step written with a mask test: the top bit decides whether {1b} is added. */
  lemma XTimeReduces(b: bv8)
    ensures b & 0x80 == 0 ==> XTime(b) == b << 1
    ensures b & 0x80 != 0 ==> XTime(b) == Xor(b << 1, 0x1b)
  {
  }

  /** Multiplication by {02} distributes over addition. */
  lemma XTimeLinear(x: bv8, y: bv8)
    ensures XTime(Xor(x, y)) == Xor(XTime(x), XTime(y))
  {
    assert (x ^ y) >= 0x80 <==> (x >= 0x80) != (y >= 0x80);
  }

  // Regrouping sums: XOR is associative and commutative.

  lemma Regroup2(p0: bv8, p1: bv8, q0: bv8, q1: bv8)
    ensures Xor(Xor(p0, q0), Xor(p1, q1)) == Xor(Xor(p0, p1), Xor(q0, q1))
  {
    assert (p0 ^ q0) ^ (p1 ^ q1) == (p0 ^ p1) ^ (q0 ^ q1);
  }

  lemma Regroup3(p0: bv8, p1: bv8, p2: bv8, q0: bv8, q1: bv8, q2: bv8)
    ensures Xor(Xor(Xor(p0, q0), Xor(p1, q1)), Xor(p2, q2)) == Xor(Xor(Xor(p0, p1), p2), Xor(Xor(q0, q1), q2))
  {
    Regroup2(p0, p1, q0, q1);
    Regroup2(Xor(p0, p1), p2, Xor(q0, q1), q2);
  }

  lemma Regroup4(p0: bv8, p1: bv8, p2: bv8, p3: bv8, q0: bv8, q1: bv8, q2: bv8, q3: bv8)
    ensures Xor(Xor(Xor(Xor(p0, q0), Xor(p1, q1)), Xor(p2, q2)), Xor(p3, q3))
         == Xor(Xor(Xor(Xor(p0, p1), p2), p3), Xor(Xor(Xor(q0, q1), q2), q3))
  {
    Regroup3(p0, p1, p2, q0, q1, q2);
    Regroup2(Xor(Xor(p0, p1), p2), p3, Xor(Xor(q0, q1), q2), q3);
  }

  /** Multiplication by {02}, {04} and {08} distributes over addition. */
  lemma PowersLinear(x: bv8, y: bv8)
    ensures XTime(Xor(x, y)) == Xor(XTime(x), XTime(y))
    ensures XTime(XTime(Xor(x, y))) == Xor(XTime(XTime(x)), XTime(XTime(y)))
    ensures XTime(XTime(XTime(Xor(x, y)))) == Xor(XTime(XTime(XTime(x))), XTime(XTime(XTime(y))))
  {
    XTimeLinear(x, y);
    XTimeLinear(XTime(x), XTime(y));
    XTimeLinear(XTime(XTime(x)), XTime(XTime(y)));
  }

  /** Multiplication by each constant distributes over addition. */
  lemma MulLinear(x: bv8, y: bv8)
    ensures Mul2(Xor(x, y)) == Xor(Mul2(x), Mul2(y))
    ensures Mul3(Xor(x, y)) == Xor(Mul3(x), Mul3(y))
    ensures Mul9(Xor(x, y)) == Xor(Mul9(x), Mul9(y))
    ensures Mul11(Xor(x, y)) == Xor(Mul11(x), Mul11(y))
    ensures Mul13(Xor(x, y)) == Xor(Mul13(x), Mul13(y))
    ensures Mul14(Xor(x, y)) == Xor(Mul14(x), Mul14(y))
  {
    PowersLinear(x, y);
    var x1, x2, x3 := XTime(x), XTime(XTime(x)), XTime(XTime(XTime(x)));
    var y1, y2, y3 := XTime(y), XTime(XTime(y)), XTime(XTime(XTime(y)));
    Regroup2(x1, x, y1, y);
    Regroup2(x3, x, y3, y);
    Regroup3(x3, x1, x, y3, y1, y);
    Regroup3(x3, x2, x, y3, y2, y);
    Regroup3(x3, x2, x1, y3, y2, y1);
  }

  /** MixColumns is GF(2)-linear: mixing a sum of columns is the sum of the mixed columns. */
  lemma MixColumnLinear(v: seq<bv8>, w: seq<bv8>)
    requires |v| == 4 && |w| == 4
    ensures MixColumn(XorColumn(v, w)) == XorColumn(MixColumn(v), MixColumn(w))
  {
    MulLinear(v[0], w[0]);
    MulLinear(v[1], w[1]);
    MulLinear(v[2], w[2]);
    MulLinear(v[3], w[3]);
    Regroup4(Mul2(v[0]), Mul3(v[1]), v[2], v[3], Mul2(w[0]), Mul3(w[1]), w[2], w[3]);
    Regroup4(v[0], Mul2(v[1]), Mul3(v[2]), v[3], w[0], Mul2(w[1]), Mul3(w[2]), w[3]);
    Regroup4(v[0], v[1], Mul2(v[2]), Mul3(v[3]), w[0], w[1], Mul2(w[2]), Mul3(w[3]));
    Regroup4(Mul3(v[0]), v[1], v[2], Mul2(v[3]), Mul3(w[0]), w[1], w[2], Mul2(w[3]));
  }

  /** InvMixColumns is GF(2)-linear. */
  lemma InvMixColumnLinear(v: seq<bv8>, w: seq<bv8>)
    requires |v| == 4 && |w| == 4
    ensures InvMixColumn(XorColumn(v, w)) == XorColumn(InvMixColumn(v), InvMixColumn(w))
  {
    MulLinear(v[0], w[0]);
    MulLinear(v[1], w[1]);
    MulLinear(v[2], w[2]);
    MulLinear(v[3], w[3]);
    Regroup4(Mul14(v[0]), Mul11(v[1]), Mul13(v[2]), Mul9(v[3]), Mul14(w[0]), Mul11(w[1]), Mul13(w[2]), Mul9(w[3]));
    Regroup4(Mul9(v[0]), Mul14(v[1]), Mul11(v[2]), Mul13(v[3]), Mul9(w[0]), Mul14(w[1]), Mul11(w[2]), Mul13(w[3]));
    Regroup4(Mul13(v[0]), Mul9(v[1]), Mul14(v[2]), Mul11(v[3]), Mul13(w[0]), Mul9(w[1]), Mul14(w[2]), Mul11(w[3]));
    Regroup4(Mul11(v[0]), Mul13(v[1]), Mul9(v[2]), Mul14(v[3]), Mul11(w[0]), Mul13(w[1]), Mul9(w[2]), Mul14(w[3]));
  }

  /** Mixing the zero column gives the zero column. */
  lemma MixColumnZero()
    ensures MixColumn([0, 0, 0, 0]) == [0, 0, 0, 0]
  {
  }

  /** A column is the sum of its four bytes placed in otherwise-zero columns. */
  lemma Decompose(c: seq<bv8>)
    requires |c| == 4
    ensures c == XorColumn(XorColumn(XorColumn([c[0], 0, 0, 0], [0, c[1], 0, 0]), [0, 0, c[2], 0]), [0, 0, 0, c[3]])
  {
    var e01 := XorColumn([c[0], 0, 0, 0], [0, c[1], 0, 0]);
    assert e01 == [c[0], c[1], 0, 0];
    var e012 := XorColumn(e01, [0, 0, c[2], 0]);
    assert e012 == [c[0], c[1], c[2], 0];
  }

  // The two matrices are inverse on the columns with a single nonzero byte.

  lemma Unit0(a: bv8)
    ensures InvMixColumn(MixColumn([a, 0, 0, 0])) == [a, 0, 0, 0]
  {
  }

  lemma Unit1(a: bv8)
    ensures InvMixColumn(MixColumn([0, a, 0, 0])) == [0, a, 0, 0]
  {
  }

  lemma Unit2(a: bv8)
    ensures InvMixColumn(MixColumn([0, 0, a, 0])) == [0, 0, a, 0]
  {
  }

  lemma Unit3(a: bv8)
    ensures InvMixColumn(MixColumn([0, 0, 0, a])) == [0, 0, 0, a]
  {
  }

  /** InvMixColumns undoes MixColumns on every column (FIPS-197 section 5.3.3). */
  lemma InvMixColumnMixColumn(c: seq<bv8>)
    requires |c| == 4
    ensures InvMixColumn(MixColumn(c)) == c
  {
    var e0, e1, e2, e3 := [c[0], 0, 0, 0], [0, c[1], 0, 0], [0, 0, c[2], 0], [0, 0, 0, c[3]];
    var e01 := XorColumn(e0, e1);
    var e012 := XorColumn(e01, e2);
    Decompose(c);
    MixColumnLinear(e0, e1);
    MixColumnLinear(e01, e2);
    MixColumnLinear(e012, e3);
    var m0, m1, m2, m3 := MixColumn(e0), MixColumn(e1), MixColumn(e2), MixColumn(e3);
    InvMixColumnLinear(m0, m1);
    InvMixColumnLinear(XorColumn(m0, m1), m2);
    InvMixColumnLinear(XorColumn(XorColumn(m0, m1), m2), m3);
    Unit0(c[0]);
    Unit1(c[1]);
    Unit2(c[2]);
    Unit3(c[3]);
  }

  /** The MixColumns test columns of the FIPS-197 worked example and common test data. */
  lemma MixColumnVectors()
    ensures MixColumn([0x01, 0x01, 0x01, 0x01]) == [0x01, 0x01, 0x01, 0x01]
    ensures MixColumn([0xc6, 0xc6, 0xc6, 0xc6]) == [0xc6, 0xc6, 0xc6, 0xc6]
    ensures MixColumn([0xd4, 0xbf, 0x5d, 0x30]) == [0x04, 0x66, 0x81, 0xe5]
    ensures MixColumn([0xe0, 0xb4, 0x52, 0xae]) == [0xe0, 0xcb, 0x19, 0x9a]
  {
  }
}
