/**
 * The position-value codec that moves an encrypted byte into eight
 * encrypted bits and back.  A byte is split least-significant bit first:
 * bit i is set exactly when masking the byte with the position value
 * 2^i gives 2^i back.  The byte is rebuilt by selecting 2^i or the zero
 * value for every bit and OR-ing the selections together, starting from
 * the zero value.
 */
module Bits {
  /** The position values 2^0 .. 2^7. */
  const PS: seq<bv8> := [1, 2, 4, 8, 16, 32, 64, 128]

  /** The zero value the recomposition starts from. */
  const V0: bv8 := 0

  /** Bit i of x, tested as a mask: (PS[i] & x) == PS[i]. */
  predicate BitSet(x: bv8, i: nat)
    requires i < 8
  {
    PS[i] & x == PS[i]
  }

  /** Decomposition of a byte into eight bits, least significant first. */
  function ToBits(x: bv8): (r: seq<bool>)
    ensures |r| == 8
  {
    [BitSet(x, 0), BitSet(x, 1), BitSet(x, 2), BitSet(x, 3),
     BitSet(x, 4), BitSet(x, 5), BitSet(x, 6), BitSet(x, 7)]
  }

  /** The value selected for one bit: the position value or the zero value. */
  function Select(b: bool, p: bv8): bv8
  {
    if b then p else V0
  }

  /** The OR-fold of a sequence of bytes, from the zero value, left to right. */
  function OrFold(vs: seq<bv8>): bv8
  {
    if |vs| == 0 then V0 else OrFold(vs[..|vs| - 1]) | vs[|vs| - 1]
  }

  /** The eight selections made while recomposing. */
  function Selections(r: seq<bool>): (s: seq<bv8>)
    requires |r| == 8
    ensures |s| == 8
  {
    [Select(r[0], PS[0]), Select(r[1], PS[1]), Select(r[2], PS[2]), Select(r[3], PS[3]),
     Select(r[4], PS[4]), Select(r[5], PS[5]), Select(r[6], PS[6]), Select(r[7], PS[7])]
  }

  /** Recomposition of eight bits, least significant first, into a byte. */
  function FromBits(r: seq<bool>): bv8
    requires |r| == 8
  {
    OrFold(Selections(r))
  }

  /** The weight of bit i in the unsigned value of a byte: b_i * 2^i. */
  function Weight(b: bool, i: nat): nat
    requires i < 8
  {
    if b then PS[i] as nat else 0
  }

  /** The mask test is the shift test: bit i is set iff (x >> i) & 1 == 1. */
  lemma MaskIsShift(x: bv8, i: nat)
    requires i < 8
    ensures BitSet(x, i) <==> (x >> i) & 1 == 1
  {
    if i == 0 {} else if i == 1 {} else if i == 2 {} else if i == 3 {}
    else if i == 4 {} else if i == 5 {} else if i == 6 {} else {}
  }

  /** Every element is below the fold, and the fold is below every upper bound. */
  lemma {:induction false} OrFoldLeastUpperBound(vs: seq<bv8>, y: bv8)
    ensures forall k :: 0 <= k < |vs| ==> vs[k] | OrFold(vs) == OrFold(vs)
    ensures (forall k :: 0 <= k < |vs| ==> vs[k] | y == y) ==> OrFold(vs) | y == y
  {
    if |vs| > 0 {
      var init := vs[..|vs| - 1];
      OrFoldLeastUpperBound(init, y);
      forall k | 0 <= k < |vs|
        ensures vs[k] | OrFold(vs) == OrFold(vs)
      {
        if k < |vs| - 1 {
          assert vs[k] == init[k];
        }
      }
      if forall k :: 0 <= k < |vs| ==> vs[k] | y == y {
        forall k | 0 <= k < |init|
          ensures init[k] | y == y
        {
          assert init[k] == vs[k];
        }
      }
    }
  }

  /**
   * The fold does not depend on the order of the elements: any rearrangement
   * (as a parallel reduction may produce) gives the same byte.
   */
  lemma OrFoldOrderFree(vs: seq<bv8>, ws: seq<bv8>)
    requires multiset(vs) == multiset(ws)
    ensures OrFold(vs) == OrFold(ws)
  {
    var a, b := OrFold(vs), OrFold(ws);
    OrFoldLeastUpperBound(vs, b);
    OrFoldLeastUpperBound(ws, a);
    forall k | 0 <= k < |vs|
      ensures vs[k] | b == b
    {
      assert vs[k] in multiset(ws);
      var j :| 0 <= j < |ws| && ws[j] == vs[k];
    }
    forall k | 0 <= k < |ws|
      ensures ws[k] | a == a
    {
      assert ws[k] in multiset(vs);
      var j :| 0 <= j < |vs| && vs[j] == ws[k];
    }
  }

  /** Folding a concatenation is OR-ing the folds of its two parts. */
  lemma {:induction false} OrFoldAppend(a: seq<bv8>, b: seq<bv8>)
    ensures OrFold(a + b) == OrFold(a) | OrFold(b)
    decreases |b|
  {
    if |b| == 0 {
      assert a + b == a;
    } else {
      var init := b[..|b| - 1];
      OrFoldAppend(a, init);
      assert (a + b)[..|a + b| - 1] == a + init;
    }
  }

  /**
   * A parallel reduction splits its input at arbitrary points, starts every
   * part from the identity value and joins the partial results with OR.
   * A reduction is a tree of such joins over input elements and identities.
   */
  datatype Reduction = Elem(v: bv8) | Identity | Join(left: Reduction, right: Reduction)

  /** The value a reduction tree computes. */
  function Combine(t: Reduction): bv8
  {
    match t
    case Elem(v) => v
    case Identity => V0
    case Join(l, r) => Combine(l) | Combine(r)
  }

  /** The input elements of a reduction tree, left to right, identities dropped. */
  function Leaves(t: Reduction): seq<bv8>
  {
    match t
    case Elem(v) => [v]
    case Identity => []
    case Join(l, r) => Leaves(l) + Leaves(r)
  }

  /**
   * However a reduction brackets the elements and wherever it inserts
   * identities, and in whatever order the elements come, it computes the
   * left-to-right fold of the input.
   */
  lemma {:induction false} ReductionIsFold(t: Reduction, vs: seq<bv8>)
    requires multiset(Leaves(t)) == multiset(vs)
    ensures Combine(t) == OrFold(vs)
  {
    ReductionIsFoldOfLeaves(t);
    OrFoldOrderFree(Leaves(t), vs);
  }

  /** A reduction tree computes the fold of its own leaves. */
  lemma {:induction false} ReductionIsFoldOfLeaves(t: Reduction)
    ensures Combine(t) == OrFold(Leaves(t))
  {
    match t
    case Elem(v) =>
      assert [v][..0] == [];
    case Identity =>
    case Join(l, r) =>
      ReductionIsFoldOfLeaves(l);
      ReductionIsFoldOfLeaves(r);
      OrFoldAppend(Leaves(l), Leaves(r));
  }

  /** One step of the fold: folding a prefix one element longer ORs that element in. */
  lemma OrFoldStep(vs: seq<bv8>, k: nat)
    requires k < |vs|
    ensures OrFold(vs[..k + 1]) == OrFold(vs[..k]) | vs[k]
  {
    assert vs[..k + 1][..k] == vs[..k];
  }

  /** The fold of eight bytes written out. */
  lemma OrFold8(s: seq<bv8>)
    requires |s| == 8
    ensures OrFold(s) == ((((((((V0 | s[0]) | s[1]) | s[2]) | s[3]) | s[4]) | s[5]) | s[6]) | s[7])
  {
    assert s[..0] == [];
    OrFoldStep(s, 0);
    OrFoldStep(s, 1);
    OrFoldStep(s, 2);
    OrFoldStep(s, 3);
    OrFoldStep(s, 4);
    OrFoldStep(s, 5);
    OrFoldStep(s, 6);
    OrFoldStep(s, 7);
    assert s[..8] == s;
  }

  /** Recomposition yields the unsigned value sum of b_i * 2^i, which is below 256. */
  lemma FromBitsValue(r: seq<bool>)
    requires |r| == 8
    ensures FromBits(r) as int == Weight(r[0], 0) + Weight(r[1], 1) + Weight(r[2], 2) + Weight(r[3], 3)
                                + Weight(r[4], 4) + Weight(r[5], 5) + Weight(r[6], 6) + Weight(r[7], 7)
    ensures FromBits(r) as int < 256
  {
    OrFold8(Selections(r));
  }

  /** Decomposing then recomposing returns the byte. */
  lemma FromToBits(x: bv8)
    ensures FromBits(ToBits(x)) == x
  {
    OrFold8(Selections(ToBits(x)));
  }

  /** Recomposing then decomposing returns the eight bits. */
  lemma ToFromBits(r: seq<bool>)
    requires |r| == 8
    ensures ToBits(FromBits(r)) == r
  {
    OrFold8(Selections(r));
  }

  /** Eight bits that agree with the bits of y recompose to y. */
  lemma FromBitsAgree(y: bv8, r: seq<bool>)
    requires |r| == 8
    requires r[0] == BitSet(y, 0) && r[1] == BitSet(y, 1) && r[2] == BitSet(y, 2) && r[3] == BitSet(y, 3)
    requires r[4] == BitSet(y, 4) && r[5] == BitSet(y, 5) && r[6] == BitSet(y, 6) && r[7] == BitSet(y, 7)
    ensures FromBits(r) == y
  {
    assert r == ToBits(y);
    FromToBits(y);
  }
}
