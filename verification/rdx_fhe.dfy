/**
 * The radix round engine: AES-128 on a state of sixteen encrypted bytes,
 * each round step updating the state in place.  An encrypted byte is modelled
 * by the byte it encrypts and every engine call by its plaintext meaning
 * (unchecked_bitxor is XOR, unchecked_match_value a table lookup), so the
 * state is an array of bytes.  Every step is proved against the FIPS-197
 * reference in module Aes, and the block drivers against Cipher and InvCipher.
 */
module RdxFhe {
  import opened Aes
  import opened AesTables
  import Gf
  import Sbox
  import Mix

  /** XOR every state byte with the key byte at the same position. */
  method AddRoundKeyFhe(state: array<bv8>, rkey: seq<bv8>)
    requires |rkey| >= state.Length
    modifies state
    ensures state[..] == AddRoundKey(old(state[..]), rkey)
  {
    ghost var s := state[..];
    var i := 0;
    while i < state.Length
      invariant 0 <= i <= state.Length
      invariant forall j :: 0 <= j < i ==> state[j] == Gf.Xor(s[j], rkey[j])
      invariant forall j :: i <= j < state.Length ==> state[j] == s[j]
    {
      state[i] := Gf.Xor(state[i], rkey[i]);
      i := i + 1;
    }
  }

  /** Overwriting the first byte after a prefix extends the prefix by that byte. */
  lemma UpdateAfter(pre: seq<bv8>, rest: seq<bv8>, y: bv8)
    requires |rest| > 0
    ensures (pre + rest)[|pre| := y] == pre + [y] + rest[1..]
  {
  }

  /** A prefix one byte longer is the prefix followed by that byte. */
  lemma TakeNext(v: seq<bv8>, i: nat)
    requires i < |v|
    ensures v[..i + 1] == v[..i] + [v[i]]
  {
  }

  /** SubBytes of a prefix one byte longer. */
  lemma SubBytesSnoc(t: seq<bv8>, i: nat)
    requires i < |t|
    ensures SubBytes(t[..i + 1]) == SubBytes(t[..i]) + [SubByte(t[i])]
  {
    assert t[..i + 1] == t[..i] + [t[i]];
  }

  /** InvSubBytes of a prefix one byte longer. */
  lemma InvSubBytesSnoc(t: seq<bv8>, i: nat)
    requires i < |t|
    ensures InvSubBytes(t[..i + 1]) == InvSubBytes(t[..i]) + [InvSubByte(t[i])]
  {
    assert t[..i + 1] == t[..i] + [t[i]];
  }

  /** The S-box circuit on every byte of the state, each from a snapshot taken before the step. */
  method SubBytesFhe(state: array<bv8>)
    modifies state
    ensures state[..] == SubBytes(old(state[..]))
  {
    var tmp := state[..];
    var i := 0;
    while i < state.Length
      invariant 0 <= i <= state.Length
      invariant state[..] == SubBytes(tmp[..i]) + tmp[i..]
    {
      UpdateAfter(SubBytes(tmp[..i]), tmp[i..], SubByte(tmp[i]));
      SubBytesSnoc(tmp, i);
      state[i] := Sbox.SboxIdx(tmp[i]);
      i := i + 1;
    }
  }

  /** The inverse S-box circuit on every byte; the state must hold an even number of bytes. */
  method InvSubBytesFhe(state: array<bv8>)
    requires state.Length % 2 == 0
    modifies state
    ensures state[..] == InvSubBytes(old(state[..]))
  {
    var tmp := state[..];
    var i := 0;
    while i < state.Length
      invariant 0 <= i <= state.Length
      invariant state[..] == InvSubBytes(tmp[..i]) + tmp[i..]
    {
      UpdateAfter(InvSubBytes(tmp[..i]), tmp[i..], InvSubByte(tmp[i]));
      InvSubBytesSnoc(tmp, i);
      state[i] := Sbox.SboxInvIdx(tmp[i]);
      i := i + 1;
    }
  }

  /** Where shift_rows_fhe takes each of the sixteen state bytes from. */
  const SHIFT_ROWS_SOURCE: seq<nat> := [0, 5, 10, 15, 4, 9, 14, 3, 8, 13, 2, 7, 12, 1, 6, 11]

  /** Where inv_shift_rows_fhe takes each of the sixteen state bytes from. */
  const INV_SHIFT_ROWS_SOURCE: seq<nat> := [0, 13, 10, 7, 4, 1, 14, 11, 8, 5, 2, 15, 12, 9, 6, 3]

  /** Entry i of the move table of shift_rows_fhe is where FIPS-197 ShiftRows takes byte i from. */
  lemma ShiftRowsSourceAt(i: nat)
    requires i < 16
    ensures SHIFT_ROWS_SOURCE[i] == ShiftSource(i % 4, i / 4)
  {
    if i == 0 {
      assert i % 4 == 0 && i / 4 == 0;
    } else if i == 1 {
      assert i % 4 == 1 && i / 4 == 0;
    } else if i == 2 {
      assert i % 4 == 2 && i / 4 == 0;
    } else if i == 3 {
      assert i % 4 == 3 && i / 4 == 0;
    } else if i == 4 {
      assert i % 4 == 0 && i / 4 == 1;
    } else if i == 5 {
      assert i % 4 == 1 && i / 4 == 1;
    } else if i == 6 {
      assert i % 4 == 2 && i / 4 == 1;
    } else if i == 7 {
      assert i % 4 == 3 && i / 4 == 1;
    } else if i == 8 {
      assert i % 4 == 0 && i / 4 == 2;
    } else if i == 9 {
      assert i % 4 == 1 && i / 4 == 2;
    } else if i == 10 {
      assert i % 4 == 2 && i / 4 == 2;
    } else if i == 11 {
      assert i % 4 == 3 && i / 4 == 2;
    } else if i == 12 {
      assert i % 4 == 0 && i / 4 == 3;
    } else if i == 13 {
      assert i % 4 == 1 && i / 4 == 3;
    } else if i == 14 {
      assert i % 4 == 2 && i / 4 == 3;
    } else {
      assert i % 4 == 3 && i / 4 == 3;
    }
  }

  /** The moves shift_rows_fhe writes out are FIPS-197 ShiftRows. */
  lemma ShiftRowsTable(s: seq<bv8>, i: nat)
    requires |s| == 16 && i < 16
    ensures ShiftRows(s)[i] == s[SHIFT_ROWS_SOURCE[i]]
  {
    ShiftRowsSourceAt(i);
  }

  /** Entry i of the move table of inv_shift_rows_fhe is where FIPS-197 InvShiftRows takes byte i from. */
  lemma InvShiftRowsSourceAt(i: nat)
    requires i < 16
    ensures INV_SHIFT_ROWS_SOURCE[i] == InvShiftSource(i % 4, i / 4)
  {
    if i == 0 {
      assert i % 4 == 0 && i / 4 == 0;
    } else if i == 1 {
      assert i % 4 == 1 && i / 4 == 0;
    } else if i == 2 {
      assert i % 4 == 2 && i / 4 == 0;
    } else if i == 3 {
      assert i % 4 == 3 && i / 4 == 0;
    } else if i == 4 {
      assert i % 4 == 0 && i / 4 == 1;
    } else if i == 5 {
      assert i % 4 == 1 && i / 4 == 1;
    } else if i == 6 {
      assert i % 4 == 2 && i / 4 == 1;
    } else if i == 7 {
      assert i % 4 == 3 && i / 4 == 1;
    } else if i == 8 {
      assert i % 4 == 0 && i / 4 == 2;
    } else if i == 9 {
      assert i % 4 == 1 && i / 4 == 2;
    } else if i == 10 {
      assert i % 4 == 2 && i / 4 == 2;
    } else if i == 11 {
      assert i % 4 == 3 && i / 4 == 2;
    } else if i == 12 {
      assert i % 4 == 0 && i / 4 == 3;
    } else if i == 13 {
      assert i % 4 == 1 && i / 4 == 3;
    } else if i == 14 {
      assert i % 4 == 2 && i / 4 == 3;
    } else {
      assert i % 4 == 3 && i / 4 == 3;
    }
  }

  /** The moves inv_shift_rows_fhe writes out are FIPS-197 InvShiftRows. */
  lemma InvShiftRowsTable(s: seq<bv8>, i: nat)
    requires |s| == 16 && i < 16
    ensures InvShiftRows(s)[i] == s[INV_SHIFT_ROWS_SOURCE[i]]
  {
    InvShiftRowsSourceAt(i);
  }

  /** ShiftRows on the first sixteen bytes, from a snapshot; bytes past the sixteenth are left alone. */
  method ShiftRowsFhe(state: array<bv8>)
    requires state.Length >= 16
    modifies state
    ensures state[..16] == ShiftRows(old(state[..16]))
    ensures state[16..] == old(state[16..])
    ensures state.Length == 16 ==> state[..] == ShiftRows(old(state[..]))
  {
    var tmp := state[..];
    forall i | 0 <= i < 16 {
      state[i] := tmp[SHIFT_ROWS_SOURCE[i]];
    }
    forall i | 0 <= i < 16
      ensures state[i] == ShiftRows(tmp[..16])[i]
    {
      ShiftRowsTable(tmp[..16], i);
    }
    if state.Length == 16 {
      assert tmp[..16] == tmp;
      assert state[..16] == state[..];
    }
  }

  /** InvShiftRows on the first sixteen bytes, from a snapshot; bytes past the sixteenth are left alone. */
  method InvShiftRowsFhe(state: array<bv8>)
    requires state.Length >= 16
    modifies state
    ensures state[..16] == InvShiftRows(old(state[..16]))
    ensures state[16..] == old(state[16..])
    ensures state.Length == 16 ==> state[..] == InvShiftRows(old(state[..]))
  {
    var tmp := state[..];
    forall i | 0 <= i < 16 {
      state[i] := tmp[INV_SHIFT_ROWS_SOURCE[i]];
    }
    forall i | 0 <= i < 16
      ensures state[i] == InvShiftRows(tmp[..16])[i]
    {
      InvShiftRowsTable(tmp[..16], i);
    }
    if state.Length == 16 {
      assert tmp[..16] == tmp;
      assert state[..16] == state[..];
    }
  }

  /** Replacing column c of a state half-way through mix_columns_fhe by its mixed column advances the state by one column. */
  lemma MixColumnsStep(s: seq<bv8>, c: nat, before: seq<bv8>)
    requires |s| == 16 && c < 4 && before == MixColumnsUpTo(s, c) + s[4 * c..]
    ensures before[..4 * c] + Gf.MixColumn(before[4 * c..4 * c + 4]) + before[4 * c + 4..]
         == MixColumnsUpTo(s, c + 1) + s[4 * c + 4..]
  {
    assert before[4 * c..4 * c + 4] == s[4 * c..4 * c + 4];
    assert before[..4 * c] == MixColumnsUpTo(s, c);
    assert before[4 * c + 4..] == s[4 * c + 4..];
  }

  /** Writing four bytes over column c of a state replaces that column and nothing else. */
  lemma WriteColumn(before: seq<bv8>, c: nat, out: seq<bv8>)
    requires |before| == 16 && c < 4 && |out| == 4
    ensures before[4 * c := out[0]][4 * c + 1 := out[1]][4 * c + 2 := out[2]][4 * c + 3 := out[3]]
         == before[..4 * c] + out + before[4 * c + 4..]
  {
  }

  /** The per-chunk body of mix_columns_fhe: column c through the bit-level mix circuit, written back in place. */
  method MixColumnChunk(state: array<bv8>, c: nat)
    requires state.Length == 16 && c < 4
    modifies state
    ensures state[..] == old(state[..4 * c]) + Gf.MixColumn(old(state[4 * c..4 * c + 4])) + old(state[4 * c + 4..])
  {
    ghost var before := state[..];
    var col := state[4 * c..4 * c + 4];
    var out := Mix.MixCols(col);
    state[4 * c] := out[0];
    state[4 * c + 1] := out[1];
    state[4 * c + 2] := out[2];
    state[4 * c + 3] := out[3];
    WriteColumn(before, c, out);
  }

  /** MixColumns column by column, each column through the bit-level mix circuit. */
  method MixColumnsFhe(state: array<bv8>)
    requires state.Length == 16
    modifies state
    ensures state[..] == MixColumns(old(state[..]))
  {
    ghost var s := state[..];
    var c := 0;
    while c < 4
      invariant 0 <= c <= 4
      invariant state[..] == MixColumnsUpTo(s, c) + s[4 * c..]
    {
      MixColumnsStep(s, c, state[..]);
      MixColumnChunk(state, c);
      c := c + 1;
    }
    assert s[16..] == [];
    assert state[..] == MixColumnsUpTo(s, 4);
  }

  /** A lookup table holding f of every byte, as gen_tbl builds from a 256-entry product table. */
  function LookupTable(f: bv8 -> bv8): (t: seq<bv8>)
    ensures |t| == 256
  {
    seq(256, i requires 0 <= i < 256 => f(i as bv8))
  }

  /** Entry x of LookupTable(f) is f(x). */
  lemma LookupTableAt(f: bv8 -> bv8, x: bv8)
    ensures LookupTable(f)[x as int] == f(x)
  {
  }

  /** Every byte of s replaced by its entry in the 256-entry table tbl. */
  function Lut(s: seq<bv8>, tbl: seq<bv8>): (r: seq<bv8>)
    requires |tbl| == 256
    ensures |r| == |s|
  {
    seq(|s|, i requires 0 <= i < |s| => tbl[s[i] as int])
  }

  /** One table lookup per state byte, into a fresh sequence; the state is only read. */
  method LutState(state: array<bv8>, tbl: seq<bv8>) returns (r: seq<bv8>)
    requires state.Length == 16 && |tbl| == 256
    ensures r == Lut(state[..], tbl)
  {
    r := state[..];
    var i := 0;
    while i < 16
      invariant 0 <= i <= 16 && |r| == 16
      invariant forall j :: 0 <= j < i ==> r[j] == tbl[state[j] as int]
    {
      r := r[i := tbl[state[i] as int]];
      i := i + 1;
    }
  }

  /** The byte parallel_xor reads for output position i: offset idx[i mod 4] within the column of i. */
  function Pick(i: nat, idx: seq<nat>): nat
    requires |idx| == 4
  {
    4 * (i / 4) + idx[i % 4]
  }

  /** Row r of column c picks offset idx[r] of the same column. */
  lemma PickAt(idx: seq<nat>, r: nat, c: nat)
    requires |idx| == 4 && r < 4 && c < 4
    ensures Pick(r + 4 * c, idx) == 4 * c + idx[r]
  {
    RowCol(r, c);
  }

  /** Whether every position below n picks, through idx, a byte inside a sequence of length len. */
  predicate PicksInside(n: nat, idx: seq<nat>, len: nat)
    requires |idx| == 4
  {
    forall i :: 0 <= i < n ==> Pick(i, idx) < len
  }

  /** The n bytes g1[Pick(i, idx1)] XOR g2[Pick(i, idx2)], i = 0 .. n - 1. */
  function PickXor(g1: seq<bv8>, g2: seq<bv8>, idx1: seq<nat>, idx2: seq<nat>, n: nat): (r: seq<bv8>)
    requires |idx1| == 4 && |idx2| == 4
    requires PicksInside(n, idx1, |g1|) && PicksInside(n, idx2, |g2|)
    ensures |r| == n
  {
    seq(n, i requires 0 <= i < n => Gf.Xor(g1[Pick(i, idx1)], g2[Pick(i, idx2)]))
  }

  /** Fills out with g1[Pick(i, idx1)] XOR g2[Pick(i, idx2)] at every position i. */
  method ParallelXor(out: array<bv8>, g1: seq<bv8>, g2: seq<bv8>, idx1: seq<nat>, idx2: seq<nat>)
    requires |idx1| == 4 && |idx2| == 4
    requires PicksInside(out.Length, idx1, |g1|) && PicksInside(out.Length, idx2, |g2|)
    modifies out
    ensures out[..] == PickXor(g1, g2, idx1, idx2, out.Length)
  {
    var i := 0;
    while i < out.Length
      invariant 0 <= i <= out.Length
      invariant forall j :: 0 <= j < i ==> out[j] == Gf.Xor(g1[Pick(j, idx1)], g2[Pick(j, idx2)])
    {
      var c := i / 4;
      c := c * 4;
      var p := i % 4;
      assert c + idx1[p] == Pick(i, idx1) && c + idx2[p] == Pick(i, idx2);
      out[i] := Gf.Xor(g1[c + idx1[p]], g2[c + idx2[p]]);
      i := i + 1;
    }
  }

  /** The byte-wise XOR of two sequences of the same length. */
  function XorSeq(a: seq<bv8>, b: seq<bv8>): (r: seq<bv8>)
    requires |a| == |b|
    ensures |r| == |a|
  {
    seq(|a|, i requires 0 <= i < |a| => Gf.Xor(a[i], b[i]))
  }

  /** The offsets inv_mix_columns_fhe pairs: the {09} and {0b} products first, then the {0d} and {0e} products. */
  const G9_IDX: seq<nat> := [3, 0, 1, 2]
  const GB_IDX: seq<nat> := [1, 2, 3, 0]
  const GD_IDX: seq<nat> := [2, 3, 0, 1]
  const GE_IDX: seq<nat> := [0, 1, 2, 3]

  /** Offsets below four pick inside a sixteen-byte state at every one of its positions. */
  lemma PicksInsideState(idx: seq<nat>)
    requires |idx| == 4 && idx[0] < 4 && idx[1] < 4 && idx[2] < 4 && idx[3] < 4
    ensures PicksInside(16, idx, 16)
  {
    forall i | 0 <= i < 16
      ensures Pick(i, idx) < 16
    {
      Position(i);
    }
  }

  /** What inv_mix_columns_fhe computes from four product tables. */
  function InvMixLut(s: seq<bv8>, t9: seq<bv8>, tb: seq<bv8>, td: seq<bv8>, te: seq<bv8>): (r: seq<bv8>)
    requires |s| == 16 && |t9| == 256 && |tb| == 256 && |td| == 256 && |te| == 256
    ensures |r| == 16
  {
    PicksInsideState(G9_IDX);
    PicksInsideState(GB_IDX);
    PicksInsideState(GD_IDX);
    PicksInsideState(GE_IDX);
    XorSeq(PickXor(Lut(s, t9), Lut(s, tb), G9_IDX, GB_IDX, 16),
           PickXor(Lut(s, td), Lut(s, te), GD_IDX, GE_IDX, 16))
  }

  /** InvMixColumns through lookups of the {09}, {0b}, {0d} and {0e} product tables. */
  method InvMixColumnsFhe(state: array<bv8>, t9: seq<bv8>, tb: seq<bv8>, td: seq<bv8>, te: seq<bv8>)
    requires state.Length == 16
    requires |t9| == 256 && |tb| == 256 && |td| == 256 && |te| == 256
    modifies state
    ensures state[..] == InvMixLut(old(state[..]), t9, tb, td, te)
  {
    ghost var s := state[..];
    var g9 := LutState(state, t9);
    var gb := LutState(state, tb);
    var gd := LutState(state, td);
    var ge := LutState(state, te);
    PicksInsideState(G9_IDX);
    PicksInsideState(GB_IDX);
    PicksInsideState(GD_IDX);
    PicksInsideState(GE_IDX);
    var x1 := new bv8[16](_ => 0);
    ParallelXor(x1, g9, gb, G9_IDX, GB_IDX);
    var x2 := new bv8[16](_ => 0);
    ParallelXor(x2, gd, ge, GD_IDX, GE_IDX);
    ghost var v := XorSeq(x1[..], x2[..]);
    var i := 0;
    while i < 16
      invariant 0 <= i <= 16
      invariant state[..] == v[..i] + s[i..]
      modifies state
    {
      UpdateAfter(v[..i], s[i..], v[i]);
      TakeNext(v, i);
      state[i] := Gf.Xor(x1[i], x2[i]);
      i := i + 1;
    }
  }

  /** The pairing of row 0's four products, (g9 ^ gb) ^ (gd ^ ge), regrouped in FIPS-197 column order. */
  lemma XorRegroup0(w: bv8, x: bv8, y: bv8, z: bv8)
    ensures Gf.Xor(Gf.Xor(w, x), Gf.Xor(y, z)) == Gf.Xor(Gf.Xor(Gf.Xor(z, x), y), w)
  {
    assert (w ^ x) ^ (y ^ z) == ((z ^ x) ^ y) ^ w;
  }

  /** The pairing of row 1's four products, (g9 ^ gb) ^ (gd ^ ge), regrouped in FIPS-197 column order. */
  lemma XorRegroup1(w: bv8, x: bv8, y: bv8, z: bv8)
    ensures Gf.Xor(Gf.Xor(w, x), Gf.Xor(y, z)) == Gf.Xor(Gf.Xor(Gf.Xor(w, z), x), y)
  {
    assert (w ^ x) ^ (y ^ z) == ((w ^ z) ^ x) ^ y;
  }

  /** The pairing of row 2's four products, (g9 ^ gb) ^ (gd ^ ge), regrouped in FIPS-197 column order. */
  lemma XorRegroup2(w: bv8, x: bv8, y: bv8, z: bv8)
    ensures Gf.Xor(Gf.Xor(w, x), Gf.Xor(y, z)) == Gf.Xor(Gf.Xor(Gf.Xor(y, w), z), x)
  {
    assert (w ^ x) ^ (y ^ z) == ((y ^ w) ^ z) ^ x;
  }

  /** The pairing of row 3's four products, (g9 ^ gb) ^ (gd ^ ge), regrouped in FIPS-197 column order. */
  lemma XorRegroup3(w: bv8, x: bv8, y: bv8, z: bv8)
    ensures Gf.Xor(Gf.Xor(w, x), Gf.Xor(y, z)) == Gf.Xor(Gf.Xor(Gf.Xor(x, y), w), z)
  {
    assert (w ^ x) ^ (y ^ z) == ((x ^ y) ^ w) ^ z;
  }

  /** The four product tables gen_tbl builds for decryption. */
  function T9(): seq<bv8> { LookupTable(Gf.Mul9) }
  function TB(): seq<bv8> { LookupTable(Gf.Mul11) }
  function TD(): seq<bv8> { LookupTable(Gf.Mul13) }
  function TE(): seq<bv8> { LookupTable(Gf.Mul14) }

  /** Row 0 of a column from the table lookups of inv_mix_columns_fhe is row 0 of FIPS-197 InvMixColumns. */
  lemma InvMixRow0(col: seq<bv8>)
    requires |col| == 4
    ensures Gf.Xor(Gf.Xor(T9()[col[3] as int], TB()[col[1] as int]),
                   Gf.Xor(TD()[col[2] as int], TE()[col[0] as int]))
         == Gf.InvMixColumn(col)[0]
  {
    LookupTableAt(Gf.Mul9, col[3]);
    LookupTableAt(Gf.Mul11, col[1]);
    LookupTableAt(Gf.Mul13, col[2]);
    LookupTableAt(Gf.Mul14, col[0]);
    XorRegroup0(Gf.Mul9(col[3]), Gf.Mul11(col[1]), Gf.Mul13(col[2]), Gf.Mul14(col[0]));
  }

  /** Row 1 of a column from the table lookups of inv_mix_columns_fhe is row 1 of FIPS-197 InvMixColumns. */
  lemma InvMixRow1(col: seq<bv8>)
    requires |col| == 4
    ensures Gf.Xor(Gf.Xor(T9()[col[0] as int], TB()[col[2] as int]),
                   Gf.Xor(TD()[col[3] as int], TE()[col[1] as int]))
         == Gf.InvMixColumn(col)[1]
  {
    LookupTableAt(Gf.Mul9, col[0]);
    LookupTableAt(Gf.Mul11, col[2]);
    LookupTableAt(Gf.Mul13, col[3]);
    LookupTableAt(Gf.Mul14, col[1]);
    XorRegroup1(Gf.Mul9(col[0]), Gf.Mul11(col[2]), Gf.Mul13(col[3]), Gf.Mul14(col[1]));
  }

  /** Row 2 of a column from the table lookups of inv_mix_columns_fhe is row 2 of FIPS-197 InvMixColumns. */
  lemma InvMixRow2(col: seq<bv8>)
    requires |col| == 4
    ensures Gf.Xor(Gf.Xor(T9()[col[1] as int], TB()[col[3] as int]),
                   Gf.Xor(TD()[col[0] as int], TE()[col[2] as int]))
         == Gf.InvMixColumn(col)[2]
  {
    LookupTableAt(Gf.Mul9, col[1]);
    LookupTableAt(Gf.Mul11, col[3]);
    LookupTableAt(Gf.Mul13, col[0]);
    LookupTableAt(Gf.Mul14, col[2]);
    XorRegroup2(Gf.Mul9(col[1]), Gf.Mul11(col[3]), Gf.Mul13(col[0]), Gf.Mul14(col[2]));
  }

  /** Row 3 of a column from the table lookups of inv_mix_columns_fhe is row 3 of FIPS-197 InvMixColumns. */
  lemma InvMixRow3(col: seq<bv8>)
    requires |col| == 4
    ensures Gf.Xor(Gf.Xor(T9()[col[2] as int], TB()[col[0] as int]),
                   Gf.Xor(TD()[col[1] as int], TE()[col[3] as int]))
         == Gf.InvMixColumn(col)[3]
  {
    LookupTableAt(Gf.Mul9, col[2]);
    LookupTableAt(Gf.Mul11, col[0]);
    LookupTableAt(Gf.Mul13, col[1]);
    LookupTableAt(Gf.Mul14, col[3]);
    XorRegroup3(Gf.Mul9(col[2]), Gf.Mul11(col[0]), Gf.Mul13(col[1]), Gf.Mul14(col[3]));
  }

  /** Row r of a column from the four table lookups inv_mix_columns_fhe makes is row r of FIPS-197 InvMixColumns. */
  lemma InvMixRowLookups(col: seq<bv8>, r: nat)
    requires |col| == 4 && r < 4
    ensures Gf.Xor(Gf.Xor(T9()[col[G9_IDX[r]] as int], TB()[col[GB_IDX[r]] as int]),
                   Gf.Xor(TD()[col[GD_IDX[r]] as int], TE()[col[GE_IDX[r]] as int]))
         == Gf.InvMixColumn(col)[r]
  {
    if r == 0 {
      assert G9_IDX[0] == 3 && GB_IDX[0] == 1 && GD_IDX[0] == 2 && GE_IDX[0] == 0;
      InvMixRow0(col);
    } else if r == 1 {
      assert G9_IDX[1] == 0 && GB_IDX[1] == 2 && GD_IDX[1] == 3 && GE_IDX[1] == 1;
      InvMixRow1(col);
    } else if r == 2 {
      assert G9_IDX[2] == 1 && GB_IDX[2] == 3 && GD_IDX[2] == 0 && GE_IDX[2] == 2;
      InvMixRow2(col);
    } else {
      assert G9_IDX[3] == 2 && GB_IDX[3] == 0 && GD_IDX[3] == 1 && GE_IDX[3] == 3;
      InvMixRow3(col);
    }
  }

  /** Row r of column c of a PickXor over two lookups of a state pairs the bytes of that column the index tables name. */
  lemma PickXorLutColumn(s: seq<bv8>, t1: seq<bv8>, t2: seq<bv8>, idx1: seq<nat>, idx2: seq<nat>, r: nat, c: nat)
    requires |s| == 16 && |t1| == 256 && |t2| == 256 && r < 4 && c < 4
    requires |idx1| == 4 && |idx2| == 4 && (forall k :: 0 <= k < 4 ==> idx1[k] < 4 && idx2[k] < 4)
    ensures PicksInside(16, idx1, 16) && PicksInside(16, idx2, 16)
    ensures PickXor(Lut(s, t1), Lut(s, t2), idx1, idx2, 16)[r + 4 * c]
         == Gf.Xor(t1[s[4 * c..4 * c + 4][idx1[r]] as int], t2[s[4 * c..4 * c + 4][idx2[r]] as int])
  {
    PicksInsideState(idx1);
    PicksInsideState(idx2);
    PickAt(idx1, r, c);
    PickAt(idx2, r, c);
  }

  /** Row r of column c of InvMixLut is the XOR of the four lookups of that column's bytes the index tables name. */
  lemma InvMixLutRow(s: seq<bv8>, t9: seq<bv8>, tb: seq<bv8>, td: seq<bv8>, te: seq<bv8>, r: nat, c: nat)
    requires |s| == 16 && |t9| == 256 && |tb| == 256 && |td| == 256 && |te| == 256 && r < 4 && c < 4
    ensures InvMixLut(s, t9, tb, td, te)[r + 4 * c]
         == Gf.Xor(Gf.Xor(t9[s[4 * c..4 * c + 4][G9_IDX[r]] as int], tb[s[4 * c..4 * c + 4][GB_IDX[r]] as int]),
                   Gf.Xor(td[s[4 * c..4 * c + 4][GD_IDX[r]] as int], te[s[4 * c..4 * c + 4][GE_IDX[r]] as int]))
  {
    PickXorLutColumn(s, t9, tb, G9_IDX, GB_IDX, r, c);
    PickXorLutColumn(s, td, te, GD_IDX, GE_IDX, r, c);
  }

  /** With the product tables, row r of column c of InvMixLut is row r of FIPS-197 InvMixColumns of that column. */
  lemma InvMixLutColumn(s: seq<bv8>, r: nat, c: nat)
    requires |s| == 16 && r < 4 && c < 4
    ensures InvMixLut(s, T9(), TB(), TD(), TE())[r + 4 * c] == Gf.InvMixColumn(s[4 * c..4 * c + 4])[r]
  {
    InvMixLutRow(s, T9(), TB(), TD(), TE(), r, c);
    InvMixRowLookups(s[4 * c..4 * c + 4], r);
  }

  /** Row r of column c of the lookup form of inv_mix_columns_fhe is that byte of FIPS-197 InvMixColumns. */
  lemma InvMixLutAt(s: seq<bv8>, r: nat, c: nat)
    requires |s| == 16 && r < 4 && c < 4
    ensures InvMixLut(s, T9(), TB(), TD(), TE())[r + 4 * c] == InvMixColumns(s)[r + 4 * c]
  {
    InvMixLutColumn(s, r, c);
    InvMixColumnsColumn(s, c);
    assert InvMixColumns(s)[r + 4 * c] == InvMixColumns(s)[4 * c..4 * c + 4][r];
  }

  /** With the product tables gen_tbl builds, the lookup form of inv_mix_columns_fhe is FIPS-197 InvMixColumns. */
  lemma InvMixLutIsInvMixColumns(s: seq<bv8>)
    requires |s| == 16
    ensures InvMixLut(s, T9(), TB(), TD(), TE()) == InvMixColumns(s)
  {
    forall i | 0 <= i < 16
      ensures InvMixLut(s, T9(), TB(), TD(), TE())[i] == InvMixColumns(s)[i]
    {
      Position(i);
      InvMixLutAt(s, i % 4, i / 4);
    }
  }

  /** A key slice starting at byte lo = 16 r and at least sixteen bytes long acts on a block as round key r. */
  lemma RoundKeySlice(s: seq<bv8>, xk: seq<bv8>, r: nat, lo: nat, hi: nat)
    requires |s| == BLOCKSIZE && |xk| == ROUNDKEYSIZE && r <= ROUNDS && lo == 16 * r && lo + 16 <= hi <= ROUNDKEYSIZE
    ensures AddRoundKey(s, xk[lo..hi]) == AddRoundKey(s, RoundKey(xk, r))
  {
    AddRoundKeyPrefix(s, xk[lo..hi]);
    assert xk[lo..hi][..16] == RoundKey(xk, r);
  }

  /** One of rounds 1 .. 9 of encrypt_one_block_fhe: sub_bytes, shift_rows, mix_columns, then round key `round`. */
  method EncRoundFhe(state: array<bv8>, xk: seq<bv8>, round: nat)
    requires state.Length == BLOCKSIZE && |xk| == ROUNDKEYSIZE && 1 <= round < ROUNDS
    modifies state
    ensures state[..] == Round(old(state[..]), RoundKey(xk, round))
  {
    ghost var s := state[..];
    SubBytesFhe(state);
    ShiftRowsFhe(state);
    MixColumnsFhe(state);
    ghost var m := state[..];
    assert m == MixColumns(ShiftRows(SubBytes(s)));
    AddRoundKeyFhe(state, xk[round * KEYSIZE..ROUNDKEYSIZE]);
    RoundKeySlice(m, xk, round, round * KEYSIZE, ROUNDKEYSIZE);
  }

  /** The last round of encrypt_one_block_fhe: sub_bytes, shift_rows and round key 10, without mix_columns. */
  method FinalRoundFhe(state: array<bv8>, xk: seq<bv8>)
    requires state.Length == BLOCKSIZE && |xk| == ROUNDKEYSIZE
    modifies state
    ensures state[..] == AddRoundKey(ShiftRows(SubBytes(old(state[..]))), RoundKey(xk, ROUNDS))
  {
    SubBytesFhe(state);
    ShiftRowsFhe(state);
    AddRoundKeyFhe(state, xk[KEYSIZE * ROUNDS..ROUNDKEYSIZE]);
  }

  /** The loop `for round in 1..ROUNDS` of encrypt_one_block_fhe: rounds 1 .. 9, in place. */
  method EncRoundsFhe(state: array<bv8>, xk: seq<bv8>)
    requires state.Length == BLOCKSIZE && |xk| == ROUNDKEYSIZE
    modifies state
    ensures state[..] == EncRounds(old(state[..]), xk, ROUNDS - 1)
  {
    ghost var s0 := state[..];
    var round := 1;
    ghost var done := 0;
    while round < ROUNDS
      invariant 1 <= round <= ROUNDS && done + 1 == round
      invariant state[..] == EncRounds(s0, xk, done)
    {
      EncRoundsAt(s0, xk, done, round - 1);
      EncRoundsStep(s0, xk, round);
      EncRoundFhe(state, xk, round);
      done := round;
      round := round + 1;
    }
    EncRoundsAt(s0, xk, done, ROUNDS - 1);
  }

  /** The rounds encrypt_one_block_fhe runs on the state: FIPS-197 Cipher, in place. */
  method CipherFhe(state: array<bv8>, xk: seq<bv8>)
    requires state.Length == BLOCKSIZE && |xk| == ROUNDKEYSIZE
    modifies state
    ensures state[..] == Cipher(old(state[..]), xk)
  {
    ghost var p := state[..];
    AddRoundKeyFhe(state, xk[..2 * BLOCKSIZE]);
    RoundKeySlice(p, xk, 0, 0, 2 * BLOCKSIZE);
    EncRoundsFhe(state, xk);
    FinalRoundFhe(state, xk);
  }

  /** One of rounds 9 .. 1 of decrypt_block_fhe: inv_shift_rows, inv_sub_bytes, round key `round`, then inv_mix_columns. */
  method InvRoundFhe(state: array<bv8>, xk: seq<bv8>, round: nat, t9: seq<bv8>, tb: seq<bv8>, td: seq<bv8>, te: seq<bv8>)
    requires state.Length == BLOCKSIZE && |xk| == ROUNDKEYSIZE && 1 <= round < ROUNDS
    requires t9 == T9() && tb == TB() && td == TD() && te == TE()
    modifies state
    ensures state[..] == InvRound(old(state[..]), RoundKey(xk, round))
  {
    InvShiftRowsFhe(state);
    InvSubBytesFhe(state);
    assert xk[round * KEYSIZE..(round + 1) * KEYSIZE] == RoundKey(xk, round);
    AddRoundKeyFhe(state, xk[round * KEYSIZE..(round + 1) * KEYSIZE]);
    ghost var k := state[..];
    InvMixColumnsFhe(state, t9, tb, td, te);
    InvMixLutIsInvMixColumns(k);
  }

  /** The last round of decrypt_block_fhe: inv_shift_rows, inv_sub_bytes and round key 0. */
  method InvFinalRoundFhe(state: array<bv8>, xk: seq<bv8>)
    requires state.Length == BLOCKSIZE && |xk| == ROUNDKEYSIZE
    modifies state
    ensures state[..] == AddRoundKey(InvSubBytes(InvShiftRows(old(state[..]))), RoundKey(xk, 0))
  {
    InvShiftRowsFhe(state);
    InvSubBytesFhe(state);
    ghost var u := state[..];
    AddRoundKeyFhe(state, xk[..2 * BLOCKSIZE]);
    RoundKeySlice(u, xk, 0, 0, 2 * BLOCKSIZE);
  }

  /** The loop `for round in (1..ROUNDS).rev()` of decrypt_block_fhe: rounds with keys 9 .. 1, in place. */
  method DecRoundsFhe(state: array<bv8>, xk: seq<bv8>, t9: seq<bv8>, tb: seq<bv8>, td: seq<bv8>, te: seq<bv8>)
    requires state.Length == BLOCKSIZE && |xk| == ROUNDKEYSIZE
    requires t9 == T9() && tb == TB() && td == TD() && te == TE()
    modifies state
    ensures state[..] == DecRounds(old(state[..]), xk, ROUNDS - 1)
  {
    ghost var s0 := state[..];
    var round := ROUNDS - 1;
    ghost var done := 0;
    while round > 0
      invariant 0 <= round < ROUNDS && done + round == ROUNDS - 1
      invariant state[..] == DecRounds(s0, xk, done)
    {
      ghost var next := done + 1;
      DecRoundsStep(s0, xk, done, next, round);
      InvRoundFhe(state, xk, round, t9, tb, td, te);
      done := next;
      round := round - 1;
    }
    DecRoundsAt(s0, xk, done, ROUNDS - 1);
  }

  /** The rounds decrypt_block_fhe runs on the state, given the four product tables: FIPS-197 InvCipher, in place. */
  method InvCipherFhe(state: array<bv8>, xk: seq<bv8>, t9: seq<bv8>, tb: seq<bv8>, td: seq<bv8>, te: seq<bv8>)
    requires state.Length == BLOCKSIZE && |xk| == ROUNDKEYSIZE
    requires t9 == T9() && tb == TB() && td == TD() && te == TE()
    modifies state
    ensures state[..] == InvCipher(old(state[..]), xk)
  {
    ghost var c := state[..];
    AddRoundKeyFhe(state, xk[KEYSIZE * ROUNDS..ROUNDKEYSIZE]);
    RoundKeySlice(c, xk, ROUNDS, KEYSIZE * ROUNDS, ROUNDKEYSIZE);
    DecRoundsFhe(state, xk, t9, tb, td, te);
    InvFinalRoundFhe(state, xk);
  }

  /** A fresh state holding a copy of the input block. */
  method LoadState(input: seq<bv8>) returns (state: array<bv8>)
    requires |input| == BLOCKSIZE
    ensures fresh(state) && state[..] == input
  {
    state := new bv8[BLOCKSIZE];
    forall i | 0 <= i < BLOCKSIZE {
      state[i] := input[i];
    }
  }

  /** encrypt_one_block_fhe: one block through the cipher. */
  method EncryptOneBlockFhe(input: seq<bv8>, xk: seq<bv8>) returns (output: seq<bv8>)
    requires |input| == KEYSIZE && |xk| == ROUNDKEYSIZE
    ensures output == Cipher(input, xk)
  {
    var state := LoadState(input);
    CipherFhe(state, xk);
    output := state[..];
  }

  /** encrypt_block_fhe: the cipher applied iter times to the same state. */
  method EncryptBlockFhe(input: seq<bv8>, xk: seq<bv8>, iter: nat) returns (output: seq<bv8>)
    requires |input| == KEYSIZE && |xk| == ROUNDKEYSIZE
    ensures output == CipherIter(input, xk, iter)
  {
    var state := LoadState(input);
    ghost var s0 := state[..];
    var i := 1;
    while i <= iter
      invariant 1 <= i <= iter + 1
      invariant state[..] == CipherIter(s0, xk, i - 1)
    {
      CipherFhe(state, xk);
      i := i + 1;
    }
    output := state[..];
  }

  /** decrypt_block_fhe: the inverse cipher applied iter times to the same state, with tables built once. */
  method DecryptBlockFhe(input: seq<bv8>, xk: seq<bv8>, iter: nat) returns (output: seq<bv8>)
    requires |input| == BLOCKSIZE && |xk| == ROUNDKEYSIZE
    ensures output == InvCipherIter(input, xk, iter)
  {
    var state := LoadState(input);
    ghost var s0 := state[..];
    var t9, tb, td, te := T9(), TB(), TD(), TE();
    var i := 1;
    while i <= iter
      invariant 1 <= i <= iter + 1
      invariant state[..] == InvCipherIter(s0, xk, i - 1)
    {
      InvCipherFhe(state, xk, t9, tb, td, te);
      i := i + 1;
    }
    output := state[..];
  }
}
