/**
 * The FIPS-197 AES-128 block cipher on plaintext bytes: the reference the
 * homomorphic round engine is proved against.  A state is a sequence of
 * sixteen bytes in column-major order (byte r + 4c is row r of column c);
 * the expanded key is 176 bytes, round key r being bytes 16r .. 16r + 15.
 */
module Aes {
  import opened AesTables
  import Gf

  /** Number of rounds of AES-128. */
  const ROUNDS: nat := 10

  /** Bytes in a block, and in a key. */
  const BLOCKSIZE: nat := 16
  const KEYSIZE: nat := 16

  /** Bytes in the expanded key: ROUNDS + 1 round keys. */
  const ROUNDKEYSIZE: nat := 176

  /** XOR of each state byte with the key byte at the same position; key bytes past the state are unused. */
  function AddRoundKey(s: seq<bv8>, k: seq<bv8>): (r: seq<bv8>)
    requires |k| >= |s|
    ensures |r| == |s|
  {
    seq(|s|, i requires 0 <= i < |s| => Gf.Xor(s[i], k[i]))
  }

  /** The S-box on every byte, whatever the length of the state. */
  function SubBytes(s: seq<bv8>): (r: seq<bv8>)
    ensures |r| == |s|
  {
    seq(|s|, i requires 0 <= i < |s| => SubByte(s[i]))
  }

  /** The inverse S-box on every byte. */
  function InvSubBytes(s: seq<bv8>): (r: seq<bv8>)
    ensures |r| == |s|
  {
    seq(|s|, i requires 0 <= i < |s| => InvSubByte(s[i]))
  }

  /** Where ShiftRows takes row r of column c from: row r turns left by r, s'(r, c) = s(r, (c + r) mod 4). */
  function ShiftSource(r: nat, c: nat): (j: nat)
    requires r < 4 && c < 4
  {
    r + 4 * ((c + r) % 4)
  }

  /** Where InvShiftRows takes row r of column c from: s'(r, c) = s(r, (c - r) mod 4). */
  function InvShiftSource(r: nat, c: nat): (j: nat)
    requires r < 4 && c < 4
  {
    r + 4 * ((c - r) % 4)
  }

  /** FIPS-197 ShiftRows (section 5.1.2) on a column-major state. */
  function ShiftRows(s: seq<bv8>): (r: seq<bv8>)
    requires |s| == 16
    ensures |r| == 16
  {
    seq(16, i requires 0 <= i < 16 => s[ShiftSource(i % 4, i / 4)])
  }

  /** FIPS-197 InvShiftRows (section 5.3.1). */
  function InvShiftRows(s: seq<bv8>): (r: seq<bv8>)
    requires |s| == 16
    ensures |r| == 16
  {
    seq(16, i requires 0 <= i < 16 => s[InvShiftSource(i % 4, i / 4)])
  }

  /** MixColumns on the first n columns, concatenated. */
  function MixColumnsUpTo(s: seq<bv8>, n: nat): (r: seq<bv8>)
    requires |s| == 16 && n <= 4
    ensures |r| == 4 * n
  {
    if n == 0 then [] else MixColumnsUpTo(s, n - 1) + Gf.MixColumn(s[4 * (n - 1)..4 * n])
  }

  /** FIPS-197 MixColumns: every column is multiplied by the fixed polynomial {03}x^3 + {01}x^2 + {01}x + {02}. */
  function MixColumns(s: seq<bv8>): (r: seq<bv8>)
    requires |s| == 16
    ensures |r| == 16
  {
    MixColumnsUpTo(s, 4)
  }

  /** InvMixColumns on the first n columns, concatenated. */
  function InvMixColumnsUpTo(s: seq<bv8>, n: nat): (r: seq<bv8>)
    requires |s| == 16 && n <= 4
    ensures |r| == 4 * n
  {
    if n == 0 then [] else InvMixColumnsUpTo(s, n - 1) + Gf.InvMixColumn(s[4 * (n - 1)..4 * n])
  }

  /** FIPS-197 InvMixColumns: every column is multiplied by {0b}x^3 + {0d}x^2 + {09}x + {0e}. */
  function InvMixColumns(s: seq<bv8>): (r: seq<bv8>)
    requires |s| == 16
    ensures |r| == 16
  {
    InvMixColumnsUpTo(s, 4)
  }

  /** Round key r of an expanded key. */
  function RoundKey(xk: seq<bv8>, r: nat): (k: seq<bv8>)
    requires |xk| == ROUNDKEYSIZE && r <= ROUNDS
    ensures |k| == 16
  {
    xk[16 * r..16 * r + 16]
  }

  /** One full encryption round. */
  function Round(s: seq<bv8>, k: seq<bv8>): (r: seq<bv8>)
    requires |s| == 16 && |k| == 16
    ensures |r| == 16
  {
    AddRoundKey(MixColumns(ShiftRows(SubBytes(s))), k)
  }

  /** The state after rounds 1 .. n, from the state after the initial AddRoundKey. */
  function EncRounds(s: seq<bv8>, xk: seq<bv8>, n: nat): (r: seq<bv8>)
    requires |s| == 16 && |xk| == ROUNDKEYSIZE && n < ROUNDS
    ensures |r| == 16
  {
    if n == 0 then s else Round(EncRounds(s, xk, n - 1), RoundKey(xk, n))
  }

  /** FIPS-197 Cipher (section 5.1) with an expanded key. */
  function Cipher(p: seq<bv8>, xk: seq<bv8>): (c: seq<bv8>)
    requires |p| == 16 && |xk| == ROUNDKEYSIZE
    ensures |c| == 16
  {
    var s := EncRounds(AddRoundKey(p, RoundKey(xk, 0)), xk, ROUNDS - 1);
    AddRoundKey(ShiftRows(SubBytes(s)), RoundKey(xk, ROUNDS))
  }

  /** One full decryption round of the straightforward inverse cipher. */
  function InvRound(s: seq<bv8>, k: seq<bv8>): (r: seq<bv8>)
    requires |s| == 16 && |k| == 16
    ensures |r| == 16
  {
    InvMixColumns(AddRoundKey(InvSubBytes(InvShiftRows(s)), k))
  }

  /** The state after n decryption rounds, with round keys 9, 8, .., 10 - n. */
  function DecRounds(s: seq<bv8>, xk: seq<bv8>, n: nat): (r: seq<bv8>)
    requires |s| == 16 && |xk| == ROUNDKEYSIZE && n < ROUNDS
    ensures |r| == 16
  {
    if n == 0 then s else InvRound(DecRounds(s, xk, n - 1), RoundKey(xk, ROUNDS - n))
  }

  /** FIPS-197 InvCipher (section 5.3) with an expanded key. */
  function InvCipher(c: seq<bv8>, xk: seq<bv8>): (p: seq<bv8>)
    requires |c| == 16 && |xk| == ROUNDKEYSIZE
    ensures |p| == 16
  {
    var s := DecRounds(AddRoundKey(c, RoundKey(xk, ROUNDS)), xk, ROUNDS - 1);
    AddRoundKey(InvSubBytes(InvShiftRows(s)), RoundKey(xk, 0))
  }

  /** The cipher applied n times to the same block, each time to the previous output. */
  function CipherIter(p: seq<bv8>, xk: seq<bv8>, n: nat): (c: seq<bv8>)
    requires |p| == 16 && |xk| == ROUNDKEYSIZE
    ensures |c| == 16
  {
    if n == 0 then p else Cipher(CipherIter(p, xk, n - 1), xk)
  }

  /** The inverse cipher applied n times to the same block. */
  function InvCipherIter(c: seq<bv8>, xk: seq<bv8>, n: nat): (p: seq<bv8>)
    requires |c| == 16 && |xk| == ROUNDKEYSIZE
    ensures |p| == 16
  {
    if n == 0 then c else InvCipher(InvCipherIter(c, xk, n - 1), xk)
  }

  /** AddRoundKey is its own inverse. */
  lemma AddRoundKeyInvolution(s: seq<bv8>, k: seq<bv8>)
    requires |k| >= |s|
    ensures AddRoundKey(AddRoundKey(s, k), k) == s
  {
    var t := AddRoundKey(AddRoundKey(s, k), k);
    forall i | 0 <= i < |s|
      ensures t[i] == s[i]
    {
      assert s[i] ^ k[i] ^ k[i] == s[i];
    }
  }

  /** Only the first |s| key bytes matter. */
  lemma AddRoundKeyPrefix(s: seq<bv8>, k: seq<bv8>)
    requires |k| >= |s|
    ensures AddRoundKey(s, k) == AddRoundKey(s, k[..|s|])
  {
  }

  /** The inverse S-box undoes the S-box byte by byte, in both orders. */
  lemma SubBytesInverse(s: seq<bv8>)
    ensures InvSubBytes(SubBytes(s)) == s
    ensures SubBytes(InvSubBytes(s)) == s
  {
    forall i | 0 <= i < |s|
      ensures InvSubBytes(SubBytes(s))[i] == s[i] && SubBytes(InvSubBytes(s))[i] == s[i]
    {
      InvSubByteSubByte(s[i]);
      SubByteInvSubByte(s[i]);
    }
  }

  /** The two source maps undo each other: they are inverse permutations of the sixteen positions. */
  lemma ShiftSourceInverse(r: nat, c: nat)
    requires r < 4 && c < 4
    ensures ShiftSource(r, (c - r) % 4) == r + 4 * c && InvShiftSource(r, (c + r) % 4) == r + 4 * c
  {
  }

  /** Position r + 4c of a state is row r of column c. */
  lemma RowCol(r: nat, c: nat)
    requires r < 4 && c < 4
    ensures (r + 4 * c) % 4 == r && (r + 4 * c) / 4 == c
  {
  }

  /** Every position below 16 is some row r of some column c. */
  lemma Position(i: nat)
    requires i < 16
    ensures i == i % 4 + 4 * (i / 4) && i % 4 < 4 && i / 4 < 4
  {
  }

  /** Row r of column c after ShiftRows is row r of column (c + r) mod 4 before. */
  lemma ShiftRowsAt(s: seq<bv8>, r: nat, c: nat)
    requires |s| == 16 && r < 4 && c < 4
    ensures ShiftRows(s)[r + 4 * c] == s[ShiftSource(r, c)]
  {
    RowCol(r, c);
  }

  /** Row r of column c after InvShiftRows is row r of column (c - r) mod 4 before. */
  lemma InvShiftRowsAt(s: seq<bv8>, r: nat, c: nat)
    requires |s| == 16 && r < 4 && c < 4
    ensures InvShiftRows(s)[r + 4 * c] == s[InvShiftSource(r, c)]
  {
    RowCol(r, c);
  }

  /** Row 0 stays in place; the other rows turn left (ShiftRows) or right (InvShiftRows) by their row number. */
  lemma ShiftRowsMoves(s: seq<bv8>, r: nat, c: nat)
    requires |s| == 16 && r < 4 && c < 4
    ensures ShiftRows(s)[r + 4 * c] == s[r + 4 * ((c + r) % 4)]
    ensures InvShiftRows(s)[r + 4 * c] == s[r + 4 * ((c - r) % 4)]
    ensures r == 0 ==> ShiftRows(s)[4 * c] == s[4 * c] && InvShiftRows(s)[4 * c] == s[4 * c]
  {
    ShiftRowsAt(s, r, c);
    InvShiftRowsAt(s, r, c);
  }

  /** InvShiftRows undoes ShiftRows. */
  lemma InvShiftRowsShiftRows(s: seq<bv8>)
    requires |s| == 16
    ensures InvShiftRows(ShiftRows(s)) == s
  {
    forall i | 0 <= i < 16
      ensures InvShiftRows(ShiftRows(s))[i] == s[i]
    {
      var r, c := i % 4, i / 4;
      Position(i);
      ShiftSourceInverse(r, c);
      InvShiftRowsAt(ShiftRows(s), r, c);
      ShiftRowsAt(s, r, (c - r) % 4);
    }
  }

  /** ShiftRows undoes InvShiftRows. */
  lemma ShiftRowsInvShiftRows(s: seq<bv8>)
    requires |s| == 16
    ensures ShiftRows(InvShiftRows(s)) == s
  {
    forall i | 0 <= i < 16
      ensures ShiftRows(InvShiftRows(s))[i] == s[i]
    {
      var r, c := i % 4, i / 4;
      Position(i);
      ShiftSourceInverse(r, c);
      ShiftRowsAt(InvShiftRows(s), r, c);
      InvShiftRowsAt(s, r, (c + r) % 4);
    }
  }

  /** Column k of a block built by appending column n - 1 to columns 0 .. n - 2. */
  lemma AppendColumn(prev: seq<bv8>, col: seq<bv8>, n: nat, k: nat, want: seq<bv8>)
    requires |prev| == 4 * (n - 1) && |col| == 4 && k < n
    requires k < n - 1 ==> prev[4 * k..4 * k + 4] == want
    requires k == n - 1 ==> col == want
    ensures (prev + col)[4 * k..4 * k + 4] == want
  {
    if k < n - 1 {
      assert (prev + col)[4 * k..4 * k + 4] == prev[4 * k..4 * k + 4];
    } else {
      assert (prev + col)[4 * k..4 * k + 4] == col;
    }
  }

  /** Column k of MixColumnsUpTo(s, n) is MixColumns of column k of s. */
  lemma {:induction false} MixColumnsUpToColumn(s: seq<bv8>, n: nat, k: nat)
    requires |s| == 16 && k < n <= 4
    ensures MixColumnsUpTo(s, n)[4 * k..4 * k + 4] == Gf.MixColumn(s[4 * k..4 * k + 4])
  {
    var prev := MixColumnsUpTo(s, n - 1);
    var col := Gf.MixColumn(s[4 * (n - 1)..4 * n]);
    assert MixColumnsUpTo(s, n) == prev + col;
    if k < n - 1 {
      MixColumnsUpToColumn(s, n - 1, k);
    } else {
      assert s[4 * (n - 1)..4 * n] == s[4 * k..4 * k + 4];
    }
    AppendColumn(prev, col, n, k, Gf.MixColumn(s[4 * k..4 * k + 4]));
  }

  /** MixColumns works column by column: column k of the result is FIPS-197 MixColumns of column k. */
  lemma MixColumnsColumn(s: seq<bv8>, k: nat)
    requires |s| == 16 && k < 4
    ensures MixColumns(s)[4 * k..4 * k + 4] == Gf.MixColumn(s[4 * k..4 * k + 4])
  {
    MixColumnsUpToColumn(s, 4, k);
  }

  /** Column k of InvMixColumnsUpTo(s, n) is InvMixColumns of column k of s. */
  lemma {:induction false} InvMixColumnsUpToColumn(s: seq<bv8>, n: nat, k: nat)
    requires |s| == 16 && k < n <= 4
    ensures InvMixColumnsUpTo(s, n)[4 * k..4 * k + 4] == Gf.InvMixColumn(s[4 * k..4 * k + 4])
  {
    var prev := InvMixColumnsUpTo(s, n - 1);
    var col := Gf.InvMixColumn(s[4 * (n - 1)..4 * n]);
    assert InvMixColumnsUpTo(s, n) == prev + col;
    if k < n - 1 {
      InvMixColumnsUpToColumn(s, n - 1, k);
    } else {
      assert s[4 * (n - 1)..4 * n] == s[4 * k..4 * k + 4];
    }
    AppendColumn(prev, col, n, k, Gf.InvMixColumn(s[4 * k..4 * k + 4]));
  }

  /** InvMixColumns works column by column. */
  lemma InvMixColumnsColumn(s: seq<bv8>, k: nat)
    requires |s| == 16 && k < 4
    ensures InvMixColumns(s)[4 * k..4 * k + 4] == Gf.InvMixColumn(s[4 * k..4 * k + 4])
  {
    InvMixColumnsUpToColumn(s, 4, k);
  }

  /** InvMixColumns on the first n columns of MixColumns(s) gives back those columns of s. */
  lemma {:induction false} InvMixColumnsUpToMix(s: seq<bv8>, n: nat)
    requires |s| == 16 && n <= 4
    ensures InvMixColumnsUpTo(MixColumns(s), n) == s[..4 * n]
  {
    if n > 0 {
      InvMixColumnsUpToMix(s, n - 1);
      MixColumnsColumn(s, n - 1);
      Gf.InvMixColumnMixColumn(s[4 * (n - 1)..4 * n]);
      assert s[..4 * (n - 1)] + s[4 * (n - 1)..4 * n] == s[..4 * n];
    }
  }

  /** InvMixColumns undoes MixColumns. */
  lemma MixColumnsInverse(s: seq<bv8>)
    requires |s| == 16
    ensures InvMixColumns(MixColumns(s)) == s
  {
    InvMixColumnsUpToMix(s, 4);
  }

  /** A decryption round undoes an encryption round, up to the trailing SubBytes and ShiftRows. */
  lemma InvRoundUndoesRound(e: seq<bv8>, k: seq<bv8>)
    requires |e| == 16 && |k| == 16
    ensures InvRound(ShiftRows(SubBytes(Round(e, k))), k) == ShiftRows(SubBytes(e))
  {
    var x := ShiftRows(SubBytes(e));
    var m := MixColumns(x);
    InvShiftRowsShiftRows(SubBytes(Round(e, k)));
    SubBytesInverse(Round(e, k));
    AddRoundKeyInvolution(m, k);
    MixColumnsInverse(x);
  }

  /** RoundKey at two equal round numbers. */
  lemma RoundKeyAt(xk: seq<bv8>, a: nat, b: nat)
    requires |xk| == ROUNDKEYSIZE && a == b && a <= ROUNDS
    ensures RoundKey(xk, a) == RoundKey(xk, b)
  {
  }

  /** EncRounds at two equal round counts. */
  lemma EncRoundsAt(s: seq<bv8>, xk: seq<bv8>, a: nat, b: nat)
    requires |s| == 16 && |xk| == ROUNDKEYSIZE && a == b && a < ROUNDS
    ensures EncRounds(s, xk, a) == EncRounds(s, xk, b)
  {
  }

  /** DecRounds at two equal round counts. */
  lemma DecRoundsAt(s: seq<bv8>, xk: seq<bv8>, a: nat, b: nat)
    requires |s| == 16 && |xk| == ROUNDKEYSIZE && a == b && a < ROUNDS
    ensures DecRounds(s, xk, a) == DecRounds(s, xk, b)
  {
  }

  /** m + 1 decryption rounds are m of them followed by the one with round key 9 - m. */
  lemma DecRoundsNext(s: seq<bv8>, xk: seq<bv8>, m: nat)
    requires |s| == 16 && |xk| == ROUNDKEYSIZE && m + 1 < ROUNDS
    ensures DecRounds(s, xk, m + 1) == InvRound(DecRounds(s, xk, m), RoundKey(xk, ROUNDS - (m + 1)))
  {
  }

  /** Rounds 1 .. n are rounds 1 .. n - 1 followed by round n. */
  lemma EncRoundsStep(s: seq<bv8>, xk: seq<bv8>, n: nat)
    requires |s| == 16 && |xk| == ROUNDKEYSIZE && 1 <= n < ROUNDS
    ensures EncRounds(s, xk, n) == Round(EncRounds(s, xk, n - 1), RoundKey(xk, n))
  {
  }

  /** n decryption rounds are m = n - 1 of them followed by the one with round key r = 10 - n. */
  lemma DecRoundsStep(s: seq<bv8>, xk: seq<bv8>, m: nat, n: nat, r: nat)
    requires |s| == 16 && |xk| == ROUNDKEYSIZE && n == m + 1 && n < ROUNDS && r == ROUNDS - n
    ensures DecRounds(s, xk, n) == InvRound(DecRounds(s, xk, m), RoundKey(xk, r))
  {
    DecRoundsNext(s, xk, m);
    DecRoundsAt(s, xk, m + 1, n);
    RoundKeyAt(xk, ROUNDS - (m + 1), r);
  }

  /** One more decryption round on x undoes one more encryption round. */
  lemma DecRoundsUndoStep(x: seq<bv8>, s0: seq<bv8>, xk: seq<bv8>, m: nat, n: nat)
    requires |x| == 16 && |s0| == 16 && |xk| == ROUNDKEYSIZE && n == m + 1 && n < ROUNDS
    requires DecRounds(x, xk, m) == ShiftRows(SubBytes(EncRounds(s0, xk, ROUNDS - 1 - m)))
    ensures DecRounds(x, xk, n) == ShiftRows(SubBytes(EncRounds(s0, xk, ROUNDS - 1 - n)))
  {
    var i := ROUNDS - n;
    var e := EncRounds(s0, xk, i - 1);
    var k := RoundKey(xk, i);
    EncRoundsAt(s0, xk, ROUNDS - 1 - m, i);
    EncRoundsStep(s0, xk, i);
    EncRoundsAt(s0, xk, i - 1, ROUNDS - 1 - n);
    DecRoundsStep(x, xk, m, n, i);
    InvRoundUndoesRound(e, k);
  }

  /** After n decryption rounds on the state the last encryption round left, the encryption of round 9 - n is undone. */
  lemma {:induction false} DecRoundsUndo(s0: seq<bv8>, xk: seq<bv8>, n: nat)
    requires |s0| == 16 && |xk| == ROUNDKEYSIZE && n < ROUNDS
    ensures DecRounds(ShiftRows(SubBytes(EncRounds(s0, xk, ROUNDS - 1))), xk, n)
         == ShiftRows(SubBytes(EncRounds(s0, xk, ROUNDS - 1 - n)))
  {
    if n > 0 {
      var m := n - 1;
      DecRoundsUndo(s0, xk, m);
      DecRoundsUndoStep(ShiftRows(SubBytes(EncRounds(s0, xk, ROUNDS - 1))), s0, xk, m, n);
    } else {
      EncRoundsAt(s0, xk, ROUNDS - 1 - n, ROUNDS - 1);
    }
  }

  /** Decryption inverts encryption under the same expanded key. */
  lemma InvCipherCipher(p: seq<bv8>, xk: seq<bv8>)
    requires |p| == 16 && |xk| == ROUNDKEYSIZE
    ensures InvCipher(Cipher(p, xk), xk) == p
  {
    var s0 := AddRoundKey(p, RoundKey(xk, 0));
    var last := ShiftRows(SubBytes(EncRounds(s0, xk, ROUNDS - 1)));
    AddRoundKeyInvolution(last, RoundKey(xk, ROUNDS));
    DecRoundsUndo(s0, xk, ROUNDS - 1);
    InvShiftRowsShiftRows(SubBytes(s0));
    SubBytesInverse(s0);
    AddRoundKeyInvolution(p, RoundKey(xk, 0));
  }

  /** Applying the inverse cipher n times to a block first undoes the outermost application. */
  lemma {:induction false} InvCipherIterPeel(c: seq<bv8>, xk: seq<bv8>, n: nat)
    requires |c| == 16 && |xk| == ROUNDKEYSIZE && n > 0
    ensures InvCipherIter(c, xk, n) == InvCipherIter(InvCipher(c, xk), xk, n - 1)
  {
    if n > 1 {
      InvCipherIterPeel(c, xk, n - 1);
    }
  }

  /** Undoing n encryptions reduces to undoing n - 1 of them. */
  lemma InvCipherIterStep(p: seq<bv8>, xk: seq<bv8>, n: nat)
    requires |p| == 16 && |xk| == ROUNDKEYSIZE && n > 0
    ensures InvCipherIter(CipherIter(p, xk, n), xk, n) == InvCipherIter(CipherIter(p, xk, n - 1), xk, n - 1)
  {
    var c := CipherIter(p, xk, n - 1);
    InvCipherIterPeel(Cipher(c, xk), xk, n);
    InvCipherCipher(c, xk);
  }

  /** n decryptions undo n encryptions of the same block under the same key. */
  lemma InvCipherIterCipherIter(p: seq<bv8>, xk: seq<bv8>, n: nat)
    requires |p| == 16 && |xk| == ROUNDKEYSIZE
    ensures InvCipherIter(CipherIter(p, xk, n), xk, n) == p
  {
    if n > 0 {
      InvCipherIterStep(p, xk, n);
      InvCipherIterCipherIter(p, xk, n - 1);
    }
  }
}
