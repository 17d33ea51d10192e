# AES-128 over homomorphically encrypted bytes: a plaintext model

The repository evaluates AES-128 on bytes encrypted under TFHE. Each state
byte is a radix ciphertext. Three kinds of steps act on it:

- AddRoundKey, ShiftRows, parallel XORs and table lookups work on whole
  encrypted bytes;
- SubBytes and MixColumns take each byte apart into eight encrypted booleans,
  run a fixed boolean circuit, and reassemble the result;
- the circuits are stored as text programs (`SBOX_INSTR`, `MIX_COLS_INSTR`) and
  are run by a small interpreter over named wires.

This project models the plaintext meaning of that code:

- an encrypted byte is a `bv8`;
- an encrypted boolean is a `bool`, or any value `V` when the code does not
  depend on what the gates compute;
- the server key is an `Engine<V>` that supplies XOR, AND and NOT;
- the state is an `array<bv8>` that the round methods update in place, as the
  Rust code updates its `Vec` of ciphertexts.

Every step is proved equal to the corresponding FIPS-197 transformation, and
whole-block encryption is proved equal to the FIPS-197 Cipher. Decryption is
proved to undo encryption, including when it is iterated.

Modules:

| module | file | contents |
|---|---|---|
| `Bits` | bits.dfy | the bit codec: `get_bool_from_u8`, `get_u8_from_bool`, `PS` |
| `Circuit` | circuit.dfy | the instruction interpreter of `sbox_bc`/`mix_cols_bc`: tokenising, one step, a whole program, loading inputs and reading outputs; the gate-level view of a program |
| `SboxProgram`, `MixProgram` | sbox_program.dfy, mix_program.dfy | `SBOX_INSTR` and `MIX_COLS_INSTR` verbatim as data, with proofs that each program runs without fault |
| `SboxCircuits` | sbox_circuits.dfy | the straight-line S-box and inverse S-box circuits (the commented `sbox_bc` and `sbox_inv_bc`) |
| `Sbox` | sbox.dfy | `sbox_bc`, `sbox_inv_bc`, `sbox_idx`, `sbox_inv_idx` and their correctness |
| `Mix` | mix.dfy | `ColBoolBlocks`, `mix_cols_bc`, `mix_cols` and their correctness |
| `AesTables`, `Gf`, `Aes` | aes_tables.dfy, gf.dfy, aes.dfy | the FIPS-197 reference: S-box tables, GF(2^8) arithmetic, the round transformations, Cipher and InvCipher |
| `RdxFhe` | rdx_fhe.dfy | the radix-level rounds and the block encryption and decryption drivers |

## Model

All source paths are relative to the repository root.

| member | source | states |
|---|---|---|
| Bits.MaskIsShift | src/aes128_bool_circ.rs:60-77 | the mask test of `get_bool_from_u8` (`x & PS[i] == PS[i]`) holds exactly when bit i of x is set |
| Bits.FromToBits | src/aes128_bool_circ.rs:60-95 | recomposing the eight booleans that `get_bool_from_u8` produces gives back the original byte, for every byte |
| Bits.ToFromBits | src/aes128_bool_circ.rs:60-95 | decomposing the byte that `get_u8_from_bool` builds gives back the same eight booleans |
| Bits.FromBitsValue | src/aes128_bool_circ.rs:80-95 | the byte that `get_u8_from_bool` builds is the sum of 2^i over the true booleans, so it is below 256 |
| Bits.FromBitsAgree | src/aes128_bool_circ.rs:80-95 | booleans that agree with the bits of y recompose to y |
| Bits.OrFoldOrderFree | src/aes128_bool_circ.rs:93-94 | the OR reduction gives the same byte for any permutation of its inputs |
| Bits.OrFoldAppend | src/aes128_bool_circ.rs:93-94 | reducing two parts separately and OR-ing the partial results gives the reduction of the whole |
| Bits.ReductionIsFoldOfLeaves | src/aes128_bool_circ.rs:93-94 | a reduction tree that splits its input anywhere, starts parts from the identity `v_0` and joins them with OR computes the left fold of its elements |
| Bits.ReductionIsFold | src/aes128_bool_circ.rs:93-94 | any such tree over any rearrangement of the inputs computes the left fold of the inputs, so the parallel `reduce` gives one answer whatever its splitting and order |
| Bits.OrFoldLeastUpperBound | src/aes128_bool_circ.rs:93-94 | the OR reduction covers every input and is below every byte that covers all inputs |
| Bits.OrFoldStep | src/aes128_bool_circ.rs:93-94 | folding one more input ORs it into the running result |
| Bits.OrFold8 | src/aes128_bool_circ.rs:88-94 | the reduction of the eight selected powers, started from `v_0`, is their left-nested OR |
| Circuit.Interpret | src/aes128_bool_circ.rs:157-231 | running the instructions one after another from the first gives the result of the program semantics `Exec`, including its faults |
| Circuit.StepFrame | src/aes128_bool_circ.rs:171-228 | an instruction that succeeds adds or overwrites its target wire and leaves every other wire unchanged |
| Circuit.StepText | src/aes128_bool_circ.rs:171-228 | the text of a gate, tokenised and interpreted, computes what the gate computes (XOR, AND or NOT on the named wires) |
| Circuit.BinTokens | src/aes128_bool_circ.rs:172-175 | splitting `t = a op b` on spaces yields exactly the five tokens |
| Circuit.UnTokens | src/aes128_bool_circ.rs:172-175 | splitting `t = a !` on spaces yields exactly the four tokens |
| Circuit.StepRejects | src/aes128_bool_circ.rs:225 | a five-token instruction `t = a op b` whose operator the interpreter does not know (anything but `^`, `&` and `!` in the S-box program, anything but `^` in the MixColumns program) ends the run with `UnknownOp` |
| Circuit.NotRejected | src/aes128_bool_circ.rs:597 | the four-token NOT instruction `t = a !` ends the MixColumns interpreter's run with `UnknownOp("!")` |
| Circuit.ExecText | src/aes128_bool_circ.rs:157-231 | a program spelled from a gate list runs exactly as the gate list |
| Circuit.ExecAppend | src/aes128_bool_circ.rs:157-231 | running a concatenated program runs the first part, then the second from where it left off, and a fault in the first part is final |
| Circuit.ExecShift | src/aes128_bool_circ.rs:157-231 | resuming a concatenated program inside its second part is running the second part alone |
| Circuit.RunAppend | src/aes128_bool_circ.rs:157-231 | the same decomposition for gate lists |
| Circuit.NameInjective | src/aes128_bool_circ.rs:150-153 | distinct indices give distinct wire names `x{i}`, so loading the inputs never overwrites one input with another |
| Circuit.LoadHolds | src/aes128_bool_circ.rs:150-153 | after loading, wire `x{i}` holds input i, and only such wires exist |
| Circuit.LoadWires | src/aes128_bool_circ.rs:150-153 | the loading loop builds exactly the wire map `Load` |
| Circuit.Outputs | src/aes128_bool_circ.rs:234-245 | reading the outputs succeeds exactly when every output wire is set, and returns their values in order; otherwise it reports the first missing wire |
| Circuit.OutputsOk | src/aes128_bool_circ.rs:234-245 | wires that hold the given values read back as those values |
| Circuit.OutputsAppend | src/aes128_bool_circ.rs:234-245 | reading two groups of output names is reading each group and concatenating |
| Circuit.ReadOutputs | src/aes128_bool_circ.rs:234-245 | the reading loop returns exactly `Outputs` |
| Circuit.FireReads | src/aes128_bool_circ.rs:178-228 | a gate that fires found its operands set and adds exactly its target to the wires |
| Circuit.RunDefinedBefore | src/aes128_bool_circ.rs:157-231 | a run in program order that reaches the end read every operand from the initial wires or from an earlier gate's target, and ends with exactly the initial wires and the targets |
| Circuit.LoadedRunInOrder | src/aes128_bool_circ.rs:150-245 | a program that runs to the end from loaded inputs and sets its outputs is in dependency order for those inputs, and each output is some gate's target |
| SboxProgram.SboxText | src/aes128_bool_circ.rs:655-775 | `SBOX_INSTR` is the text of the S-box gate list and runs as it |
| SboxProgram.SboxRuns | src/aes128_bool_circ.rs:655-775 | from any wires holding `x0`..`x7`, `SBOX_INSTR` runs without fault and sets `s0`..`s7` to the straight-line S-box circuit of the reversed inputs |
| SboxProgram.SboxLoad | src/aes128_bool_circ.rs:150-153 | loading eight values sets `x0`..`x7` |
| Sbox.SboxDependencyOrder | src/aes128_bool_circ.rs:655-775 | every operand in `SBOX_INSTR` is an input `x0`..`x7` or the target of an earlier instruction, and each of `s7`..`s0` is an instruction's target |
| MixProgram.MixColsText | src/aes128_bool_circ.rs:778-871 | `MIX_COLS_INSTR` is the text of the MixColumns gate list and runs as it |
| MixProgram.MixColsRuns | src/aes128_bool_circ.rs:778-871 | from wires holding `x0`..`x31`, `MIX_COLS_INSTR` runs without fault and sets `y0`..`y31` to the XOR circuit's outputs |
| MixProgram.MixColsLoad | src/aes128_bool_circ.rs:535-557 | loading 32 values sets `x0`..`x31` |
| Mix.MixDependencyOrder | src/aes128_bool_circ.rs:778-871 | every operand in `MIX_COLS_INSTR` is an input `x0`..`x31` or the target of an earlier instruction, and each of `y0`..`y31` is an instruction's target |
| Sbox.SboxInterpreted | src/aes128_bool_circ.rs:144-248 | for every engine, interpreting `SBOX_INSTR` on the reversed input bits succeeds, and the outputs read back (reversed) are the straight-line S-box circuit |
| Sbox.SboxBc | src/aes128_bool_circ.rs:144-248 | the interpreter-based `sbox_bc` returns the straight-line S-box circuit for every engine |
| Sbox.SboxCircuitIsSubByte | src/aes128_bool_circ.rs:252-387 | on plaintext booleans the S-box circuit maps the bits of every byte x to the bits of the FIPS-197 S-box of x |
| Sbox.InvSboxCircuitIsInvSubByte | src/aes128_bool_circ.rs:391-528 | on plaintext booleans the inverse S-box circuit maps the bits of every byte to the bits of the FIPS-197 inverse S-box |
| Sbox.InvSboxCircuitUndoes | src/aes128_bool_circ.rs:252-528 | the inverse S-box circuit undoes the S-box circuit on every byte |
| Sbox.SboxIdx | src/aes128_bool_circ.rs:98-107 | decomposing, running `sbox_bc` and recomposing gives the FIPS-197 S-box of every byte |
| Sbox.SboxInvIdx | src/aes128_bool_circ.rs:132-141 | the same with `sbox_inv_bc` gives the inverse S-box, whose S-box is the input again |
| Sbox.SboxRoundTrip | src/aes128_bool_circ.rs:98-141 | `sbox_inv_idx` after `sbox_idx` returns the original byte |
| Mix.Rows | src/aes128_bool_circ.rs:41-57 | `ColBoolBlocks::new` splits 32 booleans into four rows of eight, and flattening them gives the 32 back |
| Mix.MixInterpreted | src/aes128_bool_circ.rs:531-652 | for every engine, interpreting `MIX_COLS_INSTR` on the 32 input bits succeeds, and the outputs `y0`..`y31` are the XOR circuit |
| Mix.MixColsBc | src/aes128_bool_circ.rs:531-652 | `mix_cols_bc` returns the four output rows of the XOR circuit for every engine |
| Mix.MixColsCircuitIsMixColumn | src/aes128_bool_circ.rs:778-871 | on plaintext booleans the XOR circuit on the bits of a column gives the bits of the FIPS-197 MixColumns of that column |
| Mix.MixCols | src/aes128_bool_circ.rs:110-129 | decomposing four bytes, running `mix_cols_bc` and recomposing gives the FIPS-197 MixColumns of the column |
| Gf.MixColumnVectors | tests/aes128_tests.rs:318-436 | the reference MixColumns maps the four test columns to the expected columns |
| Gf.InvMixColumnMixColumn | src/aes128_rdx_fhe.rs:206-247 | InvMixColumns undoes MixColumns on every column (the inverse the decryption's table lookups rely on) |
| Gf.MixColumnLinear | src/aes128_rdx_fhe.rs:178-204 | MixColumns of the XOR of two columns is the XOR of their MixColumns |
| Gf.InvMixColumnLinear | src/aes128_rdx_fhe.rs:206-247 | InvMixColumns of the XOR of two columns is the XOR of their InvMixColumns, which lets the table-based form be summed column by column |
| AesTables.InvSubByteSubByte | tests/aes128_tests.rs:286-316 | the inverse S-box table undoes the S-box table on all 256 bytes |
| AesTables.SubByteInvSubByte | tests/aes128_tests.rs:286-316 | the S-box table undoes the inverse S-box table on all 256 bytes |
| AesTables.SubByteExamples | tests/aes128_tests.rs:286-316 | sample entries of the two tables |
| Aes.AddRoundKeyInvolution | src/aes128_rdx_fhe.rs:17-30 | XORing the same key twice returns the state |
| Aes.AddRoundKeyPrefix | src/aes128_rdx_fhe.rs:267 | XORing with a key longer than the state uses only its first bytes, so the 32-byte slice acts as round key 0 |
| Aes.SubBytesInverse | src/aes128_rdx_fhe.rs:32-63 | InvSubBytes and SubBytes are inverse on states of any length |
| Aes.ShiftRowsMoves | src/aes128_rdx_fhe.rs:65-127 | ShiftRows moves row r left by r columns, InvShiftRows right by r; row 0 stays |
| Aes.InvShiftRowsShiftRows | src/aes128_rdx_fhe.rs:65-127 | InvShiftRows undoes ShiftRows |
| Aes.ShiftRowsInvShiftRows | src/aes128_rdx_fhe.rs:65-127 | ShiftRows undoes InvShiftRows |
| Aes.MixColumnsColumn | src/aes128_rdx_fhe.rs:178-204 | column k of MixColumns is MixColumns of column k alone |
| Aes.InvMixColumnsColumn | src/aes128_rdx_fhe.rs:206-247 | column k of InvMixColumns is InvMixColumns of column k alone |
| Aes.MixColumnsInverse | src/aes128_rdx_fhe.rs:178-247 | InvMixColumns undoes MixColumns on the whole state |
| Aes.InvRoundUndoesRound | src/aes128_rdx_fhe.rs:391-414 | one decryption round undoes one encryption round, up to the SubBytes and ShiftRows that begin the next encryption round |
| Aes.DecRoundsUndo | src/aes128_rdx_fhe.rs:391-414 | n decryption rounds undo the last n encryption rounds |
| Aes.InvCipherCipher | tests/aes128_tests.rs:199-231 | decrypting an encrypted block with the same expanded key returns the block |
| Aes.InvCipherIterCipherIter | src/aes128_rdx_fhe.rs:299-432 | decrypting n times undoes encrypting n times, for every n |
| RdxFhe.AddRoundKeyFhe | src/aes128_rdx_fhe.rs:17-30 | the state becomes the bytewise XOR with the key's first bytes |
| RdxFhe.SubBytesFhe | src/aes128_rdx_fhe.rs:32-46 | every byte is replaced by its S-box value, in place |
| RdxFhe.InvSubBytesFhe | src/aes128_rdx_fhe.rs:48-63 | for an even-length state, every byte is replaced by its inverse S-box value, in place |
| RdxFhe.ShiftRowsTable | src/aes128_rdx_fhe.rs:65-95 | the hard-coded source index of each position is where FIPS-197 ShiftRows takes that byte from |
| RdxFhe.InvShiftRowsTable | src/aes128_rdx_fhe.rs:97-127 | the same for InvShiftRows |
| RdxFhe.ShiftRowsFhe | src/aes128_rdx_fhe.rs:65-95 | the first 16 bytes become their ShiftRows; bytes after them are unchanged |
| RdxFhe.InvShiftRowsFhe | src/aes128_rdx_fhe.rs:97-127 | the first 16 bytes become their InvShiftRows; bytes after them are unchanged |
| RdxFhe.LookupTableAt | src/aes128_rdx_fhe.rs:376-379 | a 256-entry table built from a function gives that function's value at every byte |
| RdxFhe.LutState | src/aes128_rdx_fhe.rs:129-148 | the result is the table entry of each of the 16 bytes |
| RdxFhe.PickAt | src/aes128_rdx_fhe.rs:150-176 | output position r + 4c of `parallel_xor` reads position 4c + idx[r] |
| RdxFhe.ParallelXor | src/aes128_rdx_fhe.rs:150-176 | every output byte is the XOR of the two picked bytes |
| RdxFhe.MixColumnChunk | src/aes128_rdx_fhe.rs:187-201 | column c is replaced by its MixColumns, the other columns are unchanged |
| RdxFhe.MixColumnsFhe | src/aes128_rdx_fhe.rs:178-204 | the state becomes its FIPS-197 MixColumns |
| RdxFhe.InvMixRowLookups | src/aes128_rdx_fhe.rs:218-243 | row r of a column from the four table lookups and three XORs is row r of FIPS-197 InvMixColumns |
| RdxFhe.PickXorLutColumn | src/aes128_rdx_fhe.rs:218-243 | one `parallel_xor` over two looked-up states XORs the two table entries of the picked bytes of each column |
| RdxFhe.InvMixLutRow | src/aes128_rdx_fhe.rs:218-243 | each byte of the table-based InvMixColumns is the XOR of four table entries of its column |
| RdxFhe.InvMixLutIsInvMixColumns | src/aes128_rdx_fhe.rs:206-247 | with the GF(2^8) product tables for 9, 11, 13 and 14, the table-based InvMixColumns equals FIPS-197 InvMixColumns |
| RdxFhe.InvMixColumnsFhe | src/aes128_rdx_fhe.rs:206-247 | the state becomes the table-based InvMixColumns of the given tables |
| RdxFhe.RoundKeySlice | src/aes128_rdx_fhe.rs:267-288 | XORing with the key slice that starts at byte 16r acts as round key r |
| RdxFhe.EncRoundFhe | src/aes128_rdx_fhe.rs:270-282 | one middle round is the FIPS-197 round with round key r |
| RdxFhe.EncRoundsFhe | src/aes128_rdx_fhe.rs:270-282 | rounds 1 to 9 compose to nine FIPS-197 rounds |
| RdxFhe.FinalRoundFhe | src/aes128_rdx_fhe.rs:284-291 | the last round is SubBytes, ShiftRows and AddRoundKey with round key 10 |
| RdxFhe.CipherFhe | src/aes128_rdx_fhe.rs:264-291 | the whole in-place round sequence computes the FIPS-197 Cipher |
| RdxFhe.LoadState | src/aes128_rdx_fhe.rs:256-257 | the working state is a fresh buffer holding a copy of the input block |
| RdxFhe.EncryptOneBlockFhe | src/aes128_rdx_fhe.rs:249-297 | one block's output is the FIPS-197 Cipher of the input under the expanded key |
| RdxFhe.EncryptBlockFhe | src/aes128_rdx_fhe.rs:299-357 | iterating `iter` times gives the Cipher applied `iter` times |
| RdxFhe.InvRoundFhe | src/aes128_rdx_fhe.rs:391-414 | one decryption round is InvShiftRows, InvSubBytes, AddRoundKey with round key r, InvMixColumns |
| RdxFhe.DecRoundsFhe | src/aes128_rdx_fhe.rs:391-414 | rounds 9 down to 1 compose to nine such rounds |
| RdxFhe.InvFinalRoundFhe | src/aes128_rdx_fhe.rs:416-423 | the last step is InvShiftRows, InvSubBytes and AddRoundKey with round key 0 |
| RdxFhe.InvCipherFhe | src/aes128_rdx_fhe.rs:387-423 | the whole in-place decryption sequence computes the FIPS-197 InvCipher |
| RdxFhe.DecryptBlockFhe | src/aes128_rdx_fhe.rs:359-432 | iterating `iter` times gives InvCipher applied `iter` times, which by `Aes.InvCipherIterCipherIter` undoes `EncryptBlockFhe` |

## Left out

- Encryption itself is not modelled. A ciphertext is its plaintext, the client
  and server keys are absent, and `PosVals` is the constant `PS` with `V0`.
  Noise, bootstrapping and the radix encoding belong to the TFHE library.
- Concurrency is not modelled. The `rayon` parallel maps become sequential
  maps, and the reduce of `get_u8_from_bool` becomes a left fold.
  `Bits.ReductionIsFold` shows that any splitting, identity padding and order
  the reduce may use gives that fold.
- The worker threads of `sbox_bc` and `mix_cols_bc` are not modelled. They take
  instructions from a shared counter and sleep-poll the shared map until the
  operands appear. The model runs the instructions in program order.
  - An operand written by a later instruction is eventually supplied to a
    waiting thread, but stops the model with the fault `Stuck`. The model
    matches the source only for programs in dependency order.
  - `Sbox.SboxDependencyOrder` and `Mix.MixDependencyOrder` show that both
    programs are in dependency order. `SboxProgram.SboxRuns` and
    `MixProgram.MixColsRuns` show that both run without fault.
  - The model does not show that every thread interleaving gives the same result.
- SingleAssignment: that no wire is written by two instructions of
  `SBOX_INSTR` or `MIX_COLS_INSTR` is not proved. With two writers the threads
  would race and the last write in program order, which the model keeps,
  might not win. Deciding it would mean comparing every pair of the 119 and
  92 target names, which is beyond what the verifier does cheaply here.
- Timing, `Instant` and the `println!` output of the drivers are left out.
- Key expansion is not part of this model; the drivers take the 176-byte
  expanded key as input.
- The lookup tables and `gen_tbl` are modelled as `RdxFhe.LookupTable` of the
  GF(2^8) products `Gf.Mul9`, `Gf.Mul11`, `Gf.Mul13` and `Gf.Mul14`. The table
  literals file is not part of this model.
- `enc_rdx_vec` and `dec_rdx_vec` are not part of this model. The drivers take
  plaintext blocks and return the output block instead of writing into `dst`.
- The length `assert!`s of the step functions in src/aes128_rdx_fhe.rs become
  `requires` clauses:
  - `inv_sub_bytes_fhe` (even length) becomes
    `RdxFhe.InvSubBytesFhe`'s `requires state.Length % 2 == 0`.
  - `lut_state` (16 bytes) becomes `RdxFhe.LutState`'s
    `requires state.Length == 16`.
  - `parallel_xor` (two index vectors of length 4) becomes
    `RdxFhe.ParallelXor`'s `requires |idx1| == 4 && |idx2| == 4`.
  - `mix_columns_fhe` (16 bytes) becomes `RdxFhe.MixColumnsFhe`'s
    `requires state.Length == 16`.
  - `inv_mix_columns_fhe` (16 bytes) becomes `RdxFhe.InvMixColumnsFhe`'s
    `requires state.Length == 16`.
- Two index-out-of-bounds panics also become `requires` clauses:
  - In `add_round_key_fhe`, `rkey[i]` panics when the key is shorter than the
    state. `RdxFhe.AddRoundKeyFhe` requires `|rkey| >= state.Length`.
  - In `parallel_xor`, `c + idx[p]` panics when an index reaches past the
    looked-up state. `RdxFhe.ParallelXor` requires `PicksInside` for both
    index vectors.
- The `unwrap`s that cannot fail on these fixed programs become proofs that
  they succeed.
- The known-answer vectors of the tests (FIPS-197 appendix C.1, SP 800-38A) are
  not proved. Evaluating ten rounds on literal blocks is beyond what the
  verifier can do here. `Aes.Cipher` follows FIPS-197 step by step, and each
  step is checked against the S-box table and the MixColumns test columns.
- Indexing past the end of a state panics in `shift_rows_fhe` and
  `inv_shift_rows_fhe`. The model requires at least 16 bytes there instead.
  Bytes after the first 16 are left as they are, as in the source.
