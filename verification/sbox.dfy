/**
 * The homomorphic S-box and its inverse on one encrypted byte.
 *
 * The byte is split into eight encrypted bits, the bits go through a
 * boolean circuit, and the result bits are put back together.  The forward
 * circuit is run by the gate-program interpreter over SBOX_INSTR; the
 * inverse circuit is straight-line code.  The lemmas show that on plaintext
 * bits both circuits compute the FIPS-197 tables for every byte.
 */
module Sbox {
  import opened Bits
  import opened Circuit
  import opened SboxCircuits
  import opened SboxProgram
  import opened AesTables

  /** The bits in the order the input wires x0 .. x7 are loaded: x_i holds inp[7 - i]. */
  function Reversed<V>(inp: seq<V>): (r: seq<V>)
    requires |inp| == 8
    ensures |r| == 8 && forall i :: 0 <= i < 8 ==> r[i] == inp[7 - i]
  {
    [inp[7], inp[6], inp[5], inp[4], inp[3], inp[2], inp[1], inp[0]]
  }

  /** The output wires read back after the forward circuit, in order: s7, s6, .., s0. */
  function SboxOutputs(): (names: seq<string>)
    ensures |names| == 8
  {
    ["s7", "s6", "s5", "s4", "s3", "s2", "s1", "s0"]
  }

  /** Output i is the wire formatted from 7 - i. */
  lemma SboxOutputNames()
    ensures forall i :: 0 <= i < 8 ==> SboxOutputs()[i] == Name("s", 7 - i)
  {
    assert Name("s", 7) == "s7" && Name("s", 6) == "s6" && Name("s", 5) == "s5" && Name("s", 4) == "s4";
    assert Name("s", 3) == "s3" && Name("s", 2) == "s2" && Name("s", 1) == "s1" && Name("s", 0) == "s0";
  }

  /** Running SBOX_INSTR on the loaded inputs writes the straight-line circuit's bits to s7 .. s0. */
  lemma SboxRunsOn<V>(sk: Engine<V>, inp: seq<V>, m0: map<string, V>)
    requires |inp| == 8 && m0 == Load("x", Reversed(inp))
    ensures Exec(sk, XorAndNot, SBOX_INSTR, 0, m0).Ok?
    ensures var m, out := Exec(sk, XorAndNot, SBOX_INSTR, 0, m0).value, SboxCircuit(sk, inp);
      "s7" in m && m["s7"] == out[0] &&
      "s6" in m && m["s6"] == out[1] &&
      "s5" in m && m["s5"] == out[2] &&
      "s4" in m && m["s4"] == out[3] &&
      "s3" in m && m["s3"] == out[4] &&
      "s2" in m && m["s2"] == out[5] &&
      "s1" in m && m["s1"] == out[6] &&
      "s0" in m && m["s0"] == out[7]
  {
    var rev := Reversed(inp);
    SboxLoad(rev);
    assert [m0["x7"], m0["x6"], m0["x5"], m0["x4"], m0["x3"], m0["x2"], m0["x1"], m0["x0"]] == inp;
    SboxRuns(sk, m0);
  }

  /** Reading s7 .. s0 back from wires that hold them yields them in that order. */
  lemma SboxOutputsOf<V>(m: map<string, V>, out: seq<V>)
    requires |out| == 8
    requires "s7" in m && m["s7"] == out[0] &&
      "s6" in m && m["s6"] == out[1] &&
      "s5" in m && m["s5"] == out[2] &&
      "s4" in m && m["s4"] == out[3] &&
      "s3" in m && m["s3"] == out[4] &&
      "s2" in m && m["s2"] == out[5] &&
      "s1" in m && m["s1"] == out[6] &&
      "s0" in m && m["s0"] == out[7]
    ensures Outputs(m, SboxOutputs()) == Ok(out)
  {
    var o := Outputs(m, SboxOutputs());
    assert o.Ok?;
    assert o.value == out;
  }

  /** The interpreted program and the straight-line circuit agree, for any gates the key provides. */
  lemma SboxInterpreted<V>(sk: Engine<V>, inp: seq<V>)
    requires |inp| == 8
    ensures var r := Exec(sk, XorAndNot, SBOX_INSTR, 0, Load("x", Reversed(inp)));
      r.Ok? && Outputs(r.value, SboxOutputs()) == Ok(SboxCircuit(sk, inp))
  {
    var m0 := Load("x", Reversed(inp));
    SboxRunsOn(sk, inp, m0);
    SboxOutputsOf(Exec(sk, XorAndNot, SBOX_INSTR, 0, m0).value, SboxCircuit(sk, inp));
  }

  /** From loaded inputs the gate list runs to the end and sets s7 .. s0. */
  lemma SboxRunSetsOutputs(inp: seq<bool>)
    requires |inp| == 8
    ensures Run(PLAIN, SBOX_GATES, 0, Load("x", Reversed(inp))).Ok?
    ensures Outputs(Run(PLAIN, SBOX_GATES, 0, Load("x", Reversed(inp))).value, SboxOutputs()).Ok?
  {
    SboxInterpreted(PLAIN, inp);
    SboxText(PLAIN, Load("x", Reversed(inp)));
  }

  /** No output wire is named like an input wire. */
  lemma SboxOutputsNotInputs()
    ensures forall k :: 0 <= k < |SboxOutputs()| ==> |SboxOutputs()[k]| > 0 && SboxOutputs()[k][0] != 'x'
  {
    SboxOutputNames();
    forall k | 0 <= k < |SboxOutputs()|
      ensures |SboxOutputs()[k]| > 0 && SboxOutputs()[k][0] != 'x'
    {
      assert SboxOutputs()[k] == "s" + Decimal(7 - k);
    }
  }

  /**
   * SBOX_INSTR is in dependency order: every operand is an input wire
   * x0 .. x7 or the target of an earlier instruction, so the workers that
   * wait for their operands are always eventually served.  Each output wire
   * s7 .. s0 is the target of an instruction.
   */
  lemma SboxDependencyOrder()
    ensures forall j, o :: 0 <= j < |SBOX_GATES| && o in Operands(SBOX_GATES[j]) ==>
      (exists i :: 0 <= i < 8 && o == Name("x", i)) || exists k :: 0 <= k < j && SBOX_GATES[k].t == o
    ensures forall n :: n in SboxOutputs() ==> exists k :: 0 <= k < |SBOX_GATES| && SBOX_GATES[k].t == n
  {
    assert |[false, false, false, false, false, false, false, false]| == 8;
    var inp: seq<bool> :| |inp| == 8;
    SboxRunSetsOutputs(inp);
    SboxOutputsNotInputs();
    LoadedRunInOrder(PLAIN, SBOX_GATES, "x", Reversed(inp), SboxOutputs());
  }

  /**
   * The forward S-box circuit through the interpreter: wire x_i is loaded
   * with inp[7 - i], SBOX_INSTR runs, and s7 .. s0 are read back.  Whatever
   * the evaluation key's gates are, the result is the straight-line circuit.
   */
  method SboxBc<V>(sk: Engine<V>, inp: seq<V>) returns (r: Result<seq<V>>)
    requires |inp| == 8
    ensures r == Ok(SboxCircuit(sk, inp))
  {
    var wires := LoadWires("x", Reversed(inp));
    SboxInterpreted(sk, inp);
    var run := Interpret(sk, XorAndNot, SBOX_INSTR, wires);
    r := ReadOutputs(run.value, SboxOutputs());
  }

  // The forward circuit on plaintext bits is the S-box table, one row of the table at a time.

  lemma SboxCircuitRow0(x: bv8)
    requires x < 0x10
    ensures SboxCircuit(PLAIN, ToBits(x)) == ToBits(SubByte(x))
  {
  }

  lemma SboxCircuitRow1(x: bv8)
    requires 0x10 <= x < 0x20
    ensures SboxCircuit(PLAIN, ToBits(x)) == ToBits(SubByte(x))
  {
  }

  lemma SboxCircuitRow2(x: bv8)
    requires 0x20 <= x < 0x30
    ensures SboxCircuit(PLAIN, ToBits(x)) == ToBits(SubByte(x))
  {
  }

  lemma SboxCircuitRow3(x: bv8)
    requires 0x30 <= x < 0x40
    ensures SboxCircuit(PLAIN, ToBits(x)) == ToBits(SubByte(x))
  {
  }

  lemma SboxCircuitRow4(x: bv8)
    requires 0x40 <= x < 0x50
    ensures SboxCircuit(PLAIN, ToBits(x)) == ToBits(SubByte(x))
  {
  }

  lemma SboxCircuitRow5(x: bv8)
    requires 0x50 <= x < 0x60
    ensures SboxCircuit(PLAIN, ToBits(x)) == ToBits(SubByte(x))
  {
  }

  lemma SboxCircuitRow6(x: bv8)
    requires 0x60 <= x < 0x70
    ensures SboxCircuit(PLAIN, ToBits(x)) == ToBits(SubByte(x))
  {
  }

  lemma SboxCircuitRow7(x: bv8)
    requires 0x70 <= x < 0x80
    ensures SboxCircuit(PLAIN, ToBits(x)) == ToBits(SubByte(x))
  {
  }

  lemma SboxCircuitRow8(x: bv8)
    requires 0x80 <= x < 0x90
    ensures SboxCircuit(PLAIN, ToBits(x)) == ToBits(SubByte(x))
  {
  }

  lemma SboxCircuitRow9(x: bv8)
    requires 0x90 <= x < 0xa0
    ensures SboxCircuit(PLAIN, ToBits(x)) == ToBits(SubByte(x))
  {
  }

  lemma SboxCircuitRowA(x: bv8)
    requires 0xa0 <= x < 0xb0
    ensures SboxCircuit(PLAIN, ToBits(x)) == ToBits(SubByte(x))
  {
  }

  lemma SboxCircuitRowB(x: bv8)
    requires 0xb0 <= x < 0xc0
    ensures SboxCircuit(PLAIN, ToBits(x)) == ToBits(SubByte(x))
  {
  }

  lemma SboxCircuitRowC(x: bv8)
    requires 0xc0 <= x < 0xd0
    ensures SboxCircuit(PLAIN, ToBits(x)) == ToBits(SubByte(x))
  {
  }

  lemma SboxCircuitRowD(x: bv8)
    requires 0xd0 <= x < 0xe0
    ensures SboxCircuit(PLAIN, ToBits(x)) == ToBits(SubByte(x))
  {
  }

  lemma SboxCircuitRowE(x: bv8)
    requires 0xe0 <= x < 0xf0
    ensures SboxCircuit(PLAIN, ToBits(x)) == ToBits(SubByte(x))
  {
  }

  lemma SboxCircuitRowF(x: bv8)
    requires 0xf0 <= x
    ensures SboxCircuit(PLAIN, ToBits(x)) == ToBits(SubByte(x))
  {
  }

  /** On plaintext bits the forward circuit computes the S-box of FIPS-197 Figure 7, for every byte. */
  lemma SboxCircuitIsSubByte(x: bv8)
    ensures SboxCircuit(PLAIN, ToBits(x)) == ToBits(SubByte(x))
  {
    if x < 0x10 {
      SboxCircuitRow0(x);
    } else if x < 0x20 {
      SboxCircuitRow1(x);
    } else if x < 0x30 {
      SboxCircuitRow2(x);
    } else if x < 0x40 {
      SboxCircuitRow3(x);
    } else if x < 0x50 {
      SboxCircuitRow4(x);
    } else if x < 0x60 {
      SboxCircuitRow5(x);
    } else if x < 0x70 {
      SboxCircuitRow6(x);
    } else if x < 0x80 {
      SboxCircuitRow7(x);
    } else if x < 0x90 {
      SboxCircuitRow8(x);
    } else if x < 0xa0 {
      SboxCircuitRow9(x);
    } else if x < 0xb0 {
      SboxCircuitRowA(x);
    } else if x < 0xc0 {
      SboxCircuitRowB(x);
    } else if x < 0xd0 {
      SboxCircuitRowC(x);
    } else if x < 0xe0 {
      SboxCircuitRowD(x);
    } else if x < 0xf0 {
      SboxCircuitRowE(x);
    } else {
      SboxCircuitRowF(x);
    }
  }

  // The inverse circuit on plaintext bits is the inverse S-box table, a row at a time.

  lemma InvSboxCircuitRow0(y: bv8)
    requires y < 0x10
    ensures InvSboxCircuit(PLAIN, ToBits(y)) == ToBits(InvSubByte(y))
  {
  }

  lemma InvSboxCircuitRow1(y: bv8)
    requires 0x10 <= y < 0x20
    ensures InvSboxCircuit(PLAIN, ToBits(y)) == ToBits(InvSubByte(y))
  {
  }

  lemma InvSboxCircuitRow2(y: bv8)
    requires 0x20 <= y < 0x30
    ensures InvSboxCircuit(PLAIN, ToBits(y)) == ToBits(InvSubByte(y))
  {
  }

  lemma InvSboxCircuitRow3(y: bv8)
    requires 0x30 <= y < 0x40
    ensures InvSboxCircuit(PLAIN, ToBits(y)) == ToBits(InvSubByte(y))
  {
  }

  lemma InvSboxCircuitRow4(y: bv8)
    requires 0x40 <= y < 0x50
    ensures InvSboxCircuit(PLAIN, ToBits(y)) == ToBits(InvSubByte(y))
  {
  }

  lemma InvSboxCircuitRow5(y: bv8)
    requires 0x50 <= y < 0x60
    ensures InvSboxCircuit(PLAIN, ToBits(y)) == ToBits(InvSubByte(y))
  {
  }

  lemma InvSboxCircuitRow6(y: bv8)
    requires 0x60 <= y < 0x70
    ensures InvSboxCircuit(PLAIN, ToBits(y)) == ToBits(InvSubByte(y))
  {
  }

  lemma InvSboxCircuitRow7(y: bv8)
    requires 0x70 <= y < 0x80
    ensures InvSboxCircuit(PLAIN, ToBits(y)) == ToBits(InvSubByte(y))
  {
  }

  lemma InvSboxCircuitRow8(y: bv8)
    requires 0x80 <= y < 0x90
    ensures InvSboxCircuit(PLAIN, ToBits(y)) == ToBits(InvSubByte(y))
  {
  }

  lemma InvSboxCircuitRow9(y: bv8)
    requires 0x90 <= y < 0xa0
    ensures InvSboxCircuit(PLAIN, ToBits(y)) == ToBits(InvSubByte(y))
  {
  }

  lemma InvSboxCircuitRowA(y: bv8)
    requires 0xa0 <= y < 0xb0
    ensures InvSboxCircuit(PLAIN, ToBits(y)) == ToBits(InvSubByte(y))
  {
  }

  lemma InvSboxCircuitRowB(y: bv8)
    requires 0xb0 <= y < 0xc0
    ensures InvSboxCircuit(PLAIN, ToBits(y)) == ToBits(InvSubByte(y))
  {
  }

  lemma InvSboxCircuitRowC(y: bv8)
    requires 0xc0 <= y < 0xd0
    ensures InvSboxCircuit(PLAIN, ToBits(y)) == ToBits(InvSubByte(y))
  {
  }

  lemma InvSboxCircuitRowD(y: bv8)
    requires 0xd0 <= y < 0xe0
    ensures InvSboxCircuit(PLAIN, ToBits(y)) == ToBits(InvSubByte(y))
  {
  }

  lemma InvSboxCircuitRowE(y: bv8)
    requires 0xe0 <= y < 0xf0
    ensures InvSboxCircuit(PLAIN, ToBits(y)) == ToBits(InvSubByte(y))
  {
  }

  lemma InvSboxCircuitRowF(y: bv8)
    requires 0xf0 <= y
    ensures InvSboxCircuit(PLAIN, ToBits(y)) == ToBits(InvSubByte(y))
  {
  }

  /** On plaintext bits the inverse circuit computes the inverse S-box of FIPS-197 Figure 14, for every byte. */
  lemma InvSboxCircuitIsInvSubByte(y: bv8)
    ensures InvSboxCircuit(PLAIN, ToBits(y)) == ToBits(InvSubByte(y))
  {
    if y < 0x10 {
      InvSboxCircuitRow0(y);
    } else if y < 0x20 {
      InvSboxCircuitRow1(y);
    } else if y < 0x30 {
      InvSboxCircuitRow2(y);
    } else if y < 0x40 {
      InvSboxCircuitRow3(y);
    } else if y < 0x50 {
      InvSboxCircuitRow4(y);
    } else if y < 0x60 {
      InvSboxCircuitRow5(y);
    } else if y < 0x70 {
      InvSboxCircuitRow6(y);
    } else if y < 0x80 {
      InvSboxCircuitRow7(y);
    } else if y < 0x90 {
      InvSboxCircuitRow8(y);
    } else if y < 0xa0 {
      InvSboxCircuitRow9(y);
    } else if y < 0xb0 {
      InvSboxCircuitRowA(y);
    } else if y < 0xc0 {
      InvSboxCircuitRowB(y);
    } else if y < 0xd0 {
      InvSboxCircuitRowC(y);
    } else if y < 0xe0 {
      InvSboxCircuitRowD(y);
    } else if y < 0xf0 {
      InvSboxCircuitRowE(y);
    } else {
      InvSboxCircuitRowF(y);
    }
  }

  /** The inverse circuit undoes the forward circuit on every plaintext byte's bits. */
  lemma InvSboxCircuitUndoes(x: bv8)
    ensures InvSboxCircuit(PLAIN, SboxCircuit(PLAIN, ToBits(x))) == ToBits(x)
  {
    SboxCircuitIsSubByte(x);
    InvSboxCircuitIsInvSubByte(SubByte(x));
    InvSubByteSubByte(x);
  }

  /**
   * The S-box on one byte: decompose into bits, run the interpreted circuit,
   * recompose.  The result is the FIPS-197 S-box entry.
   */
  method SboxIdx(x: bv8) returns (y: bv8)
    ensures y == SubByte(x)
  {
    var bits := ToBits(x);
    var r := SboxBc(PLAIN, bits);
    SboxCircuitIsSubByte(x);
    FromToBits(SubByte(x));
    y := FromBits(r.value);
  }

  /**
   * The inverse S-box on one byte: decompose, run the straight-line inverse
   * circuit, recompose.  The result is the FIPS-197 inverse S-box entry.
   */
  method SboxInvIdx(x: bv8) returns (y: bv8)
    ensures y == InvSubByte(x)
    ensures SubByte(y) == x
  {
    var r := InvSboxCircuit(PLAIN, ToBits(x));
    InvSboxCircuitIsInvSubByte(x);
    FromToBits(InvSubByte(x));
    SubByteInvSubByte(x);
    y := FromBits(r);
  }

  /** The inverse S-box on bytes undoes the S-box on bytes. */
  method SboxRoundTrip(x: bv8) returns (z: bv8)
    ensures z == x
  {
    var y := SboxIdx(x);
    InvSubByteSubByte(x);
    z := SboxInvIdx(y);
  }
}
