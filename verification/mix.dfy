/**
 * The homomorphic MixColumns on one column of four encrypted bytes.
 *
 * Each byte is split into eight encrypted bits (byte k gives wires
 * x(8k) .. x(8k+7), least significant first), the XOR-only program
 * MIX_COLS_INSTR runs through the interpreter, and the wires y(8k) ..
 * y(8k+7) are put back together into output byte k.  The lemmas show that
 * on plaintext bits this is FIPS-197 MixColumns, bit for bit.
 */
module Mix {
  import opened Bits
  import opened Circuit
  import opened MixProgram
  import Gf

  /** The four rows of eight bits a column is carried in, one row per byte. */
  datatype ColBits<V> = ColBits(r1: seq<V>, r2: seq<V>, r3: seq<V>, r4: seq<V>)

  /** Every row holds eight bits. */
  predicate WellSized<V>(c: ColBits<V>)
  {
    |c.r1| == 8 && |c.r2| == 8 && |c.r3| == 8 && |c.r4| == 8
  }

  /** The 32 input bits in wire order: row 1 on x0 .. x7, row 2 on x8 .. x15, and so on. */
  function Flatten<V>(c: ColBits<V>): (s: seq<V>)
    requires WellSized(c)
    ensures |s| == 32
  {
    c.r1 + c.r2 + c.r3 + c.r4
  }

  /** 32 bits cut back into four rows of eight. */
  function Rows<V>(s: seq<V>): (c: ColBits<V>)
    requires |s| == 32
    ensures WellSized(c) && Flatten(c) == s
  {
    ColBits(s[..8], s[8..16], s[16..24], s[24..])
  }

  /** A 32-element sequence is its four quarters put back together. */
  lemma {:induction false} Quarters<V>(s: seq<V>)
    requires |s| == 32
    ensures s[..8] + s[8..16] + s[16..24] + s[24..] == s
  {
  }

  /** The output wires in read-out order, one row of eight per output byte: y0 .. y31. */
  function MixOutputs(): (names: seq<string>)
    ensures |names| == 32
  {
    ["y0", "y1", "y2", "y3", "y4", "y5", "y6", "y7"] +
    ["y8", "y9", "y10", "y11", "y12", "y13", "y14", "y15"] +
    ["y16", "y17", "y18", "y19", "y20", "y21", "y22", "y23"] +
    ["y24", "y25", "y26", "y27", "y28", "y29", "y30", "y31"]
  }


  /** Outputs 0 to 7 are the wires formatted from their indexes. */
  lemma {:induction false} MixOutputNames0()
    ensures forall i :: 0 <= i < 8 ==> MixOutputs()[i] == Name("y", i)
  {
    assert Name("y", 0) == "y0";
    assert Name("y", 1) == "y1";
    assert Name("y", 2) == "y2";
    assert Name("y", 3) == "y3";
    assert Name("y", 4) == "y4";
    assert Name("y", 5) == "y5";
    assert Name("y", 6) == "y6";
    assert Name("y", 7) == "y7";
  }

  /** Outputs 8 to 15 are the wires formatted from their indexes. */
  lemma {:induction false} MixOutputNames1()
    ensures forall i :: 8 <= i < 16 ==> MixOutputs()[i] == Name("y", i)
  {
    assert Name("y", 8) == "y8";
    assert Name("y", 9) == "y9";
    assert Name("y", 10) == "y10";
    assert Name("y", 11) == "y11";
    assert Name("y", 12) == "y12";
    assert Name("y", 13) == "y13";
    assert Name("y", 14) == "y14";
    assert Name("y", 15) == "y15";
  }

  /** Outputs 16 to 23 are the wires formatted from their indexes. */
  lemma {:induction false} MixOutputNames2()
    ensures forall i :: 16 <= i < 24 ==> MixOutputs()[i] == Name("y", i)
  {
    assert Name("y", 16) == "y16";
    assert Name("y", 17) == "y17";
    assert Name("y", 18) == "y18";
    assert Name("y", 19) == "y19";
    assert Name("y", 20) == "y20";
    assert Name("y", 21) == "y21";
    assert Name("y", 22) == "y22";
    assert Name("y", 23) == "y23";
  }

  /** Outputs 24 to 31 are the wires formatted from their indexes. */
  lemma {:induction false} MixOutputNames3()
    ensures forall i :: 24 <= i < 32 ==> MixOutputs()[i] == Name("y", i)
  {
    assert Name("y", 24) == "y24";
    assert Name("y", 25) == "y25";
    assert Name("y", 26) == "y26";
    assert Name("y", 27) == "y27";
    assert Name("y", 28) == "y28";
    assert Name("y", 29) == "y29";
    assert Name("y", 30) == "y30";
    assert Name("y", 31) == "y31";
  }

  /** Output i is the wire formatted from i, as each row's read-out loop formats y(i + 8k). */
  lemma {:induction false} MixOutputNames()
    ensures forall i :: 0 <= i < 32 ==> MixOutputs()[i] == Name("y", i)
  {
    MixOutputNames0();
    MixOutputNames1();
    MixOutputNames2();
    MixOutputNames3();
  }

  /** Running MIX_COLS_INSTR on the loaded inputs writes the circuit's 32 bits to y0 .. y31. */
  lemma {:induction false} MixRunsOn<V>(sk: Engine<V>, inp: seq<V>, m0: map<string, V>)
    requires |inp| == 32 && m0 == Load("x", inp)
    ensures Exec(sk, XorOnly, MIX_COLS_INSTR, 0, m0).Ok?
    ensures var m, out := Exec(sk, XorOnly, MIX_COLS_INSTR, 0, m0).value, MixColsCircuit(sk, inp);
      "y0" in m && m["y0"] == out[0] &&
      "y1" in m && m["y1"] == out[1] &&
      "y2" in m && m["y2"] == out[2] &&
      "y3" in m && m["y3"] == out[3] &&
      "y4" in m && m["y4"] == out[4] &&
      "y5" in m && m["y5"] == out[5] &&
      "y6" in m && m["y6"] == out[6] &&
      "y7" in m && m["y7"] == out[7] &&
      "y8" in m && m["y8"] == out[8] &&
      "y9" in m && m["y9"] == out[9] &&
      "y10" in m && m["y10"] == out[10] &&
      "y11" in m && m["y11"] == out[11] &&
      "y12" in m && m["y12"] == out[12] &&
      "y13" in m && m["y13"] == out[13] &&
      "y14" in m && m["y14"] == out[14] &&
      "y15" in m && m["y15"] == out[15] &&
      "y16" in m && m["y16"] == out[16] &&
      "y17" in m && m["y17"] == out[17] &&
      "y18" in m && m["y18"] == out[18] &&
      "y19" in m && m["y19"] == out[19] &&
      "y20" in m && m["y20"] == out[20] &&
      "y21" in m && m["y21"] == out[21] &&
      "y22" in m && m["y22"] == out[22] &&
      "y23" in m && m["y23"] == out[23] &&
      "y24" in m && m["y24"] == out[24] &&
      "y25" in m && m["y25"] == out[25] &&
      "y26" in m && m["y26"] == out[26] &&
      "y27" in m && m["y27"] == out[27] &&
      "y28" in m && m["y28"] == out[28] &&
      "y29" in m && m["y29"] == out[29] &&
      "y30" in m && m["y30"] == out[30] &&
      "y31" in m && m["y31"] == out[31]
  {
    MixColsLoad(inp);
    MixColsRuns(sk, inp, m0);
  }

  /** Reading row 0 back (y0 .. y7) from wires that hold them yields them in that order. */
  lemma {:induction false} MixRowOutputsOf0<V>(m: map<string, V>, out: seq<V>)
    requires |out| == 32
    requires
      "y0" in m && m["y0"] == out[0] &&
      "y1" in m && m["y1"] == out[1] &&
      "y2" in m && m["y2"] == out[2] &&
      "y3" in m && m["y3"] == out[3] &&
      "y4" in m && m["y4"] == out[4] &&
      "y5" in m && m["y5"] == out[5] &&
      "y6" in m && m["y6"] == out[6] &&
      "y7" in m && m["y7"] == out[7]
    ensures Outputs(m, ["y0", "y1", "y2", "y3", "y4", "y5", "y6", "y7"]) == Ok(out[..8])
  {
    var o := Outputs(m, ["y0", "y1", "y2", "y3", "y4", "y5", "y6", "y7"]);
    assert o.Ok?;
    assert o.value == out[..8];
  }

  /** Reading row 1 back (y8 .. y15) from wires that hold them yields them in that order. */
  lemma {:induction false} MixRowOutputsOf1<V>(m: map<string, V>, out: seq<V>)
    requires |out| == 32
    requires
      "y8" in m && m["y8"] == out[8] &&
      "y9" in m && m["y9"] == out[9] &&
      "y10" in m && m["y10"] == out[10] &&
      "y11" in m && m["y11"] == out[11] &&
      "y12" in m && m["y12"] == out[12] &&
      "y13" in m && m["y13"] == out[13] &&
      "y14" in m && m["y14"] == out[14] &&
      "y15" in m && m["y15"] == out[15]
    ensures Outputs(m, ["y8", "y9", "y10", "y11", "y12", "y13", "y14", "y15"]) == Ok(out[8..16])
  {
    var o := Outputs(m, ["y8", "y9", "y10", "y11", "y12", "y13", "y14", "y15"]);
    assert o.Ok?;
    assert o.value == out[8..16];
  }

  /** Reading row 2 back (y16 .. y23) from wires that hold them yields them in that order. */
  lemma {:induction false} MixRowOutputsOf2<V>(m: map<string, V>, out: seq<V>)
    requires |out| == 32
    requires
      "y16" in m && m["y16"] == out[16] &&
      "y17" in m && m["y17"] == out[17] &&
      "y18" in m && m["y18"] == out[18] &&
      "y19" in m && m["y19"] == out[19] &&
      "y20" in m && m["y20"] == out[20] &&
      "y21" in m && m["y21"] == out[21] &&
      "y22" in m && m["y22"] == out[22] &&
      "y23" in m && m["y23"] == out[23]
    ensures Outputs(m, ["y16", "y17", "y18", "y19", "y20", "y21", "y22", "y23"]) == Ok(out[16..24])
  {
    var o := Outputs(m, ["y16", "y17", "y18", "y19", "y20", "y21", "y22", "y23"]);
    assert o.Ok?;
    assert o.value == out[16..24];
  }

  /** Reading row 3 back (y24 .. y31) from wires that hold them yields them in that order. */
  lemma {:induction false} MixRowOutputsOf3<V>(m: map<string, V>, out: seq<V>)
    requires |out| == 32
    requires
      "y24" in m && m["y24"] == out[24] &&
      "y25" in m && m["y25"] == out[25] &&
      "y26" in m && m["y26"] == out[26] &&
      "y27" in m && m["y27"] == out[27] &&
      "y28" in m && m["y28"] == out[28] &&
      "y29" in m && m["y29"] == out[29] &&
      "y30" in m && m["y30"] == out[30] &&
      "y31" in m && m["y31"] == out[31]
    ensures Outputs(m, ["y24", "y25", "y26", "y27", "y28", "y29", "y30", "y31"]) == Ok(out[24..])
  {
    var o := Outputs(m, ["y24", "y25", "y26", "y27", "y28", "y29", "y30", "y31"]);
    assert o.Ok?;
    assert o.value == out[24..];
  }

  /** Reading y0 .. y31 back from wires that hold them yields them in that order. */
  lemma {:induction false} MixOutputsOf<V>(m: map<string, V>, out: seq<V>)
    requires |out| == 32
    requires
      "y0" in m && m["y0"] == out[0] &&
      "y1" in m && m["y1"] == out[1] &&
      "y2" in m && m["y2"] == out[2] &&
      "y3" in m && m["y3"] == out[3] &&
      "y4" in m && m["y4"] == out[4] &&
      "y5" in m && m["y5"] == out[5] &&
      "y6" in m && m["y6"] == out[6] &&
      "y7" in m && m["y7"] == out[7] &&
      "y8" in m && m["y8"] == out[8] &&
      "y9" in m && m["y9"] == out[9] &&
      "y10" in m && m["y10"] == out[10] &&
      "y11" in m && m["y11"] == out[11] &&
      "y12" in m && m["y12"] == out[12] &&
      "y13" in m && m["y13"] == out[13] &&
      "y14" in m && m["y14"] == out[14] &&
      "y15" in m && m["y15"] == out[15] &&
      "y16" in m && m["y16"] == out[16] &&
      "y17" in m && m["y17"] == out[17] &&
      "y18" in m && m["y18"] == out[18] &&
      "y19" in m && m["y19"] == out[19] &&
      "y20" in m && m["y20"] == out[20] &&
      "y21" in m && m["y21"] == out[21] &&
      "y22" in m && m["y22"] == out[22] &&
      "y23" in m && m["y23"] == out[23] &&
      "y24" in m && m["y24"] == out[24] &&
      "y25" in m && m["y25"] == out[25] &&
      "y26" in m && m["y26"] == out[26] &&
      "y27" in m && m["y27"] == out[27] &&
      "y28" in m && m["y28"] == out[28] &&
      "y29" in m && m["y29"] == out[29] &&
      "y30" in m && m["y30"] == out[30] &&
      "y31" in m && m["y31"] == out[31]
    ensures Outputs(m, MixOutputs()) == Ok(out)
  {
    MixRowOutputsOf0(m, out);
    MixRowOutputsOf1(m, out);
    MixRowOutputsOf2(m, out);
    MixRowOutputsOf3(m, out);
    var r0, r1, r2, r3 := ["y0", "y1", "y2", "y3", "y4", "y5", "y6", "y7"], ["y8", "y9", "y10", "y11", "y12", "y13", "y14", "y15"], ["y16", "y17", "y18", "y19", "y20", "y21", "y22", "y23"], ["y24", "y25", "y26", "y27", "y28", "y29", "y30", "y31"];
    OutputsAppend(m, r0, r1);
    OutputsAppend(m, r0 + r1, r2);
    OutputsAppend(m, r0 + r1 + r2, r3);
    Quarters(out);
  }

  /** The interpreted program and the straight-line XOR circuit agree, for any gates the key provides. */
  lemma {:induction false} MixInterpreted<V>(sk: Engine<V>, inp: seq<V>)
    requires |inp| == 32
    ensures var r := Exec(sk, XorOnly, MIX_COLS_INSTR, 0, Load("x", inp));
      r.Ok? && Outputs(r.value, MixOutputs()) == Ok(MixColsCircuit(sk, inp))
  {
    var m0 := Load("x", inp);
    MixRunsOn(sk, inp, m0);
    MixOutputsOf(Exec(sk, XorOnly, MIX_COLS_INSTR, 0, m0).value, MixColsCircuit(sk, inp));
  }

  /** From loaded inputs the gate list runs to the end and sets y0 .. y31. */
  lemma {:induction false} MixRunSetsOutputs(inp: seq<bool>)
    requires |inp| == 32
    ensures Run(PLAIN, MIX_COLS_GATES, 0, Load("x", inp)).Ok?
    ensures Outputs(Run(PLAIN, MIX_COLS_GATES, 0, Load("x", inp)).value, MixOutputs()).Ok?
  {
    MixInterpreted(PLAIN, inp);
    MixColsText(PLAIN, Load("x", inp));
  }

  /** No output wire is named like an input wire. */
  lemma {:induction false} MixOutputsNotInputs()
    ensures forall k :: 0 <= k < |MixOutputs()| ==> |MixOutputs()[k]| > 0 && MixOutputs()[k][0] != 'x'
  {
    MixOutputNames();
    forall k | 0 <= k < |MixOutputs()|
      ensures |MixOutputs()[k]| > 0 && MixOutputs()[k][0] != 'x'
    {
      assert MixOutputs()[k] == "y" + Decimal(k);
    }
  }

  /**
   * MIX_COLS_INSTR is in dependency order: every operand is an input wire
   * x0 .. x31 or the target of an earlier instruction, so the workers that
   * wait for their operands are always eventually served.  Each output wire
   * y0 .. y31 is the target of an instruction.
   */
  lemma {:induction false} MixDependencyOrder()
    ensures forall j, o :: 0 <= j < |MIX_COLS_GATES| && o in Operands(MIX_COLS_GATES[j]) ==>
      (exists i :: 0 <= i < 32 && o == Name("x", i)) || exists k :: 0 <= k < j && MIX_COLS_GATES[k].t == o
    ensures forall n :: n in MixOutputs() ==> exists k :: 0 <= k < |MIX_COLS_GATES| && MIX_COLS_GATES[k].t == n
  {
    assert |[false, false, false, false, false, false, false, false, false, false, false, false, false, false, false, false, false, false, false, false, false, false, false, false, false, false, false, false, false, false, false, false]| == 32;
    var inp: seq<bool> :| |inp| == 32;
    MixRunSetsOutputs(inp);
    MixOutputsNotInputs();
    LoadedRunInOrder(PLAIN, MIX_COLS_GATES, "x", inp, MixOutputs());
  }

  /**
   * MixColumns on encrypted bits through the interpreter: the four rows are
   * loaded on x0 .. x31, MIX_COLS_INSTR runs, and y0 .. y31 are read back
   * as four rows.  Whatever the key's XOR gate is, the result is the XOR circuit.
   */
  method MixColsBc<V>(sk: Engine<V>, col: ColBits<V>) returns (r: Result<ColBits<V>>)
    requires WellSized(col)
    ensures r == Ok(Rows(MixColsCircuit(sk, Flatten(col))))
  {
    var wires := LoadWires("x", Flatten(col));
    MixInterpreted(sk, Flatten(col));
    var run := Interpret(sk, XorOnly, MIX_COLS_INSTR, wires);
    var outs := ReadOutputs(run.value, MixOutputs());
    r := Ok(Rows(outs.value));
  }

  /*
   * The XOR circuit, bit by bit: on plaintext rows w, x, y, z (the bits of
   * bytes 0 .. 3 of a column), output bit j is the XOR of five or seven
   * input bits.
   */

  lemma {:induction false} CircuitBit0(w: seq<bool>, x: seq<bool>, y: seq<bool>, z: seq<bool>)
    requires |w| == 8 && |x| == 8 && |y| == 8 && |z| == 8
    ensures MixColsCircuit(PLAIN, w + x + y + z)[0] == ((((w[7] != x[0]) != x[7]) != y[0]) != z[0])
  {
  }

  lemma {:induction false} CircuitBit1(w: seq<bool>, x: seq<bool>, y: seq<bool>, z: seq<bool>)
    requires |w| == 8 && |x| == 8 && |y| == 8 && |z| == 8
    ensures MixColsCircuit(PLAIN, w + x + y + z)[1] == ((((((w[0] != w[7]) != x[0]) != x[1]) != x[7]) != y[1]) != z[1])
  {
  }

  lemma {:induction false} CircuitBit2(w: seq<bool>, x: seq<bool>, y: seq<bool>, z: seq<bool>)
    requires |w| == 8 && |x| == 8 && |y| == 8 && |z| == 8
    ensures MixColsCircuit(PLAIN, w + x + y + z)[2] == ((((w[1] != x[1]) != x[2]) != y[2]) != z[2])
  {
  }

  lemma {:induction false} CircuitBit3(w: seq<bool>, x: seq<bool>, y: seq<bool>, z: seq<bool>)
    requires |w| == 8 && |x| == 8 && |y| == 8 && |z| == 8
    ensures MixColsCircuit(PLAIN, w + x + y + z)[3] == ((((((w[2] != w[7]) != x[2]) != x[3]) != x[7]) != y[3]) != z[3])
  {
  }

  lemma {:induction false} CircuitBit4(w: seq<bool>, x: seq<bool>, y: seq<bool>, z: seq<bool>)
    requires |w| == 8 && |x| == 8 && |y| == 8 && |z| == 8
    ensures MixColsCircuit(PLAIN, w + x + y + z)[4] == ((((((w[3] != w[7]) != x[3]) != x[4]) != x[7]) != y[4]) != z[4])
  {
  }

  lemma {:induction false} CircuitBit5(w: seq<bool>, x: seq<bool>, y: seq<bool>, z: seq<bool>)
    requires |w| == 8 && |x| == 8 && |y| == 8 && |z| == 8
    ensures MixColsCircuit(PLAIN, w + x + y + z)[5] == ((((w[4] != x[4]) != x[5]) != y[5]) != z[5])
  {
  }

  lemma {:induction false} CircuitBit6(w: seq<bool>, x: seq<bool>, y: seq<bool>, z: seq<bool>)
    requires |w| == 8 && |x| == 8 && |y| == 8 && |z| == 8
    ensures MixColsCircuit(PLAIN, w + x + y + z)[6] == ((((w[5] != x[5]) != x[6]) != y[6]) != z[6])
  {
  }

  lemma {:induction false} CircuitBit7(w: seq<bool>, x: seq<bool>, y: seq<bool>, z: seq<bool>)
    requires |w| == 8 && |x| == 8 && |y| == 8 && |z| == 8
    ensures MixColsCircuit(PLAIN, w + x + y + z)[7] == ((((w[6] != x[6]) != x[7]) != y[7]) != z[7])
  {
  }

  lemma {:induction false} CircuitBit8(w: seq<bool>, x: seq<bool>, y: seq<bool>, z: seq<bool>)
    requires |w| == 8 && |x| == 8 && |y| == 8 && |z| == 8
    ensures MixColsCircuit(PLAIN, w + x + y + z)[8] == ((((w[0] != x[7]) != y[0]) != y[7]) != z[0])
  {
  }

  lemma {:induction false} CircuitBit9(w: seq<bool>, x: seq<bool>, y: seq<bool>, z: seq<bool>)
    requires |w| == 8 && |x| == 8 && |y| == 8 && |z| == 8
    ensures MixColsCircuit(PLAIN, w + x + y + z)[9] == ((((((w[1] != x[0]) != x[7]) != y[0]) != y[1]) != y[7]) != z[1])
  {
  }

  lemma {:induction false} CircuitBit10(w: seq<bool>, x: seq<bool>, y: seq<bool>, z: seq<bool>)
    requires |w| == 8 && |x| == 8 && |y| == 8 && |z| == 8
    ensures MixColsCircuit(PLAIN, w + x + y + z)[10] == ((((w[2] != x[1]) != y[1]) != y[2]) != z[2])
  {
  }

  lemma {:induction false} CircuitBit11(w: seq<bool>, x: seq<bool>, y: seq<bool>, z: seq<bool>)
    requires |w| == 8 && |x| == 8 && |y| == 8 && |z| == 8
    ensures MixColsCircuit(PLAIN, w + x + y + z)[11] == ((((((w[3] != x[2]) != x[7]) != y[2]) != y[3]) != y[7]) != z[3])
  {
  }

  lemma {:induction false} CircuitBit12(w: seq<bool>, x: seq<bool>, y: seq<bool>, z: seq<bool>)
    requires |w| == 8 && |x| == 8 && |y| == 8 && |z| == 8
    ensures MixColsCircuit(PLAIN, w + x + y + z)[12] == ((((((w[4] != x[3]) != x[7]) != y[3]) != y[4]) != y[7]) != z[4])
  {
  }

  lemma {:induction false} CircuitBit13(w: seq<bool>, x: seq<bool>, y: seq<bool>, z: seq<bool>)
    requires |w| == 8 && |x| == 8 && |y| == 8 && |z| == 8
    ensures MixColsCircuit(PLAIN, w + x + y + z)[13] == ((((w[5] != x[4]) != y[4]) != y[5]) != z[5])
  {
  }

  lemma {:induction false} CircuitBit14(w: seq<bool>, x: seq<bool>, y: seq<bool>, z: seq<bool>)
    requires |w| == 8 && |x| == 8 && |y| == 8 && |z| == 8
    ensures MixColsCircuit(PLAIN, w + x + y + z)[14] == ((((w[6] != x[5]) != y[5]) != y[6]) != z[6])
  {
  }

  lemma {:induction false} CircuitBit15(w: seq<bool>, x: seq<bool>, y: seq<bool>, z: seq<bool>)
    requires |w| == 8 && |x| == 8 && |y| == 8 && |z| == 8
    ensures MixColsCircuit(PLAIN, w + x + y + z)[15] == ((((w[7] != x[6]) != y[6]) != y[7]) != z[7])
  {
  }

  lemma {:induction false} CircuitBit16(w: seq<bool>, x: seq<bool>, y: seq<bool>, z: seq<bool>)
    requires |w| == 8 && |x| == 8 && |y| == 8 && |z| == 8
    ensures MixColsCircuit(PLAIN, w + x + y + z)[16] == ((((w[0] != x[0]) != y[7]) != z[0]) != z[7])
  {
  }

  lemma {:induction false} CircuitBit17(w: seq<bool>, x: seq<bool>, y: seq<bool>, z: seq<bool>)
    requires |w| == 8 && |x| == 8 && |y| == 8 && |z| == 8
    ensures MixColsCircuit(PLAIN, w + x + y + z)[17] == ((((((w[1] != x[1]) != y[0]) != y[7]) != z[0]) != z[1]) != z[7])
  {
  }

  lemma {:induction false} CircuitBit18(w: seq<bool>, x: seq<bool>, y: seq<bool>, z: seq<bool>)
    requires |w| == 8 && |x| == 8 && |y| == 8 && |z| == 8
    ensures MixColsCircuit(PLAIN, w + x + y + z)[18] == ((((w[2] != x[2]) != y[1]) != z[1]) != z[2])
  {
  }

  lemma {:induction false} CircuitBit19(w: seq<bool>, x: seq<bool>, y: seq<bool>, z: seq<bool>)
    requires |w| == 8 && |x| == 8 && |y| == 8 && |z| == 8
    ensures MixColsCircuit(PLAIN, w + x + y + z)[19] == ((((((w[3] != x[3]) != y[2]) != y[7]) != z[2]) != z[3]) != z[7])
  {
  }

  lemma {:induction false} CircuitBit20(w: seq<bool>, x: seq<bool>, y: seq<bool>, z: seq<bool>)
    requires |w| == 8 && |x| == 8 && |y| == 8 && |z| == 8
    ensures MixColsCircuit(PLAIN, w + x + y + z)[20] == ((((((w[4] != x[4]) != y[3]) != y[7]) != z[3]) != z[4]) != z[7])
  {
  }

  lemma {:induction false} CircuitBit21(w: seq<bool>, x: seq<bool>, y: seq<bool>, z: seq<bool>)
    requires |w| == 8 && |x| == 8 && |y| == 8 && |z| == 8
    ensures MixColsCircuit(PLAIN, w + x + y + z)[21] == ((((w[5] != x[5]) != y[4]) != z[4]) != z[5])
  {
  }

  lemma {:induction false} CircuitBit22(w: seq<bool>, x: seq<bool>, y: seq<bool>, z: seq<bool>)
    requires |w| == 8 && |x| == 8 && |y| == 8 && |z| == 8
    ensures MixColsCircuit(PLAIN, w + x + y + z)[22] == ((((w[6] != x[6]) != y[5]) != z[5]) != z[6])
  {
  }

  lemma {:induction false} CircuitBit23(w: seq<bool>, x: seq<bool>, y: seq<bool>, z: seq<bool>)
    requires |w| == 8 && |x| == 8 && |y| == 8 && |z| == 8
    ensures MixColsCircuit(PLAIN, w + x + y + z)[23] == ((((w[7] != x[7]) != y[6]) != z[6]) != z[7])
  {
  }

  lemma {:induction false} CircuitBit24(w: seq<bool>, x: seq<bool>, y: seq<bool>, z: seq<bool>)
    requires |w| == 8 && |x| == 8 && |y| == 8 && |z| == 8
    ensures MixColsCircuit(PLAIN, w + x + y + z)[24] == ((((w[0] != w[7]) != x[0]) != y[0]) != z[7])
  {
  }

  lemma {:induction false} CircuitBit25(w: seq<bool>, x: seq<bool>, y: seq<bool>, z: seq<bool>)
    requires |w| == 8 && |x| == 8 && |y| == 8 && |z| == 8
    ensures MixColsCircuit(PLAIN, w + x + y + z)[25] == ((((((w[0] != w[1]) != w[7]) != x[1]) != y[1]) != z[0]) != z[7])
  {
  }

  lemma {:induction false} CircuitBit26(w: seq<bool>, x: seq<bool>, y: seq<bool>, z: seq<bool>)
    requires |w| == 8 && |x| == 8 && |y| == 8 && |z| == 8
    ensures MixColsCircuit(PLAIN, w + x + y + z)[26] == ((((w[1] != w[2]) != x[2]) != y[2]) != z[1])
  {
  }

  lemma {:induction false} CircuitBit27(w: seq<bool>, x: seq<bool>, y: seq<bool>, z: seq<bool>)
    requires |w| == 8 && |x| == 8 && |y| == 8 && |z| == 8
    ensures MixColsCircuit(PLAIN, w + x + y + z)[27] == ((((((w[2] != w[3]) != w[7]) != x[3]) != y[3]) != z[2]) != z[7])
  {
  }

  lemma {:induction false} CircuitBit28(w: seq<bool>, x: seq<bool>, y: seq<bool>, z: seq<bool>)
    requires |w| == 8 && |x| == 8 && |y| == 8 && |z| == 8
    ensures MixColsCircuit(PLAIN, w + x + y + z)[28] == ((((((w[3] != w[4]) != w[7]) != x[4]) != y[4]) != z[3]) != z[7])
  {
  }

  lemma {:induction false} CircuitBit29(w: seq<bool>, x: seq<bool>, y: seq<bool>, z: seq<bool>)
    requires |w| == 8 && |x| == 8 && |y| == 8 && |z| == 8
    ensures MixColsCircuit(PLAIN, w + x + y + z)[29] == ((((w[4] != w[5]) != x[5]) != y[5]) != z[4])
  {
  }

  lemma {:induction false} CircuitBit30(w: seq<bool>, x: seq<bool>, y: seq<bool>, z: seq<bool>)
    requires |w| == 8 && |x| == 8 && |y| == 8 && |z| == 8
    ensures MixColsCircuit(PLAIN, w + x + y + z)[30] == ((((w[5] != w[6]) != x[6]) != y[6]) != z[5])
  {
  }

  lemma {:induction false} CircuitBit31(w: seq<bool>, x: seq<bool>, y: seq<bool>, z: seq<bool>)
    requires |w| == 8 && |x| == 8 && |y| == 8 && |z| == 8
    ensures MixColsCircuit(PLAIN, w + x + y + z)[31] == ((((w[6] != w[7]) != x[7]) != y[7]) != z[6])
  {
  }

  /*
   * FIPS-197 MixColumns, bit by bit: bit i of output byte k of the column
   * (a, b, d, e) is the XOR of five or seven bits of the input bytes.
   */

  lemma {:induction false} MixColumnBit0(a: bv8, b: bv8, d: bv8, e: bv8)
    ensures BitSet(Gf.Xor(Gf.Xor(Gf.Xor(Gf.Mul2(a), Gf.Mul3(b)), d), e), 0) == ((((BitSet(a, 7) != BitSet(b, 0)) != BitSet(b, 7)) != BitSet(d, 0)) != BitSet(e, 0))
  {
  }

  lemma {:induction false} MixColumnBit1(a: bv8, b: bv8, d: bv8, e: bv8)
    ensures BitSet(Gf.Xor(Gf.Xor(Gf.Xor(Gf.Mul2(a), Gf.Mul3(b)), d), e), 1) == ((((((BitSet(a, 0) != BitSet(a, 7)) != BitSet(b, 0)) != BitSet(b, 1)) != BitSet(b, 7)) != BitSet(d, 1)) != BitSet(e, 1))
  {
  }

  lemma {:induction false} MixColumnBit2(a: bv8, b: bv8, d: bv8, e: bv8)
    ensures BitSet(Gf.Xor(Gf.Xor(Gf.Xor(Gf.Mul2(a), Gf.Mul3(b)), d), e), 2) == ((((BitSet(a, 1) != BitSet(b, 1)) != BitSet(b, 2)) != BitSet(d, 2)) != BitSet(e, 2))
  {
  }

  lemma {:induction false} MixColumnBit3(a: bv8, b: bv8, d: bv8, e: bv8)
    ensures BitSet(Gf.Xor(Gf.Xor(Gf.Xor(Gf.Mul2(a), Gf.Mul3(b)), d), e), 3) == ((((((BitSet(a, 2) != BitSet(a, 7)) != BitSet(b, 2)) != BitSet(b, 3)) != BitSet(b, 7)) != BitSet(d, 3)) != BitSet(e, 3))
  {
  }

  lemma {:induction false} MixColumnBit4(a: bv8, b: bv8, d: bv8, e: bv8)
    ensures BitSet(Gf.Xor(Gf.Xor(Gf.Xor(Gf.Mul2(a), Gf.Mul3(b)), d), e), 4) == ((((((BitSet(a, 3) != BitSet(a, 7)) != BitSet(b, 3)) != BitSet(b, 4)) != BitSet(b, 7)) != BitSet(d, 4)) != BitSet(e, 4))
  {
  }

  lemma {:induction false} MixColumnBit5(a: bv8, b: bv8, d: bv8, e: bv8)
    ensures BitSet(Gf.Xor(Gf.Xor(Gf.Xor(Gf.Mul2(a), Gf.Mul3(b)), d), e), 5) == ((((BitSet(a, 4) != BitSet(b, 4)) != BitSet(b, 5)) != BitSet(d, 5)) != BitSet(e, 5))
  {
  }

  lemma {:induction false} MixColumnBit6(a: bv8, b: bv8, d: bv8, e: bv8)
    ensures BitSet(Gf.Xor(Gf.Xor(Gf.Xor(Gf.Mul2(a), Gf.Mul3(b)), d), e), 6) == ((((BitSet(a, 5) != BitSet(b, 5)) != BitSet(b, 6)) != BitSet(d, 6)) != BitSet(e, 6))
  {
  }

  lemma {:induction false} MixColumnBit7(a: bv8, b: bv8, d: bv8, e: bv8)
    ensures BitSet(Gf.Xor(Gf.Xor(Gf.Xor(Gf.Mul2(a), Gf.Mul3(b)), d), e), 7) == ((((BitSet(a, 6) != BitSet(b, 6)) != BitSet(b, 7)) != BitSet(d, 7)) != BitSet(e, 7))
  {
  }

  lemma {:induction false} MixColumnBit8(a: bv8, b: bv8, d: bv8, e: bv8)
    ensures BitSet(Gf.Xor(Gf.Xor(Gf.Xor(a, Gf.Mul2(b)), Gf.Mul3(d)), e), 0) == ((((BitSet(a, 0) != BitSet(b, 7)) != BitSet(d, 0)) != BitSet(d, 7)) != BitSet(e, 0))
  {
  }

  lemma {:induction false} MixColumnBit9(a: bv8, b: bv8, d: bv8, e: bv8)
    ensures BitSet(Gf.Xor(Gf.Xor(Gf.Xor(a, Gf.Mul2(b)), Gf.Mul3(d)), e), 1) == ((((((BitSet(a, 1) != BitSet(b, 0)) != BitSet(b, 7)) != BitSet(d, 0)) != BitSet(d, 1)) != BitSet(d, 7)) != BitSet(e, 1))
  {
  }

  lemma {:induction false} MixColumnBit10(a: bv8, b: bv8, d: bv8, e: bv8)
    ensures BitSet(Gf.Xor(Gf.Xor(Gf.Xor(a, Gf.Mul2(b)), Gf.Mul3(d)), e), 2) == ((((BitSet(a, 2) != BitSet(b, 1)) != BitSet(d, 1)) != BitSet(d, 2)) != BitSet(e, 2))
  {
  }

  lemma {:induction false} MixColumnBit11(a: bv8, b: bv8, d: bv8, e: bv8)
    ensures BitSet(Gf.Xor(Gf.Xor(Gf.Xor(a, Gf.Mul2(b)), Gf.Mul3(d)), e), 3) == ((((((BitSet(a, 3) != BitSet(b, 2)) != BitSet(b, 7)) != BitSet(d, 2)) != BitSet(d, 3)) != BitSet(d, 7)) != BitSet(e, 3))
  {
  }

  lemma {:induction false} MixColumnBit12(a: bv8, b: bv8, d: bv8, e: bv8)
    ensures BitSet(Gf.Xor(Gf.Xor(Gf.Xor(a, Gf.Mul2(b)), Gf.Mul3(d)), e), 4) == ((((((BitSet(a, 4) != BitSet(b, 3)) != BitSet(b, 7)) != BitSet(d, 3)) != BitSet(d, 4)) != BitSet(d, 7)) != BitSet(e, 4))
  {
  }

  lemma {:induction false} MixColumnBit13(a: bv8, b: bv8, d: bv8, e: bv8)
    ensures BitSet(Gf.Xor(Gf.Xor(Gf.Xor(a, Gf.Mul2(b)), Gf.Mul3(d)), e), 5) == ((((BitSet(a, 5) != BitSet(b, 4)) != BitSet(d, 4)) != BitSet(d, 5)) != BitSet(e, 5))
  {
  }

  lemma {:induction false} MixColumnBit14(a: bv8, b: bv8, d: bv8, e: bv8)
    ensures BitSet(Gf.Xor(Gf.Xor(Gf.Xor(a, Gf.Mul2(b)), Gf.Mul3(d)), e), 6) == ((((BitSet(a, 6) != BitSet(b, 5)) != BitSet(d, 5)) != BitSet(d, 6)) != BitSet(e, 6))
  {
  }

  lemma {:induction false} MixColumnBit15(a: bv8, b: bv8, d: bv8, e: bv8)
    ensures BitSet(Gf.Xor(Gf.Xor(Gf.Xor(a, Gf.Mul2(b)), Gf.Mul3(d)), e), 7) == ((((BitSet(a, 7) != BitSet(b, 6)) != BitSet(d, 6)) != BitSet(d, 7)) != BitSet(e, 7))
  {
  }

  lemma {:induction false} MixColumnBit16(a: bv8, b: bv8, d: bv8, e: bv8)
    ensures BitSet(Gf.Xor(Gf.Xor(Gf.Xor(a, b), Gf.Mul2(d)), Gf.Mul3(e)), 0) == ((((BitSet(a, 0) != BitSet(b, 0)) != BitSet(d, 7)) != BitSet(e, 0)) != BitSet(e, 7))
  {
  }

  lemma {:induction false} MixColumnBit17(a: bv8, b: bv8, d: bv8, e: bv8)
    ensures BitSet(Gf.Xor(Gf.Xor(Gf.Xor(a, b), Gf.Mul2(d)), Gf.Mul3(e)), 1) == ((((((BitSet(a, 1) != BitSet(b, 1)) != BitSet(d, 0)) != BitSet(d, 7)) != BitSet(e, 0)) != BitSet(e, 1)) != BitSet(e, 7))
  {
  }

  lemma {:induction false} MixColumnBit18(a: bv8, b: bv8, d: bv8, e: bv8)
    ensures BitSet(Gf.Xor(Gf.Xor(Gf.Xor(a, b), Gf.Mul2(d)), Gf.Mul3(e)), 2) == ((((BitSet(a, 2) != BitSet(b, 2)) != BitSet(d, 1)) != BitSet(e, 1)) != BitSet(e, 2))
  {
  }

  lemma {:induction false} MixColumnBit19(a: bv8, b: bv8, d: bv8, e: bv8)
    ensures BitSet(Gf.Xor(Gf.Xor(Gf.Xor(a, b), Gf.Mul2(d)), Gf.Mul3(e)), 3) == ((((((BitSet(a, 3) != BitSet(b, 3)) != BitSet(d, 2)) != BitSet(d, 7)) != BitSet(e, 2)) != BitSet(e, 3)) != BitSet(e, 7))
  {
  }

  lemma {:induction false} MixColumnBit20(a: bv8, b: bv8, d: bv8, e: bv8)
    ensures BitSet(Gf.Xor(Gf.Xor(Gf.Xor(a, b), Gf.Mul2(d)), Gf.Mul3(e)), 4) == ((((((BitSet(a, 4) != BitSet(b, 4)) != BitSet(d, 3)) != BitSet(d, 7)) != BitSet(e, 3)) != BitSet(e, 4)) != BitSet(e, 7))
  {
  }

  lemma {:induction false} MixColumnBit21(a: bv8, b: bv8, d: bv8, e: bv8)
    ensures BitSet(Gf.Xor(Gf.Xor(Gf.Xor(a, b), Gf.Mul2(d)), Gf.Mul3(e)), 5) == ((((BitSet(a, 5) != BitSet(b, 5)) != BitSet(d, 4)) != BitSet(e, 4)) != BitSet(e, 5))
  {
  }

  lemma {:induction false} MixColumnBit22(a: bv8, b: bv8, d: bv8, e: bv8)
    ensures BitSet(Gf.Xor(Gf.Xor(Gf.Xor(a, b), Gf.Mul2(d)), Gf.Mul3(e)), 6) == ((((BitSet(a, 6) != BitSet(b, 6)) != BitSet(d, 5)) != BitSet(e, 5)) != BitSet(e, 6))
  {
  }

  lemma {:induction false} MixColumnBit23(a: bv8, b: bv8, d: bv8, e: bv8)
    ensures BitSet(Gf.Xor(Gf.Xor(Gf.Xor(a, b), Gf.Mul2(d)), Gf.Mul3(e)), 7) == ((((BitSet(a, 7) != BitSet(b, 7)) != BitSet(d, 6)) != BitSet(e, 6)) != BitSet(e, 7))
  {
  }

  lemma {:induction false} MixColumnBit24(a: bv8, b: bv8, d: bv8, e: bv8)
    ensures BitSet(Gf.Xor(Gf.Xor(Gf.Xor(Gf.Mul3(a), b), d), Gf.Mul2(e)), 0) == ((((BitSet(a, 0) != BitSet(a, 7)) != BitSet(b, 0)) != BitSet(d, 0)) != BitSet(e, 7))
  {
  }

  lemma {:induction false} MixColumnBit25(a: bv8, b: bv8, d: bv8, e: bv8)
    ensures BitSet(Gf.Xor(Gf.Xor(Gf.Xor(Gf.Mul3(a), b), d), Gf.Mul2(e)), 1) == ((((((BitSet(a, 0) != BitSet(a, 1)) != BitSet(a, 7)) != BitSet(b, 1)) != BitSet(d, 1)) != BitSet(e, 0)) != BitSet(e, 7))
  {
  }

  lemma {:induction false} MixColumnBit26(a: bv8, b: bv8, d: bv8, e: bv8)
    ensures BitSet(Gf.Xor(Gf.Xor(Gf.Xor(Gf.Mul3(a), b), d), Gf.Mul2(e)), 2) == ((((BitSet(a, 1) != BitSet(a, 2)) != BitSet(b, 2)) != BitSet(d, 2)) != BitSet(e, 1))
  {
  }

  lemma {:induction false} MixColumnBit27(a: bv8, b: bv8, d: bv8, e: bv8)
    ensures BitSet(Gf.Xor(Gf.Xor(Gf.Xor(Gf.Mul3(a), b), d), Gf.Mul2(e)), 3) == ((((((BitSet(a, 2) != BitSet(a, 3)) != BitSet(a, 7)) != BitSet(b, 3)) != BitSet(d, 3)) != BitSet(e, 2)) != BitSet(e, 7))
  {
  }

  lemma {:induction false} MixColumnBit28(a: bv8, b: bv8, d: bv8, e: bv8)
    ensures BitSet(Gf.Xor(Gf.Xor(Gf.Xor(Gf.Mul3(a), b), d), Gf.Mul2(e)), 4) == ((((((BitSet(a, 3) != BitSet(a, 4)) != BitSet(a, 7)) != BitSet(b, 4)) != BitSet(d, 4)) != BitSet(e, 3)) != BitSet(e, 7))
  {
  }

  lemma {:induction false} MixColumnBit29(a: bv8, b: bv8, d: bv8, e: bv8)
    ensures BitSet(Gf.Xor(Gf.Xor(Gf.Xor(Gf.Mul3(a), b), d), Gf.Mul2(e)), 5) == ((((BitSet(a, 4) != BitSet(a, 5)) != BitSet(b, 5)) != BitSet(d, 5)) != BitSet(e, 4))
  {
  }

  lemma {:induction false} MixColumnBit30(a: bv8, b: bv8, d: bv8, e: bv8)
    ensures BitSet(Gf.Xor(Gf.Xor(Gf.Xor(Gf.Mul3(a), b), d), Gf.Mul2(e)), 6) == ((((BitSet(a, 5) != BitSet(a, 6)) != BitSet(b, 6)) != BitSet(d, 6)) != BitSet(e, 5))
  {
  }

  lemma {:induction false} MixColumnBit31(a: bv8, b: bv8, d: bv8, e: bv8)
    ensures BitSet(Gf.Xor(Gf.Xor(Gf.Xor(Gf.Mul3(a), b), d), Gf.Mul2(e)), 7) == ((((BitSet(a, 6) != BitSet(a, 7)) != BitSet(b, 7)) != BitSet(d, 7)) != BitSet(e, 6))
  {
  }

  // Circuit output j, on the bits of the column (a, b, d, e), is bit j %% 8 of MixColumns byte j / 8.

  lemma {:induction false} CircuitMatchesBit0(a: bv8, b: bv8, d: bv8, e: bv8)
    ensures MixColsCircuit(PLAIN, ToBits(a) + ToBits(b) + ToBits(d) + ToBits(e))[0] == BitSet(Gf.Xor(Gf.Xor(Gf.Xor(Gf.Mul2(a), Gf.Mul3(b)), d), e), 0)
  {
    CircuitBit0(ToBits(a), ToBits(b), ToBits(d), ToBits(e));
    MixColumnBit0(a, b, d, e);
  }

  lemma {:induction false} CircuitMatchesBit1(a: bv8, b: bv8, d: bv8, e: bv8)
    ensures MixColsCircuit(PLAIN, ToBits(a) + ToBits(b) + ToBits(d) + ToBits(e))[1] == BitSet(Gf.Xor(Gf.Xor(Gf.Xor(Gf.Mul2(a), Gf.Mul3(b)), d), e), 1)
  {
    CircuitBit1(ToBits(a), ToBits(b), ToBits(d), ToBits(e));
    MixColumnBit1(a, b, d, e);
  }

  lemma {:induction false} CircuitMatchesBit2(a: bv8, b: bv8, d: bv8, e: bv8)
    ensures MixColsCircuit(PLAIN, ToBits(a) + ToBits(b) + ToBits(d) + ToBits(e))[2] == BitSet(Gf.Xor(Gf.Xor(Gf.Xor(Gf.Mul2(a), Gf.Mul3(b)), d), e), 2)
  {
    CircuitBit2(ToBits(a), ToBits(b), ToBits(d), ToBits(e));
    MixColumnBit2(a, b, d, e);
  }

  lemma {:induction false} CircuitMatchesBit3(a: bv8, b: bv8, d: bv8, e: bv8)
    ensures MixColsCircuit(PLAIN, ToBits(a) + ToBits(b) + ToBits(d) + ToBits(e))[3] == BitSet(Gf.Xor(Gf.Xor(Gf.Xor(Gf.Mul2(a), Gf.Mul3(b)), d), e), 3)
  {
    CircuitBit3(ToBits(a), ToBits(b), ToBits(d), ToBits(e));
    MixColumnBit3(a, b, d, e);
  }

  lemma {:induction false} CircuitMatchesBit4(a: bv8, b: bv8, d: bv8, e: bv8)
    ensures MixColsCircuit(PLAIN, ToBits(a) + ToBits(b) + ToBits(d) + ToBits(e))[4] == BitSet(Gf.Xor(Gf.Xor(Gf.Xor(Gf.Mul2(a), Gf.Mul3(b)), d), e), 4)
  {
    CircuitBit4(ToBits(a), ToBits(b), ToBits(d), ToBits(e));
    MixColumnBit4(a, b, d, e);
  }

  lemma {:induction false} CircuitMatchesBit5(a: bv8, b: bv8, d: bv8, e: bv8)
    ensures MixColsCircuit(PLAIN, ToBits(a) + ToBits(b) + ToBits(d) + ToBits(e))[5] == BitSet(Gf.Xor(Gf.Xor(Gf.Xor(Gf.Mul2(a), Gf.Mul3(b)), d), e), 5)
  {
    CircuitBit5(ToBits(a), ToBits(b), ToBits(d), ToBits(e));
    MixColumnBit5(a, b, d, e);
  }

  lemma {:induction false} CircuitMatchesBit6(a: bv8, b: bv8, d: bv8, e: bv8)
    ensures MixColsCircuit(PLAIN, ToBits(a) + ToBits(b) + ToBits(d) + ToBits(e))[6] == BitSet(Gf.Xor(Gf.Xor(Gf.Xor(Gf.Mul2(a), Gf.Mul3(b)), d), e), 6)
  {
    CircuitBit6(ToBits(a), ToBits(b), ToBits(d), ToBits(e));
    MixColumnBit6(a, b, d, e);
  }

  lemma {:induction false} CircuitMatchesBit7(a: bv8, b: bv8, d: bv8, e: bv8)
    ensures MixColsCircuit(PLAIN, ToBits(a) + ToBits(b) + ToBits(d) + ToBits(e))[7] == BitSet(Gf.Xor(Gf.Xor(Gf.Xor(Gf.Mul2(a), Gf.Mul3(b)), d), e), 7)
  {
    CircuitBit7(ToBits(a), ToBits(b), ToBits(d), ToBits(e));
    MixColumnBit7(a, b, d, e);
  }

  lemma {:induction false} CircuitMatchesBit8(a: bv8, b: bv8, d: bv8, e: bv8)
    ensures MixColsCircuit(PLAIN, ToBits(a) + ToBits(b) + ToBits(d) + ToBits(e))[8] == BitSet(Gf.Xor(Gf.Xor(Gf.Xor(a, Gf.Mul2(b)), Gf.Mul3(d)), e), 0)
  {
    CircuitBit8(ToBits(a), ToBits(b), ToBits(d), ToBits(e));
    MixColumnBit8(a, b, d, e);
  }

  lemma {:induction false} CircuitMatchesBit9(a: bv8, b: bv8, d: bv8, e: bv8)
    ensures MixColsCircuit(PLAIN, ToBits(a) + ToBits(b) + ToBits(d) + ToBits(e))[9] == BitSet(Gf.Xor(Gf.Xor(Gf.Xor(a, Gf.Mul2(b)), Gf.Mul3(d)), e), 1)
  {
    CircuitBit9(ToBits(a), ToBits(b), ToBits(d), ToBits(e));
    MixColumnBit9(a, b, d, e);
  }

  lemma {:induction false} CircuitMatchesBit10(a: bv8, b: bv8, d: bv8, e: bv8)
    ensures MixColsCircuit(PLAIN, ToBits(a) + ToBits(b) + ToBits(d) + ToBits(e))[10] == BitSet(Gf.Xor(Gf.Xor(Gf.Xor(a, Gf.Mul2(b)), Gf.Mul3(d)), e), 2)
  {
    CircuitBit10(ToBits(a), ToBits(b), ToBits(d), ToBits(e));
    MixColumnBit10(a, b, d, e);
  }

  lemma {:induction false} CircuitMatchesBit11(a: bv8, b: bv8, d: bv8, e: bv8)
    ensures MixColsCircuit(PLAIN, ToBits(a) + ToBits(b) + ToBits(d) + ToBits(e))[11] == BitSet(Gf.Xor(Gf.Xor(Gf.Xor(a, Gf.Mul2(b)), Gf.Mul3(d)), e), 3)
  {
    CircuitBit11(ToBits(a), ToBits(b), ToBits(d), ToBits(e));
    MixColumnBit11(a, b, d, e);
  }

  lemma {:induction false} CircuitMatchesBit12(a: bv8, b: bv8, d: bv8, e: bv8)
    ensures MixColsCircuit(PLAIN, ToBits(a) + ToBits(b) + ToBits(d) + ToBits(e))[12] == BitSet(Gf.Xor(Gf.Xor(Gf.Xor(a, Gf.Mul2(b)), Gf.Mul3(d)), e), 4)
  {
    CircuitBit12(ToBits(a), ToBits(b), ToBits(d), ToBits(e));
    MixColumnBit12(a, b, d, e);
  }

  lemma {:induction false} CircuitMatchesBit13(a: bv8, b: bv8, d: bv8, e: bv8)
    ensures MixColsCircuit(PLAIN, ToBits(a) + ToBits(b) + ToBits(d) + ToBits(e))[13] == BitSet(Gf.Xor(Gf.Xor(Gf.Xor(a, Gf.Mul2(b)), Gf.Mul3(d)), e), 5)
  {
    CircuitBit13(ToBits(a), ToBits(b), ToBits(d), ToBits(e));
    MixColumnBit13(a, b, d, e);
  }

  lemma {:induction false} CircuitMatchesBit14(a: bv8, b: bv8, d: bv8, e: bv8)
    ensures MixColsCircuit(PLAIN, ToBits(a) + ToBits(b) + ToBits(d) + ToBits(e))[14] == BitSet(Gf.Xor(Gf.Xor(Gf.Xor(a, Gf.Mul2(b)), Gf.Mul3(d)), e), 6)
  {
    CircuitBit14(ToBits(a), ToBits(b), ToBits(d), ToBits(e));
    MixColumnBit14(a, b, d, e);
  }

  lemma {:induction false} CircuitMatchesBit15(a: bv8, b: bv8, d: bv8, e: bv8)
    ensures MixColsCircuit(PLAIN, ToBits(a) + ToBits(b) + ToBits(d) + ToBits(e))[15] == BitSet(Gf.Xor(Gf.Xor(Gf.Xor(a, Gf.Mul2(b)), Gf.Mul3(d)), e), 7)
  {
    CircuitBit15(ToBits(a), ToBits(b), ToBits(d), ToBits(e));
    MixColumnBit15(a, b, d, e);
  }

  lemma {:induction false} CircuitMatchesBit16(a: bv8, b: bv8, d: bv8, e: bv8)
    ensures MixColsCircuit(PLAIN, ToBits(a) + ToBits(b) + ToBits(d) + ToBits(e))[16] == BitSet(Gf.Xor(Gf.Xor(Gf.Xor(a, b), Gf.Mul2(d)), Gf.Mul3(e)), 0)
  {
    CircuitBit16(ToBits(a), ToBits(b), ToBits(d), ToBits(e));
    MixColumnBit16(a, b, d, e);
  }

  lemma {:induction false} CircuitMatchesBit17(a: bv8, b: bv8, d: bv8, e: bv8)
    ensures MixColsCircuit(PLAIN, ToBits(a) + ToBits(b) + ToBits(d) + ToBits(e))[17] == BitSet(Gf.Xor(Gf.Xor(Gf.Xor(a, b), Gf.Mul2(d)), Gf.Mul3(e)), 1)
  {
    CircuitBit17(ToBits(a), ToBits(b), ToBits(d), ToBits(e));
    MixColumnBit17(a, b, d, e);
  }

  lemma {:induction false} CircuitMatchesBit18(a: bv8, b: bv8, d: bv8, e: bv8)
    ensures MixColsCircuit(PLAIN, ToBits(a) + ToBits(b) + ToBits(d) + ToBits(e))[18] == BitSet(Gf.Xor(Gf.Xor(Gf.Xor(a, b), Gf.Mul2(d)), Gf.Mul3(e)), 2)
  {
    CircuitBit18(ToBits(a), ToBits(b), ToBits(d), ToBits(e));
    MixColumnBit18(a, b, d, e);
  }

  lemma {:induction false} CircuitMatchesBit19(a: bv8, b: bv8, d: bv8, e: bv8)
    ensures MixColsCircuit(PLAIN, ToBits(a) + ToBits(b) + ToBits(d) + ToBits(e))[19] == BitSet(Gf.Xor(Gf.Xor(Gf.Xor(a, b), Gf.Mul2(d)), Gf.Mul3(e)), 3)
  {
    CircuitBit19(ToBits(a), ToBits(b), ToBits(d), ToBits(e));
    MixColumnBit19(a, b, d, e);
  }

  lemma {:induction false} CircuitMatchesBit20(a: bv8, b: bv8, d: bv8, e: bv8)
    ensures MixColsCircuit(PLAIN, ToBits(a) + ToBits(b) + ToBits(d) + ToBits(e))[20] == BitSet(Gf.Xor(Gf.Xor(Gf.Xor(a, b), Gf.Mul2(d)), Gf.Mul3(e)), 4)
  {
    CircuitBit20(ToBits(a), ToBits(b), ToBits(d), ToBits(e));
    MixColumnBit20(a, b, d, e);
  }

  lemma {:induction false} CircuitMatchesBit21(a: bv8, b: bv8, d: bv8, e: bv8)
    ensures MixColsCircuit(PLAIN, ToBits(a) + ToBits(b) + ToBits(d) + ToBits(e))[21] == BitSet(Gf.Xor(Gf.Xor(Gf.Xor(a, b), Gf.Mul2(d)), Gf.Mul3(e)), 5)
  {
    CircuitBit21(ToBits(a), ToBits(b), ToBits(d), ToBits(e));
    MixColumnBit21(a, b, d, e);
  }

  lemma {:induction false} CircuitMatchesBit22(a: bv8, b: bv8, d: bv8, e: bv8)
    ensures MixColsCircuit(PLAIN, ToBits(a) + ToBits(b) + ToBits(d) + ToBits(e))[22] == BitSet(Gf.Xor(Gf.Xor(Gf.Xor(a, b), Gf.Mul2(d)), Gf.Mul3(e)), 6)
  {
    CircuitBit22(ToBits(a), ToBits(b), ToBits(d), ToBits(e));
    MixColumnBit22(a, b, d, e);
  }

  lemma {:induction false} CircuitMatchesBit23(a: bv8, b: bv8, d: bv8, e: bv8)
    ensures MixColsCircuit(PLAIN, ToBits(a) + ToBits(b) + ToBits(d) + ToBits(e))[23] == BitSet(Gf.Xor(Gf.Xor(Gf.Xor(a, b), Gf.Mul2(d)), Gf.Mul3(e)), 7)
  {
    CircuitBit23(ToBits(a), ToBits(b), ToBits(d), ToBits(e));
    MixColumnBit23(a, b, d, e);
  }

  lemma {:induction false} CircuitMatchesBit24(a: bv8, b: bv8, d: bv8, e: bv8)
    ensures MixColsCircuit(PLAIN, ToBits(a) + ToBits(b) + ToBits(d) + ToBits(e))[24] == BitSet(Gf.Xor(Gf.Xor(Gf.Xor(Gf.Mul3(a), b), d), Gf.Mul2(e)), 0)
  {
    CircuitBit24(ToBits(a), ToBits(b), ToBits(d), ToBits(e));
    MixColumnBit24(a, b, d, e);
  }

  lemma {:induction false} CircuitMatchesBit25(a: bv8, b: bv8, d: bv8, e: bv8)
    ensures MixColsCircuit(PLAIN, ToBits(a) + ToBits(b) + ToBits(d) + ToBits(e))[25] == BitSet(Gf.Xor(Gf.Xor(Gf.Xor(Gf.Mul3(a), b), d), Gf.Mul2(e)), 1)
  {
    CircuitBit25(ToBits(a), ToBits(b), ToBits(d), ToBits(e));
    MixColumnBit25(a, b, d, e);
  }

  lemma {:induction false} CircuitMatchesBit26(a: bv8, b: bv8, d: bv8, e: bv8)
    ensures MixColsCircuit(PLAIN, ToBits(a) + ToBits(b) + ToBits(d) + ToBits(e))[26] == BitSet(Gf.Xor(Gf.Xor(Gf.Xor(Gf.Mul3(a), b), d), Gf.Mul2(e)), 2)
  {
    CircuitBit26(ToBits(a), ToBits(b), ToBits(d), ToBits(e));
    MixColumnBit26(a, b, d, e);
  }

  lemma {:induction false} CircuitMatchesBit27(a: bv8, b: bv8, d: bv8, e: bv8)
    ensures MixColsCircuit(PLAIN, ToBits(a) + ToBits(b) + ToBits(d) + ToBits(e))[27] == BitSet(Gf.Xor(Gf.Xor(Gf.Xor(Gf.Mul3(a), b), d), Gf.Mul2(e)), 3)
  {
    CircuitBit27(ToBits(a), ToBits(b), ToBits(d), ToBits(e));
    MixColumnBit27(a, b, d, e);
  }

  lemma {:induction false} CircuitMatchesBit28(a: bv8, b: bv8, d: bv8, e: bv8)
    ensures MixColsCircuit(PLAIN, ToBits(a) + ToBits(b) + ToBits(d) + ToBits(e))[28] == BitSet(Gf.Xor(Gf.Xor(Gf.Xor(Gf.Mul3(a), b), d), Gf.Mul2(e)), 4)
  {
    CircuitBit28(ToBits(a), ToBits(b), ToBits(d), ToBits(e));
    MixColumnBit28(a, b, d, e);
  }

  lemma {:induction false} CircuitMatchesBit29(a: bv8, b: bv8, d: bv8, e: bv8)
    ensures MixColsCircuit(PLAIN, ToBits(a) + ToBits(b) + ToBits(d) + ToBits(e))[29] == BitSet(Gf.Xor(Gf.Xor(Gf.Xor(Gf.Mul3(a), b), d), Gf.Mul2(e)), 5)
  {
    CircuitBit29(ToBits(a), ToBits(b), ToBits(d), ToBits(e));
    MixColumnBit29(a, b, d, e);
  }

  lemma {:induction false} CircuitMatchesBit30(a: bv8, b: bv8, d: bv8, e: bv8)
    ensures MixColsCircuit(PLAIN, ToBits(a) + ToBits(b) + ToBits(d) + ToBits(e))[30] == BitSet(Gf.Xor(Gf.Xor(Gf.Xor(Gf.Mul3(a), b), d), Gf.Mul2(e)), 6)
  {
    CircuitBit30(ToBits(a), ToBits(b), ToBits(d), ToBits(e));
    MixColumnBit30(a, b, d, e);
  }

  lemma {:induction false} CircuitMatchesBit31(a: bv8, b: bv8, d: bv8, e: bv8)
    ensures MixColsCircuit(PLAIN, ToBits(a) + ToBits(b) + ToBits(d) + ToBits(e))[31] == BitSet(Gf.Xor(Gf.Xor(Gf.Xor(Gf.Mul3(a), b), d), Gf.Mul2(e)), 7)
  {
    CircuitBit31(ToBits(a), ToBits(b), ToBits(d), ToBits(e));
    MixColumnBit31(a, b, d, e);
  }

  /** Bits 0 .. 7 of a 32-bit sequence, when they are the bits of y, recompose to y. */
  lemma {:induction false} RowFromBits0(o: seq<bool>, y: bv8)
    requires |o| == 32
    requires o[0] == BitSet(y, 0)
    requires o[1] == BitSet(y, 1)
    requires o[2] == BitSet(y, 2)
    requires o[3] == BitSet(y, 3)
    requires o[4] == BitSet(y, 4)
    requires o[5] == BitSet(y, 5)
    requires o[6] == BitSet(y, 6)
    requires o[7] == BitSet(y, 7)
    ensures FromBits(o[..8]) == y
  {
    FromBitsAgree(y, o[..8]);
  }

  /** Row 0 of the circuit's output, recomposed, is byte 0 of FIPS-197 MixColumns of (a, b, d, e). */
  lemma {:induction false} CircuitRow0(a: bv8, b: bv8, d: bv8, e: bv8)
    ensures FromBits(MixColsCircuit(PLAIN, ToBits(a) + ToBits(b) + ToBits(d) + ToBits(e))[..8]) == Gf.Xor(Gf.Xor(Gf.Xor(Gf.Mul2(a), Gf.Mul3(b)), d), e)
  {
    CircuitMatchesBit0(a, b, d, e);
    CircuitMatchesBit1(a, b, d, e);
    CircuitMatchesBit2(a, b, d, e);
    CircuitMatchesBit3(a, b, d, e);
    CircuitMatchesBit4(a, b, d, e);
    CircuitMatchesBit5(a, b, d, e);
    CircuitMatchesBit6(a, b, d, e);
    CircuitMatchesBit7(a, b, d, e);
    RowFromBits0(MixColsCircuit(PLAIN, ToBits(a) + ToBits(b) + ToBits(d) + ToBits(e)), Gf.Xor(Gf.Xor(Gf.Xor(Gf.Mul2(a), Gf.Mul3(b)), d), e));
  }

  /** Bits 8 .. 15 of a 32-bit sequence, when they are the bits of y, recompose to y. */
  lemma {:induction false} RowFromBits1(o: seq<bool>, y: bv8)
    requires |o| == 32
    requires o[8] == BitSet(y, 0)
    requires o[9] == BitSet(y, 1)
    requires o[10] == BitSet(y, 2)
    requires o[11] == BitSet(y, 3)
    requires o[12] == BitSet(y, 4)
    requires o[13] == BitSet(y, 5)
    requires o[14] == BitSet(y, 6)
    requires o[15] == BitSet(y, 7)
    ensures FromBits(o[8..16]) == y
  {
    FromBitsAgree(y, o[8..16]);
  }

  /** Row 1 of the circuit's output, recomposed, is byte 1 of FIPS-197 MixColumns of (a, b, d, e). */
  lemma {:induction false} CircuitRow1(a: bv8, b: bv8, d: bv8, e: bv8)
    ensures FromBits(MixColsCircuit(PLAIN, ToBits(a) + ToBits(b) + ToBits(d) + ToBits(e))[8..16]) == Gf.Xor(Gf.Xor(Gf.Xor(a, Gf.Mul2(b)), Gf.Mul3(d)), e)
  {
    CircuitMatchesBit8(a, b, d, e);
    CircuitMatchesBit9(a, b, d, e);
    CircuitMatchesBit10(a, b, d, e);
    CircuitMatchesBit11(a, b, d, e);
    CircuitMatchesBit12(a, b, d, e);
    CircuitMatchesBit13(a, b, d, e);
    CircuitMatchesBit14(a, b, d, e);
    CircuitMatchesBit15(a, b, d, e);
    RowFromBits1(MixColsCircuit(PLAIN, ToBits(a) + ToBits(b) + ToBits(d) + ToBits(e)), Gf.Xor(Gf.Xor(Gf.Xor(a, Gf.Mul2(b)), Gf.Mul3(d)), e));
  }

  /** Bits 16 .. 23 of a 32-bit sequence, when they are the bits of y, recompose to y. */
  lemma {:induction false} RowFromBits2(o: seq<bool>, y: bv8)
    requires |o| == 32
    requires o[16] == BitSet(y, 0)
    requires o[17] == BitSet(y, 1)
    requires o[18] == BitSet(y, 2)
    requires o[19] == BitSet(y, 3)
    requires o[20] == BitSet(y, 4)
    requires o[21] == BitSet(y, 5)
    requires o[22] == BitSet(y, 6)
    requires o[23] == BitSet(y, 7)
    ensures FromBits(o[16..24]) == y
  {
    FromBitsAgree(y, o[16..24]);
  }

  /** Row 2 of the circuit's output, recomposed, is byte 2 of FIPS-197 MixColumns of (a, b, d, e). */
  lemma {:induction false} CircuitRow2(a: bv8, b: bv8, d: bv8, e: bv8)
    ensures FromBits(MixColsCircuit(PLAIN, ToBits(a) + ToBits(b) + ToBits(d) + ToBits(e))[16..24]) == Gf.Xor(Gf.Xor(Gf.Xor(a, b), Gf.Mul2(d)), Gf.Mul3(e))
  {
    CircuitMatchesBit16(a, b, d, e);
    CircuitMatchesBit17(a, b, d, e);
    CircuitMatchesBit18(a, b, d, e);
    CircuitMatchesBit19(a, b, d, e);
    CircuitMatchesBit20(a, b, d, e);
    CircuitMatchesBit21(a, b, d, e);
    CircuitMatchesBit22(a, b, d, e);
    CircuitMatchesBit23(a, b, d, e);
    RowFromBits2(MixColsCircuit(PLAIN, ToBits(a) + ToBits(b) + ToBits(d) + ToBits(e)), Gf.Xor(Gf.Xor(Gf.Xor(a, b), Gf.Mul2(d)), Gf.Mul3(e)));
  }

  /** Bits 24 .. 31 of a 32-bit sequence, when they are the bits of y, recompose to y. */
  lemma {:induction false} RowFromBits3(o: seq<bool>, y: bv8)
    requires |o| == 32
    requires o[24] == BitSet(y, 0)
    requires o[25] == BitSet(y, 1)
    requires o[26] == BitSet(y, 2)
    requires o[27] == BitSet(y, 3)
    requires o[28] == BitSet(y, 4)
    requires o[29] == BitSet(y, 5)
    requires o[30] == BitSet(y, 6)
    requires o[31] == BitSet(y, 7)
    ensures FromBits(o[24..]) == y
  {
    FromBitsAgree(y, o[24..]);
  }

  /** Row 3 of the circuit's output, recomposed, is byte 3 of FIPS-197 MixColumns of (a, b, d, e). */
  lemma {:induction false} CircuitRow3(a: bv8, b: bv8, d: bv8, e: bv8)
    ensures FromBits(MixColsCircuit(PLAIN, ToBits(a) + ToBits(b) + ToBits(d) + ToBits(e))[24..]) == Gf.Xor(Gf.Xor(Gf.Xor(Gf.Mul3(a), b), d), Gf.Mul2(e))
  {
    CircuitMatchesBit24(a, b, d, e);
    CircuitMatchesBit25(a, b, d, e);
    CircuitMatchesBit26(a, b, d, e);
    CircuitMatchesBit27(a, b, d, e);
    CircuitMatchesBit28(a, b, d, e);
    CircuitMatchesBit29(a, b, d, e);
    CircuitMatchesBit30(a, b, d, e);
    CircuitMatchesBit31(a, b, d, e);
    RowFromBits3(MixColsCircuit(PLAIN, ToBits(a) + ToBits(b) + ToBits(d) + ToBits(e)), Gf.Xor(Gf.Xor(Gf.Xor(Gf.Mul3(a), b), d), Gf.Mul2(e)));
  }

  /**
   * On plaintext bits the XOR circuit computes FIPS-197 MixColumns: the
   * four output rows, recomposed, are the four bytes of the mixed column.
   */
  lemma {:induction false} MixColsCircuitIsMixColumn(c: seq<bv8>)
    requires |c| == 4
    ensures var r := Rows(MixColsCircuit(PLAIN, ToBits(c[0]) + ToBits(c[1]) + ToBits(c[2]) + ToBits(c[3])));
      [FromBits(r.r1), FromBits(r.r2), FromBits(r.r3), FromBits(r.r4)] == Gf.MixColumn(c)
  {
    CircuitRow0(c[0], c[1], c[2], c[3]);
    CircuitRow1(c[0], c[1], c[2], c[3]);
    CircuitRow2(c[0], c[1], c[2], c[3]);
    CircuitRow3(c[0], c[1], c[2], c[3]);
  }

  /**
   * MixColumns on one column of bytes: decompose each byte, run the
   * interpreted XOR circuit, recompose each row.  The result is FIPS-197
   * MixColumns of the column.
   */
  method MixCols(col: seq<bv8>) returns (out: seq<bv8>)
    requires |col| == 4
    ensures out == Gf.MixColumn(col)
  {
    var inp := ColBits(ToBits(col[0]), ToBits(col[1]), ToBits(col[2]), ToBits(col[3]));
    var res := MixColsBc(PLAIN, inp);
    MixColsCircuitIsMixColumn(col);
    out := [FromBits(res.value.r1), FromBits(res.value.r2), FromBits(res.value.r3), FromBits(res.value.r4)];
  }
}
