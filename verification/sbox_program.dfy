/**
 * The S-box gate program: 119 instructions (XOR, AND and NOT gates) over
 * the input wires x0..x7 that leave the S-box bits in s0..s7, and the
 * proof that interpreting it computes the straight-line S-box circuit,
 * whatever the gates mean.
 */
module SboxProgram {
  import opened Circuit
  import opened SboxCircuits

  /** The S-box gate program, 119 instructions, in blocks of 8. */
  const SBOX_INSTR: seq<string> :=
    SBOX_INSTR_0 + SBOX_INSTR_1 + SBOX_INSTR_2 + SBOX_INSTR_3 + SBOX_INSTR_4 + SBOX_INSTR_5 + SBOX_INSTR_6 + SBOX_INSTR_7 + SBOX_INSTR_8 + SBOX_INSTR_9 + SBOX_INSTR_10 + SBOX_INSTR_11 + SBOX_INSTR_12 + SBOX_INSTR_13 + SBOX_INSTR_14

  /** The gates the instructions spell, in the same blocks. */
  const SBOX_GATES: seq<Gate> :=
    SBOX_GATES_0 + SBOX_GATES_1 + SBOX_GATES_2 + SBOX_GATES_3 + SBOX_GATES_4 + SBOX_GATES_5 + SBOX_GATES_6 + SBOX_GATES_7 + SBOX_GATES_8 + SBOX_GATES_9 + SBOX_GATES_10 + SBOX_GATES_11 + SBOX_GATES_12 + SBOX_GATES_13 + SBOX_GATES_14

  /** Instructions 0 to 7. */
  const SBOX_INSTR_0: seq<string> :=
    ["y14 = x3 ^ x5",
     "y13 = x0 ^ x6",
     "y9 = x0 ^ x3",
     "y8 = x0 ^ x5",
     "t0 = x1 ^ x2",
     "y1 = t0 ^ x7",
     "y4 = y1 ^ x3",
     "y12 = y13 ^ y14"]

  const SBOX_GATES_0: seq<Gate> :=
    [Xor("y14", "x3", "x5"),
     Xor("y13", "x0", "x6"),
     Xor("y9", "x0", "x3"),
     Xor("y8", "x0", "x5"),
     Xor("t0", "x1", "x2"),
     Xor("y1", "t0", "x7"),
     Xor("y4", "y1", "x3"),
     Xor("y12", "y13", "y14")]

  /** Instructions 8 to 15. */
  const SBOX_INSTR_1: seq<string> :=
    ["y2 = y1 ^ x0",
     "y5 = y1 ^ x6",
     "y3 = y5 ^ y8",
     "t1 = x4 ^ y12",
     "y15 = t1 ^ x5",
     "y20 = t1 ^ x1",
     "y6 = y15 ^ x7",
     "y10 = y15 ^ t0"]

  const SBOX_GATES_1: seq<Gate> :=
    [Xor("y2", "y1", "x0"),
     Xor("y5", "y1", "x6"),
     Xor("y3", "y5", "y8"),
     Xor("t1", "x4", "y12"),
     Xor("y15", "t1", "x5"),
     Xor("y20", "t1", "x1"),
     Xor("y6", "y15", "x7"),
     Xor("y10", "y15", "t0")]

  /** Instructions 16 to 23. */
  const SBOX_INSTR_2: seq<string> :=
    ["y11 = y20 ^ y9",
     "y7 = x7 ^ y11",
     "y17 = y10 ^ y11",
     "y19 = y10 ^ y8",
     "y16 = t0 ^ y11",
     "y21 = y13 ^ y16",
     "y18 = x0 ^ y16",
     "t2 = y12 & y15"]

  const SBOX_GATES_2: seq<Gate> :=
    [Xor("y11", "y20", "y9"),
     Xor("y7", "x7", "y11"),
     Xor("y17", "y10", "y11"),
     Xor("y19", "y10", "y8"),
     Xor("y16", "t0", "y11"),
     Xor("y21", "y13", "y16"),
     Xor("y18", "x0", "y16"),
     And("t2", "y12", "y15")]

  /** Instructions 24 to 31. */
  const SBOX_INSTR_3: seq<string> :=
    ["t3 = y3 & y6",
     "t4 = t3 ^ t2",
     "t5 = y4 & x7",
     "t6 = t5 ^ t2",
     "t7 = y13 & y16",
     "t8 = y5 & y1",
     "t9 = t8 ^ t7",
     "t10 = y2 & y7"]

  const SBOX_GATES_3: seq<Gate> :=
    [And("t3", "y3", "y6"),
     Xor("t4", "t3", "t2"),
     And("t5", "y4", "x7"),
     Xor("t6", "t5", "t2"),
     And("t7", "y13", "y16"),
     And("t8", "y5", "y1"),
     Xor("t9", "t8", "t7"),
     And("t10", "y2", "y7")]

  /** Instructions 32 to 39. */
  const SBOX_INSTR_4: seq<string> :=
    ["t11 = t10 ^ t7",
     "t12 = y9 & y11",
     "t13 = y14 & y17",
     "t14 = t13 ^ t12",
     "t15 = y8 & y10",
     "t16 = t15 ^ t12",
     "t17 = t4 ^ t14",
     "t18 = t6 ^ t16"]

  const SBOX_GATES_4: seq<Gate> :=
    [Xor("t11", "t10", "t7"),
     And("t12", "y9", "y11"),
     And("t13", "y14", "y17"),
     Xor("t14", "t13", "t12"),
     And("t15", "y8", "y10"),
     Xor("t16", "t15", "t12"),
     Xor("t17", "t4", "t14"),
     Xor("t18", "t6", "t16")]

  /** Instructions 40 to 47. */
  const SBOX_INSTR_5: seq<string> :=
    ["t19 = t9 ^ t14",
     "t20 = t11 ^ t16",
     "t21 = t17 ^ y20",
     "t22 = t18 ^ y19",
     "t23 = t19 ^ y21",
     "t24 = t20 ^ y18",
     "t25 = t21 ^ t22",
     "t26 = t21 & t23"]

  const SBOX_GATES_5: seq<Gate> :=
    [Xor("t19", "t9", "t14"),
     Xor("t20", "t11", "t16"),
     Xor("t21", "t17", "y20"),
     Xor("t22", "t18", "y19"),
     Xor("t23", "t19", "y21"),
     Xor("t24", "t20", "y18"),
     Xor("t25", "t21", "t22"),
     And("t26", "t21", "t23")]

  /** Instructions 48 to 55. */
  const SBOX_INSTR_6: seq<string> :=
    ["t27 = t24 ^ t26",
     "t28 = t25 & t27",
     "t29 = t28 ^ t22",
     "t30 = t23 ^ t24",
     "t31 = t22 ^ t26",
     "t32 = t31 & t30",
     "t33 = t32 ^ t24",
     "t34 = t23 ^ t33"]

  const SBOX_GATES_6: seq<Gate> :=
    [Xor("t27", "t24", "t26"),
     And("t28", "t25", "t27"),
     Xor("t29", "t28", "t22"),
     Xor("t30", "t23", "t24"),
     Xor("t31", "t22", "t26"),
     And("t32", "t31", "t30"),
     Xor("t33", "t32", "t24"),
     Xor("t34", "t23", "t33")]

  /** Instructions 56 to 63. */
  const SBOX_INSTR_7: seq<string> :=
    ["t35 = t27 ^ t33",
     "t36 = t24 & t35",
     "t37 = t36 ^ t34",
     "t38 = t27 ^ t36",
     "t39 = t29 & t38",
     "t40 = t25 ^ t39",
     "t41 = t40 ^ t37",
     "t42 = t29 ^ t33"]

  const SBOX_GATES_7: seq<Gate> :=
    [Xor("t35", "t27", "t33"),
     And("t36", "t24", "t35"),
     Xor("t37", "t36", "t34"),
     Xor("t38", "t27", "t36"),
     And("t39", "t29", "t38"),
     Xor("t40", "t25", "t39"),
     Xor("t41", "t40", "t37"),
     Xor("t42", "t29", "t33")]

  /** Instructions 64 to 71. */
  const SBOX_INSTR_8: seq<string> :=
    ["t43 = t29 ^ t40",
     "t44 = t33 ^ t37",
     "t45 = t42 ^ t41",
     "z0 = t44 & y15",
     "z1 = t37 & y6",
     "z2 = t33 & x7",
     "z3 = t43 & y16",
     "z4 = t40 & y1"]

  const SBOX_GATES_8: seq<Gate> :=
    [Xor("t43", "t29", "t40"),
     Xor("t44", "t33", "t37"),
     Xor("t45", "t42", "t41"),
     And("z0", "t44", "y15"),
     And("z1", "t37", "y6"),
     And("z2", "t33", "x7"),
     And("z3", "t43", "y16"),
     And("z4", "t40", "y1")]

  /** Instructions 72 to 79. */
  const SBOX_INSTR_9: seq<string> :=
    ["z5 = t29 & y7",
     "z6 = t42 & y11",
     "z7 = t45 & y17",
     "z8 = t41 & y10",
     "z9 = t44 & y12",
     "z10 = t37 & y3",
     "z11 = t33 & y4",
     "z12 = t43 & y13"]

  const SBOX_GATES_9: seq<Gate> :=
    [And("z5", "t29", "y7"),
     And("z6", "t42", "y11"),
     And("z7", "t45", "y17"),
     And("z8", "t41", "y10"),
     And("z9", "t44", "y12"),
     And("z10", "t37", "y3"),
     And("z11", "t33", "y4"),
     And("z12", "t43", "y13")]

  /** Instructions 80 to 87. */
  const SBOX_INSTR_10: seq<string> :=
    ["z13 = t40 & y5",
     "z14 = t29 & y2",
     "z15 = t42 & y9",
     "z16 = t45 & y14",
     "z17 = t41 & y8",
     "t46 = z15 ^ z16",
     "t47 = z10 ^ z11",
     "t48 = z5 ^ z13"]

  const SBOX_GATES_10: seq<Gate> :=
    [And("z13", "t40", "y5"),
     And("z14", "t29", "y2"),
     And("z15", "t42", "y9"),
     And("z16", "t45", "y14"),
     And("z17", "t41", "y8"),
     Xor("t46", "z15", "z16"),
     Xor("t47", "z10", "z11"),
     Xor("t48", "z5", "z13")]

  /** Instructions 88 to 95. */
  const SBOX_INSTR_11: seq<string> :=
    ["t49 = z9 ^ z10",
     "t50 = z2 ^ z12",
     "t51 = z2 ^ z5",
     "t52 = z7 ^ z8",
     "t53 = z0 ^ z3",
     "t54 = z6 ^ z7",
     "t55 = z16 ^ z17",
     "t56 = z12 ^ t48"]

  const SBOX_GATES_11: seq<Gate> :=
    [Xor("t49", "z9", "z10"),
     Xor("t50", "z2", "z12"),
     Xor("t51", "z2", "z5"),
     Xor("t52", "z7", "z8"),
     Xor("t53", "z0", "z3"),
     Xor("t54", "z6", "z7"),
     Xor("t55", "z16", "z17"),
     Xor("t56", "z12", "t48")]

  /** Instructions 96 to 103. */
  const SBOX_INSTR_12: seq<string> :=
    ["t57 = t50 ^ t53",
     "t58 = z4 ^ t46",
     "t59 = z3 ^ t54",
     "t60 = t46 ^ t57",
     "t61 = z14 ^ t57",
     "t62 = t52 ^ t58",
     "t63 = t49 ^ t58",
     "t64 = z4 ^ t59"]

  const SBOX_GATES_12: seq<Gate> :=
    [Xor("t57", "t50", "t53"),
     Xor("t58", "z4", "t46"),
     Xor("t59", "z3", "t54"),
     Xor("t60", "t46", "t57"),
     Xor("t61", "z14", "t57"),
     Xor("t62", "t52", "t58"),
     Xor("t63", "t49", "t58"),
     Xor("t64", "z4", "t59")]

  /** Instructions 104 to 111. */
  const SBOX_INSTR_13: seq<string> :=
    ["t65 = t61 ^ t62",
     "t66 = z1 ^ t63",
     "t67 = t64 ^ t65",
     "s77 = t48 ^ t60",
     "s7 = s77 !",
     "s66 = t56 ^ t62",
     "s6 = s66 !",
     "s5 = t47 ^ t65"]

  const SBOX_GATES_13: seq<Gate> :=
    [Xor("t65", "t61", "t62"),
     Xor("t66", "z1", "t63"),
     Xor("t67", "t64", "t65"),
     Xor("s77", "t48", "t60"),
     Not("s7", "s77"),
     Xor("s66", "t56", "t62"),
     Not("s6", "s66"),
     Xor("s5", "t47", "t65")]

  /** Instructions 112 to 118. */
  const SBOX_INSTR_14: seq<string> :=
    ["s4 = t51 ^ t66",
     "s3 = t53 ^ t66",
     "s22 = t55 ^ t67",
     "s2 = s22 !",
     "s11 = t64 ^ s3",
     "s1 = s11 !",
     "s0 = t59 ^ t63"]

  const SBOX_GATES_14: seq<Gate> :=
    [Xor("s4", "t51", "t66"),
     Xor("s3", "t53", "t66"),
     Xor("s22", "t55", "t67"),
     Not("s2", "s22"),
     Xor("s11", "t64", "s3"),
     Not("s1", "s11"),
     Xor("s0", "t59", "t63")]

  lemma {:induction false} SboxSpelled0_0()
    ensures Spelled(SBOX_INSTR_0, SBOX_GATES_0, XorAndNot, 0) &&
      Spelled(SBOX_INSTR_0, SBOX_GATES_0, XorAndNot, 1)
  {
  }

  lemma {:induction false} SboxSpelled0_1()
    ensures Spelled(SBOX_INSTR_0, SBOX_GATES_0, XorAndNot, 2) &&
      Spelled(SBOX_INSTR_0, SBOX_GATES_0, XorAndNot, 3)
  {
  }

  lemma {:induction false} SboxSpelled0_2()
    ensures Spelled(SBOX_INSTR_0, SBOX_GATES_0, XorAndNot, 4) &&
      Spelled(SBOX_INSTR_0, SBOX_GATES_0, XorAndNot, 5)
  {
  }

  lemma {:induction false} SboxSpelled0_3()
    ensures Spelled(SBOX_INSTR_0, SBOX_GATES_0, XorAndNot, 6) &&
      Spelled(SBOX_INSTR_0, SBOX_GATES_0, XorAndNot, 7)
  {
  }

  lemma {:induction false} SboxChunk0_0<V>(sk: Engine<V>, gates: seq<Gate>, m: map<string, V>) returns (m': map<string, V>)
    requires 4 <= |gates| && gates[0] == Xor("y14", "x3", "x5") && gates[1] == Xor("y13", "x0", "x6") && gates[2] == Xor("y9", "x0", "x3") && gates[3] == Xor("y8", "x0", "x5")
    requires "x0" in m && "x1" in m && "x2" in m && "x3" in m && "x4" in m && "x5" in m && "x6" in m && "x7" in m
    ensures Run(sk, gates, 0, m) == Run(sk, gates, 4, m') &&
      "x0" in m' && m'["x0"] == m["x0"] &&
      "x1" in m' && m'["x1"] == m["x1"] &&
      "x2" in m' && m'["x2"] == m["x2"] &&
      "x3" in m' && m'["x3"] == m["x3"] &&
      "x4" in m' && m'["x4"] == m["x4"] &&
      "x5" in m' && m'["x5"] == m["x5"] &&
      "x6" in m' && m'["x6"] == m["x6"] &&
      "x7" in m' && m'["x7"] == m["x7"] &&
      "y14" in m' && m'["y14"] == sk.xor(m["x3"], m["x5"]) &&
      "y13" in m' && m'["y13"] == sk.xor(m["x0"], m["x6"]) &&
      "y9" in m' && m'["y9"] == sk.xor(m["x0"], m["x3"]) &&
      "y8" in m' && m'["y8"] == sk.xor(m["x0"], m["x5"])
  {
    var w0 := m;
    var w1 := w0["y14" := sk.xor(w0["x3"], w0["x5"])];
    assert Run(sk, gates, 0, w0) == Run(sk, gates, 1, w1);
    var w2 := w1["y13" := sk.xor(w1["x0"], w1["x6"])];
    assert Run(sk, gates, 1, w1) == Run(sk, gates, 2, w2);
    var w3 := w2["y9" := sk.xor(w2["x0"], w2["x3"])];
    assert Run(sk, gates, 2, w2) == Run(sk, gates, 3, w3);
    var w4 := w3["y8" := sk.xor(w3["x0"], w3["x5"])];
    assert Run(sk, gates, 3, w3) == Run(sk, gates, 4, w4);
    m' := w4;
  }

  lemma {:induction false} SboxChunk0_1<V>(sk: Engine<V>, gates: seq<Gate>, m: map<string, V>) returns (m': map<string, V>)
    requires 8 <= |gates| && gates[4] == Xor("t0", "x1", "x2") && gates[5] == Xor("y1", "t0", "x7") && gates[6] == Xor("y4", "y1", "x3") && gates[7] == Xor("y12", "y13", "y14")
    requires "x0" in m && "x1" in m && "x2" in m && "x3" in m && "x4" in m && "x5" in m && "x6" in m && "x7" in m && "y14" in m && "y13" in m && "y9" in m && "y8" in m
    ensures Run(sk, gates, 4, m) == Run(sk, gates, 8, m') &&
      "x0" in m' && m'["x0"] == m["x0"] &&
      "x1" in m' && m'["x1"] == m["x1"] &&
      "x4" in m' && m'["x4"] == m["x4"] &&
      "x5" in m' && m'["x5"] == m["x5"] &&
      "x6" in m' && m'["x6"] == m["x6"] &&
      "x7" in m' && m'["x7"] == m["x7"] &&
      "y14" in m' && m'["y14"] == m["y14"] &&
      "y13" in m' && m'["y13"] == m["y13"] &&
      "y9" in m' && m'["y9"] == m["y9"] &&
      "y8" in m' && m'["y8"] == m["y8"] &&
      "t0" in m' && m'["t0"] == sk.xor(m["x1"], m["x2"]) &&
      "y1" in m' && m'["y1"] == sk.xor(sk.xor(m["x1"], m["x2"]), m["x7"]) &&
      "y4" in m' && m'["y4"] == sk.xor(sk.xor(sk.xor(m["x1"], m["x2"]), m["x7"]), m["x3"]) &&
      "y12" in m' && m'["y12"] == sk.xor(m["y13"], m["y14"])
  {
    var w0 := m;
    var w1 := w0["t0" := sk.xor(w0["x1"], w0["x2"])];
    assert Run(sk, gates, 4, w0) == Run(sk, gates, 5, w1);
    var w2 := w1["y1" := sk.xor(w1["t0"], w1["x7"])];
    assert Run(sk, gates, 5, w1) == Run(sk, gates, 6, w2);
    var w3 := w2["y4" := sk.xor(w2["y1"], w2["x3"])];
    assert Run(sk, gates, 6, w2) == Run(sk, gates, 7, w3);
    var w4 := w3["y12" := sk.xor(w3["y13"], w3["y14"])];
    assert Run(sk, gates, 7, w3) == Run(sk, gates, 8, w4);
    m' := w4;
  }

  /** Every instruction of block 0 spells its gate. */
  lemma {:induction false} SboxSpelled0()
    ensures |SBOX_INSTR_0| == |SBOX_GATES_0| == 8 &&
      (forall k :: 0 <= k < 8 ==> Spelled(SBOX_INSTR_0, SBOX_GATES_0, XorAndNot, k))
  {
    forall k | 0 <= k < 8
      ensures Spelled(SBOX_INSTR_0, SBOX_GATES_0, XorAndNot, k)
    {
      if k == 0 { SboxSpelled0_0(); }
      else if k == 1 { SboxSpelled0_0(); }
      else if k == 2 { SboxSpelled0_1(); }
      else if k == 3 { SboxSpelled0_1(); }
      else if k == 4 { SboxSpelled0_2(); }
      else if k == 5 { SboxSpelled0_2(); }
      else if k == 6 { SboxSpelled0_3(); }
      else { SboxSpelled0_3(); }
    }
  }

  /** Instructions 0 to 7 run from wires holding their live inputs. */
  lemma {:induction false} SboxBlock0<V>(sk: Engine<V>, m: map<string, V>) returns (m': map<string, V>)
    requires "x0" in m && "x1" in m && "x2" in m && "x3" in m && "x4" in m && "x5" in m && "x6" in m && "x7" in m
    ensures Run(sk, SBOX_GATES_0, 0, m) == Ok(m') &&
      "x0" in m' && m'["x0"] == m["x0"] &&
      "x1" in m' && m'["x1"] == m["x1"] &&
      "x4" in m' && m'["x4"] == m["x4"] &&
      "x5" in m' && m'["x5"] == m["x5"] &&
      "x6" in m' && m'["x6"] == m["x6"] &&
      "x7" in m' && m'["x7"] == m["x7"] &&
      "y14" in m' && m'["y14"] == sk.xor(m["x3"], m["x5"]) &&
      "y13" in m' && m'["y13"] == sk.xor(m["x0"], m["x6"]) &&
      "y9" in m' && m'["y9"] == sk.xor(m["x0"], m["x3"]) &&
      "y8" in m' && m'["y8"] == sk.xor(m["x0"], m["x5"]) &&
      "t0" in m' && m'["t0"] == sk.xor(m["x1"], m["x2"]) &&
      "y1" in m' && m'["y1"] == sk.xor(sk.xor(m["x1"], m["x2"]), m["x7"]) &&
      "y4" in m' && m'["y4"] == sk.xor(sk.xor(sk.xor(m["x1"], m["x2"]), m["x7"]), m["x3"]) &&
      "y12" in m' && m'["y12"] == sk.xor(sk.xor(m["x0"], m["x6"]), sk.xor(m["x3"], m["x5"]))
  {
    var m1 := SboxChunk0_0(sk, SBOX_GATES_0, m);
    var m2 := SboxChunk0_1(sk, SBOX_GATES_0, m1);
    m' := m2;
  }

  lemma {:induction false} SboxSpelled1_0()
    ensures Spelled(SBOX_INSTR_1, SBOX_GATES_1, XorAndNot, 0) &&
      Spelled(SBOX_INSTR_1, SBOX_GATES_1, XorAndNot, 1)
  {
  }

  lemma {:induction false} SboxSpelled1_1()
    ensures Spelled(SBOX_INSTR_1, SBOX_GATES_1, XorAndNot, 2) &&
      Spelled(SBOX_INSTR_1, SBOX_GATES_1, XorAndNot, 3)
  {
  }

  lemma {:induction false} SboxSpelled1_2()
    ensures Spelled(SBOX_INSTR_1, SBOX_GATES_1, XorAndNot, 4) &&
      Spelled(SBOX_INSTR_1, SBOX_GATES_1, XorAndNot, 5)
  {
  }

  lemma {:induction false} SboxSpelled1_3()
    ensures Spelled(SBOX_INSTR_1, SBOX_GATES_1, XorAndNot, 6) &&
      Spelled(SBOX_INSTR_1, SBOX_GATES_1, XorAndNot, 7)
  {
  }

  lemma {:induction false} SboxChunk1_0<V>(sk: Engine<V>, gates: seq<Gate>, m: map<string, V>) returns (m': map<string, V>)
    requires 4 <= |gates| && gates[0] == Xor("y2", "y1", "x0") && gates[1] == Xor("y5", "y1", "x6") && gates[2] == Xor("y3", "y5", "y8") && gates[3] == Xor("t1", "x4", "y12")
    requires "x0" in m && "x1" in m && "x4" in m && "x5" in m && "x6" in m && "x7" in m && "y14" in m && "y13" in m && "y9" in m && "y8" in m && "t0" in m && "y1" in m && "y4" in m && "y12" in m
    ensures Run(sk, gates, 0, m) == Run(sk, gates, 4, m') &&
      "x0" in m' && m'["x0"] == m["x0"] &&
      "x1" in m' && m'["x1"] == m["x1"] &&
      "x5" in m' && m'["x5"] == m["x5"] &&
      "x7" in m' && m'["x7"] == m["x7"] &&
      "y14" in m' && m'["y14"] == m["y14"] &&
      "y13" in m' && m'["y13"] == m["y13"] &&
      "y9" in m' && m'["y9"] == m["y9"] &&
      "y8" in m' && m'["y8"] == m["y8"] &&
      "t0" in m' && m'["t0"] == m["t0"] &&
      "y1" in m' && m'["y1"] == m["y1"] &&
      "y4" in m' && m'["y4"] == m["y4"] &&
      "y12" in m' && m'["y12"] == m["y12"] &&
      "y2" in m' && m'["y2"] == sk.xor(m["y1"], m["x0"]) &&
      "y5" in m' && m'["y5"] == sk.xor(m["y1"], m["x6"]) &&
      "y3" in m' && m'["y3"] == sk.xor(sk.xor(m["y1"], m["x6"]), m["y8"]) &&
      "t1" in m' && m'["t1"] == sk.xor(m["x4"], m["y12"])
  {
    var w0 := m;
    var w1 := w0["y2" := sk.xor(w0["y1"], w0["x0"])];
    assert Run(sk, gates, 0, w0) == Run(sk, gates, 1, w1);
    var w2 := w1["y5" := sk.xor(w1["y1"], w1["x6"])];
    assert Run(sk, gates, 1, w1) == Run(sk, gates, 2, w2);
    var w3 := w2["y3" := sk.xor(w2["y5"], w2["y8"])];
    assert Run(sk, gates, 2, w2) == Run(sk, gates, 3, w3);
    var w4 := w3["t1" := sk.xor(w3["x4"], w3["y12"])];
    assert Run(sk, gates, 3, w3) == Run(sk, gates, 4, w4);
    m' := w4;
  }

  lemma {:induction false} SboxChunk1_1<V>(sk: Engine<V>, gates: seq<Gate>, m: map<string, V>) returns (m': map<string, V>)
    requires 8 <= |gates| && gates[4] == Xor("y15", "t1", "x5") && gates[5] == Xor("y20", "t1", "x1") && gates[6] == Xor("y6", "y15", "x7") && gates[7] == Xor("y10", "y15", "t0")
    requires "x0" in m && "x1" in m && "x5" in m && "x7" in m && "y14" in m && "y13" in m && "y9" in m && "y8" in m && "t0" in m && "y1" in m && "y4" in m && "y12" in m && "y2" in m && "y5" in m && "y3" in m && "t1" in m
    ensures Run(sk, gates, 4, m) == Run(sk, gates, 8, m') &&
      "x0" in m' && m'["x0"] == m["x0"] &&
      "x7" in m' && m'["x7"] == m["x7"] &&
      "y14" in m' && m'["y14"] == m["y14"] &&
      "y13" in m' && m'["y13"] == m["y13"] &&
      "y9" in m' && m'["y9"] == m["y9"] &&
      "y8" in m' && m'["y8"] == m["y8"] &&
      "t0" in m' && m'["t0"] == m["t0"] &&
      "y1" in m' && m'["y1"] == m["y1"] &&
      "y4" in m' && m'["y4"] == m["y4"] &&
      "y12" in m' && m'["y12"] == m["y12"] &&
      "y2" in m' && m'["y2"] == m["y2"] &&
      "y5" in m' && m'["y5"] == m["y5"] &&
      "y3" in m' && m'["y3"] == m["y3"] &&
      "y15" in m' && m'["y15"] == sk.xor(m["t1"], m["x5"]) &&
      "y20" in m' && m'["y20"] == sk.xor(m["t1"], m["x1"]) &&
      "y6" in m' && m'["y6"] == sk.xor(sk.xor(m["t1"], m["x5"]), m["x7"]) &&
      "y10" in m' && m'["y10"] == sk.xor(sk.xor(m["t1"], m["x5"]), m["t0"])
  {
    var w0 := m;
    var w1 := w0["y15" := sk.xor(w0["t1"], w0["x5"])];
    assert Run(sk, gates, 4, w0) == Run(sk, gates, 5, w1);
    var w2 := w1["y20" := sk.xor(w1["t1"], w1["x1"])];
    assert Run(sk, gates, 5, w1) == Run(sk, gates, 6, w2);
    var w3 := w2["y6" := sk.xor(w2["y15"], w2["x7"])];
    assert Run(sk, gates, 6, w2) == Run(sk, gates, 7, w3);
    var w4 := w3["y10" := sk.xor(w3["y15"], w3["t0"])];
    assert Run(sk, gates, 7, w3) == Run(sk, gates, 8, w4);
    m' := w4;
  }

  /** Every instruction of block 1 spells its gate. */
  lemma {:induction false} SboxSpelled1()
    ensures |SBOX_INSTR_1| == |SBOX_GATES_1| == 8 &&
      (forall k :: 0 <= k < 8 ==> Spelled(SBOX_INSTR_1, SBOX_GATES_1, XorAndNot, k))
  {
    forall k | 0 <= k < 8
      ensures Spelled(SBOX_INSTR_1, SBOX_GATES_1, XorAndNot, k)
    {
      if k == 0 { SboxSpelled1_0(); }
      else if k == 1 { SboxSpelled1_0(); }
      else if k == 2 { SboxSpelled1_1(); }
      else if k == 3 { SboxSpelled1_1(); }
      else if k == 4 { SboxSpelled1_2(); }
      else if k == 5 { SboxSpelled1_2(); }
      else if k == 6 { SboxSpelled1_3(); }
      else { SboxSpelled1_3(); }
    }
  }

  /** Instructions 8 to 15 run from wires holding their live inputs. */
  lemma {:induction false} SboxBlock1<V>(sk: Engine<V>, m: map<string, V>) returns (m': map<string, V>)
    requires "x0" in m && "x1" in m && "x4" in m && "x5" in m && "x6" in m && "x7" in m && "y14" in m && "y13" in m && "y9" in m && "y8" in m && "t0" in m && "y1" in m && "y4" in m && "y12" in m
    ensures Run(sk, SBOX_GATES_1, 0, m) == Ok(m') &&
      "x0" in m' && m'["x0"] == m["x0"] &&
      "x7" in m' && m'["x7"] == m["x7"] &&
      "y14" in m' && m'["y14"] == m["y14"] &&
      "y13" in m' && m'["y13"] == m["y13"] &&
      "y9" in m' && m'["y9"] == m["y9"] &&
      "y8" in m' && m'["y8"] == m["y8"] &&
      "t0" in m' && m'["t0"] == m["t0"] &&
      "y1" in m' && m'["y1"] == m["y1"] &&
      "y4" in m' && m'["y4"] == m["y4"] &&
      "y12" in m' && m'["y12"] == m["y12"] &&
      "y2" in m' && m'["y2"] == sk.xor(m["y1"], m["x0"]) &&
      "y5" in m' && m'["y5"] == sk.xor(m["y1"], m["x6"]) &&
      "y3" in m' && m'["y3"] == sk.xor(sk.xor(m["y1"], m["x6"]), m["y8"]) &&
      "y15" in m' && m'["y15"] == sk.xor(sk.xor(m["x4"], m["y12"]), m["x5"]) &&
      "y20" in m' && m'["y20"] == sk.xor(sk.xor(m["x4"], m["y12"]), m["x1"]) &&
      "y6" in m' && m'["y6"] == sk.xor(sk.xor(sk.xor(m["x4"], m["y12"]), m["x5"]), m["x7"]) &&
      "y10" in m' && m'["y10"] == sk.xor(sk.xor(sk.xor(m["x4"], m["y12"]), m["x5"]), m["t0"])
  {
    var m1 := SboxChunk1_0(sk, SBOX_GATES_1, m);
    var m2 := SboxChunk1_1(sk, SBOX_GATES_1, m1);
    m' := m2;
  }

  lemma {:induction false} SboxSpelled2_0()
    ensures Spelled(SBOX_INSTR_2, SBOX_GATES_2, XorAndNot, 0) &&
      Spelled(SBOX_INSTR_2, SBOX_GATES_2, XorAndNot, 1)
  {
  }

  lemma {:induction false} SboxSpelled2_1()
    ensures Spelled(SBOX_INSTR_2, SBOX_GATES_2, XorAndNot, 2) &&
      Spelled(SBOX_INSTR_2, SBOX_GATES_2, XorAndNot, 3)
  {
  }

  lemma {:induction false} SboxSpelled2_2()
    ensures Spelled(SBOX_INSTR_2, SBOX_GATES_2, XorAndNot, 4) &&
      Spelled(SBOX_INSTR_2, SBOX_GATES_2, XorAndNot, 5)
  {
  }

  lemma {:induction false} SboxSpelled2_3()
    ensures Spelled(SBOX_INSTR_2, SBOX_GATES_2, XorAndNot, 6) &&
      Spelled(SBOX_INSTR_2, SBOX_GATES_2, XorAndNot, 7)
  {
  }

  lemma {:induction false} SboxChunk2_0<V>(sk: Engine<V>, gates: seq<Gate>, m: map<string, V>) returns (m': map<string, V>)
    requires 4 <= |gates| && gates[0] == Xor("y11", "y20", "y9") && gates[1] == Xor("y7", "x7", "y11") && gates[2] == Xor("y17", "y10", "y11") && gates[3] == Xor("y19", "y10", "y8")
    requires "x0" in m && "x7" in m && "y14" in m && "y13" in m && "y9" in m && "y8" in m && "t0" in m && "y1" in m && "y4" in m && "y12" in m && "y2" in m && "y5" in m && "y3" in m && "y15" in m && "y20" in m && "y6" in m && "y10" in m
    ensures Run(sk, gates, 0, m) == Run(sk, gates, 4, m') &&
      "x0" in m' && m'["x0"] == m["x0"] &&
      "x7" in m' && m'["x7"] == m["x7"] &&
      "y14" in m' && m'["y14"] == m["y14"] &&
      "y13" in m' && m'["y13"] == m["y13"] &&
      "y9" in m' && m'["y9"] == m["y9"] &&
      "y8" in m' && m'["y8"] == m["y8"] &&
      "t0" in m' && m'["t0"] == m["t0"] &&
      "y1" in m' && m'["y1"] == m["y1"] &&
      "y4" in m' && m'["y4"] == m["y4"] &&
      "y12" in m' && m'["y12"] == m["y12"] &&
      "y2" in m' && m'["y2"] == m["y2"] &&
      "y5" in m' && m'["y5"] == m["y5"] &&
      "y3" in m' && m'["y3"] == m["y3"] &&
      "y15" in m' && m'["y15"] == m["y15"] &&
      "y20" in m' && m'["y20"] == m["y20"] &&
      "y6" in m' && m'["y6"] == m["y6"] &&
      "y10" in m' && m'["y10"] == m["y10"] &&
      "y11" in m' && m'["y11"] == sk.xor(m["y20"], m["y9"]) &&
      "y7" in m' && m'["y7"] == sk.xor(m["x7"], sk.xor(m["y20"], m["y9"])) &&
      "y17" in m' && m'["y17"] == sk.xor(m["y10"], sk.xor(m["y20"], m["y9"])) &&
      "y19" in m' && m'["y19"] == sk.xor(m["y10"], m["y8"])
  {
    var w0 := m;
    var w1 := w0["y11" := sk.xor(w0["y20"], w0["y9"])];
    assert Run(sk, gates, 0, w0) == Run(sk, gates, 1, w1);
    var w2 := w1["y7" := sk.xor(w1["x7"], w1["y11"])];
    assert Run(sk, gates, 1, w1) == Run(sk, gates, 2, w2);
    var w3 := w2["y17" := sk.xor(w2["y10"], w2["y11"])];
    assert Run(sk, gates, 2, w2) == Run(sk, gates, 3, w3);
    var w4 := w3["y19" := sk.xor(w3["y10"], w3["y8"])];
    assert Run(sk, gates, 3, w3) == Run(sk, gates, 4, w4);
    m' := w4;
  }

  lemma {:induction false} SboxChunk2_1<V>(sk: Engine<V>, gates: seq<Gate>, m: map<string, V>) returns (m': map<string, V>)
    requires 8 <= |gates| && gates[4] == Xor("y16", "t0", "y11") && gates[5] == Xor("y21", "y13", "y16") && gates[6] == Xor("y18", "x0", "y16") && gates[7] == And("t2", "y12", "y15")
    requires "x0" in m && "x7" in m && "y14" in m && "y13" in m && "y9" in m && "y8" in m && "t0" in m && "y1" in m && "y4" in m && "y12" in m && "y2" in m && "y5" in m && "y3" in m && "y15" in m && "y20" in m && "y6" in m && "y10" in m && "y11" in m && "y7" in m && "y17" in m && "y19" in m
    ensures Run(sk, gates, 4, m) == Run(sk, gates, 8, m') &&
      "x7" in m' && m'["x7"] == m["x7"] &&
      "y14" in m' && m'["y14"] == m["y14"] &&
      "y13" in m' && m'["y13"] == m["y13"] &&
      "y9" in m' && m'["y9"] == m["y9"] &&
      "y8" in m' && m'["y8"] == m["y8"] &&
      "y1" in m' && m'["y1"] == m["y1"] &&
      "y4" in m' && m'["y4"] == m["y4"] &&
      "y12" in m' && m'["y12"] == m["y12"] &&
      "y2" in m' && m'["y2"] == m["y2"] &&
      "y5" in m' && m'["y5"] == m["y5"] &&
      "y3" in m' && m'["y3"] == m["y3"] &&
      "y15" in m' && m'["y15"] == m["y15"] &&
      "y20" in m' && m'["y20"] == m["y20"] &&
      "y6" in m' && m'["y6"] == m["y6"] &&
      "y10" in m' && m'["y10"] == m["y10"] &&
      "y11" in m' && m'["y11"] == m["y11"] &&
      "y7" in m' && m'["y7"] == m["y7"] &&
      "y17" in m' && m'["y17"] == m["y17"] &&
      "y19" in m' && m'["y19"] == m["y19"] &&
      "y16" in m' && m'["y16"] == sk.xor(m["t0"], m["y11"]) &&
      "y21" in m' && m'["y21"] == sk.xor(m["y13"], sk.xor(m["t0"], m["y11"])) &&
      "y18" in m' && m'["y18"] == sk.xor(m["x0"], sk.xor(m["t0"], m["y11"])) &&
      "t2" in m' && m'["t2"] == sk.and(m["y12"], m["y15"])
  {
    var w0 := m;
    var w1 := w0["y16" := sk.xor(w0["t0"], w0["y11"])];
    assert Run(sk, gates, 4, w0) == Run(sk, gates, 5, w1);
    var w2 := w1["y21" := sk.xor(w1["y13"], w1["y16"])];
    assert Run(sk, gates, 5, w1) == Run(sk, gates, 6, w2);
    var w3 := w2["y18" := sk.xor(w2["x0"], w2["y16"])];
    assert Run(sk, gates, 6, w2) == Run(sk, gates, 7, w3);
    var w4 := w3["t2" := sk.and(w3["y12"], w3["y15"])];
    assert Run(sk, gates, 7, w3) == Run(sk, gates, 8, w4);
    m' := w4;
  }

  /** Every instruction of block 2 spells its gate. */
  lemma {:induction false} SboxSpelled2()
    ensures |SBOX_INSTR_2| == |SBOX_GATES_2| == 8 &&
      (forall k :: 0 <= k < 8 ==> Spelled(SBOX_INSTR_2, SBOX_GATES_2, XorAndNot, k))
  {
    forall k | 0 <= k < 8
      ensures Spelled(SBOX_INSTR_2, SBOX_GATES_2, XorAndNot, k)
    {
      if k == 0 { SboxSpelled2_0(); }
      else if k == 1 { SboxSpelled2_0(); }
      else if k == 2 { SboxSpelled2_1(); }
      else if k == 3 { SboxSpelled2_1(); }
      else if k == 4 { SboxSpelled2_2(); }
      else if k == 5 { SboxSpelled2_2(); }
      else if k == 6 { SboxSpelled2_3(); }
      else { SboxSpelled2_3(); }
    }
  }

  /** Instructions 16 to 23 run from wires holding their live inputs. */
  lemma {:induction false} SboxBlock2<V>(sk: Engine<V>, m: map<string, V>) returns (m': map<string, V>)
    requires "x0" in m && "x7" in m && "y14" in m && "y13" in m && "y9" in m && "y8" in m && "t0" in m && "y1" in m && "y4" in m && "y12" in m && "y2" in m && "y5" in m && "y3" in m && "y15" in m && "y20" in m && "y6" in m && "y10" in m
    ensures Run(sk, SBOX_GATES_2, 0, m) == Ok(m') &&
      "x7" in m' && m'["x7"] == m["x7"] &&
      "y14" in m' && m'["y14"] == m["y14"] &&
      "y13" in m' && m'["y13"] == m["y13"] &&
      "y9" in m' && m'["y9"] == m["y9"] &&
      "y8" in m' && m'["y8"] == m["y8"] &&
      "y1" in m' && m'["y1"] == m["y1"] &&
      "y4" in m' && m'["y4"] == m["y4"] &&
      "y12" in m' && m'["y12"] == m["y12"] &&
      "y2" in m' && m'["y2"] == m["y2"] &&
      "y5" in m' && m'["y5"] == m["y5"] &&
      "y3" in m' && m'["y3"] == m["y3"] &&
      "y15" in m' && m'["y15"] == m["y15"] &&
      "y20" in m' && m'["y20"] == m["y20"] &&
      "y6" in m' && m'["y6"] == m["y6"] &&
      "y10" in m' && m'["y10"] == m["y10"] &&
      "y11" in m' && m'["y11"] == sk.xor(m["y20"], m["y9"]) &&
      "y7" in m' && m'["y7"] == sk.xor(m["x7"], sk.xor(m["y20"], m["y9"])) &&
      "y17" in m' && m'["y17"] == sk.xor(m["y10"], sk.xor(m["y20"], m["y9"])) &&
      "y19" in m' && m'["y19"] == sk.xor(m["y10"], m["y8"]) &&
      "y16" in m' && m'["y16"] == sk.xor(m["t0"], sk.xor(m["y20"], m["y9"])) &&
      "y21" in m' && m'["y21"] == sk.xor(m["y13"], sk.xor(m["t0"], sk.xor(m["y20"], m["y9"]))) &&
      "y18" in m' && m'["y18"] == sk.xor(m["x0"], sk.xor(m["t0"], sk.xor(m["y20"], m["y9"]))) &&
      "t2" in m' && m'["t2"] == sk.and(m["y12"], m["y15"])
  {
    var m1 := SboxChunk2_0(sk, SBOX_GATES_2, m);
    var m2 := SboxChunk2_1(sk, SBOX_GATES_2, m1);
    m' := m2;
  }

  lemma {:induction false} SboxSpelled3_0()
    ensures Spelled(SBOX_INSTR_3, SBOX_GATES_3, XorAndNot, 0) &&
      Spelled(SBOX_INSTR_3, SBOX_GATES_3, XorAndNot, 1)
  {
  }

  lemma {:induction false} SboxSpelled3_1()
    ensures Spelled(SBOX_INSTR_3, SBOX_GATES_3, XorAndNot, 2) &&
      Spelled(SBOX_INSTR_3, SBOX_GATES_3, XorAndNot, 3)
  {
  }

  lemma {:induction false} SboxSpelled3_2()
    ensures Spelled(SBOX_INSTR_3, SBOX_GATES_3, XorAndNot, 4) &&
      Spelled(SBOX_INSTR_3, SBOX_GATES_3, XorAndNot, 5)
  {
  }

  lemma {:induction false} SboxSpelled3_3()
    ensures Spelled(SBOX_INSTR_3, SBOX_GATES_3, XorAndNot, 6) &&
      Spelled(SBOX_INSTR_3, SBOX_GATES_3, XorAndNot, 7)
  {
  }

  lemma {:induction false} SboxChunk3_0<V>(sk: Engine<V>, gates: seq<Gate>, m: map<string, V>) returns (m': map<string, V>)
    requires 4 <= |gates| && gates[0] == And("t3", "y3", "y6") && gates[1] == Xor("t4", "t3", "t2") && gates[2] == And("t5", "y4", "x7") && gates[3] == Xor("t6", "t5", "t2")
    requires "x7" in m && "y14" in m && "y13" in m && "y9" in m && "y8" in m && "y1" in m && "y4" in m && "y12" in m && "y2" in m && "y5" in m && "y3" in m && "y15" in m && "y20" in m && "y6" in m && "y10" in m && "y11" in m && "y7" in m && "y17" in m && "y19" in m && "y16" in m && "y21" in m && "y18" in m && "t2" in m
    ensures Run(sk, gates, 0, m) == Run(sk, gates, 4, m') &&
      "x7" in m' && m'["x7"] == m["x7"] &&
      "y14" in m' && m'["y14"] == m["y14"] &&
      "y13" in m' && m'["y13"] == m["y13"] &&
      "y9" in m' && m'["y9"] == m["y9"] &&
      "y8" in m' && m'["y8"] == m["y8"] &&
      "y1" in m' && m'["y1"] == m["y1"] &&
      "y4" in m' && m'["y4"] == m["y4"] &&
      "y12" in m' && m'["y12"] == m["y12"] &&
      "y2" in m' && m'["y2"] == m["y2"] &&
      "y5" in m' && m'["y5"] == m["y5"] &&
      "y3" in m' && m'["y3"] == m["y3"] &&
      "y15" in m' && m'["y15"] == m["y15"] &&
      "y20" in m' && m'["y20"] == m["y20"] &&
      "y6" in m' && m'["y6"] == m["y6"] &&
      "y10" in m' && m'["y10"] == m["y10"] &&
      "y11" in m' && m'["y11"] == m["y11"] &&
      "y7" in m' && m'["y7"] == m["y7"] &&
      "y17" in m' && m'["y17"] == m["y17"] &&
      "y19" in m' && m'["y19"] == m["y19"] &&
      "y16" in m' && m'["y16"] == m["y16"] &&
      "y21" in m' && m'["y21"] == m["y21"] &&
      "y18" in m' && m'["y18"] == m["y18"] &&
      "t4" in m' && m'["t4"] == sk.xor(sk.and(m["y3"], m["y6"]), m["t2"]) &&
      "t6" in m' && m'["t6"] == sk.xor(sk.and(m["y4"], m["x7"]), m["t2"])
  {
    var w0 := m;
    var w1 := w0["t3" := sk.and(w0["y3"], w0["y6"])];
    assert Run(sk, gates, 0, w0) == Run(sk, gates, 1, w1);
    var w2 := w1["t4" := sk.xor(w1["t3"], w1["t2"])];
    assert Run(sk, gates, 1, w1) == Run(sk, gates, 2, w2);
    var w3 := w2["t5" := sk.and(w2["y4"], w2["x7"])];
    assert Run(sk, gates, 2, w2) == Run(sk, gates, 3, w3);
    var w4 := w3["t6" := sk.xor(w3["t5"], w3["t2"])];
    assert Run(sk, gates, 3, w3) == Run(sk, gates, 4, w4);
    m' := w4;
  }

  lemma {:induction false} SboxChunk3_1<V>(sk: Engine<V>, gates: seq<Gate>, m: map<string, V>) returns (m': map<string, V>)
    requires 8 <= |gates| && gates[4] == And("t7", "y13", "y16") && gates[5] == And("t8", "y5", "y1") && gates[6] == Xor("t9", "t8", "t7") && gates[7] == And("t10", "y2", "y7")
    requires "x7" in m && "y14" in m && "y13" in m && "y9" in m && "y8" in m && "y1" in m && "y4" in m && "y12" in m && "y2" in m && "y5" in m && "y3" in m && "y15" in m && "y20" in m && "y6" in m && "y10" in m && "y11" in m && "y7" in m && "y17" in m && "y19" in m && "y16" in m && "y21" in m && "y18" in m && "t4" in m && "t6" in m
    ensures Run(sk, gates, 4, m) == Run(sk, gates, 8, m') &&
      "x7" in m' && m'["x7"] == m["x7"] &&
      "y14" in m' && m'["y14"] == m["y14"] &&
      "y13" in m' && m'["y13"] == m["y13"] &&
      "y9" in m' && m'["y9"] == m["y9"] &&
      "y8" in m' && m'["y8"] == m["y8"] &&
      "y1" in m' && m'["y1"] == m["y1"] &&
      "y4" in m' && m'["y4"] == m["y4"] &&
      "y12" in m' && m'["y12"] == m["y12"] &&
      "y2" in m' && m'["y2"] == m["y2"] &&
      "y5" in m' && m'["y5"] == m["y5"] &&
      "y3" in m' && m'["y3"] == m["y3"] &&
      "y15" in m' && m'["y15"] == m["y15"] &&
      "y20" in m' && m'["y20"] == m["y20"] &&
      "y6" in m' && m'["y6"] == m["y6"] &&
      "y10" in m' && m'["y10"] == m["y10"] &&
      "y11" in m' && m'["y11"] == m["y11"] &&
      "y7" in m' && m'["y7"] == m["y7"] &&
      "y17" in m' && m'["y17"] == m["y17"] &&
      "y19" in m' && m'["y19"] == m["y19"] &&
      "y16" in m' && m'["y16"] == m["y16"] &&
      "y21" in m' && m'["y21"] == m["y21"] &&
      "y18" in m' && m'["y18"] == m["y18"] &&
      "t4" in m' && m'["t4"] == m["t4"] &&
      "t6" in m' && m'["t6"] == m["t6"] &&
      "t7" in m' && m'["t7"] == sk.and(m["y13"], m["y16"]) &&
      "t9" in m' && m'["t9"] == sk.xor(sk.and(m["y5"], m["y1"]), sk.and(m["y13"], m["y16"])) &&
      "t10" in m' && m'["t10"] == sk.and(m["y2"], m["y7"])
  {
    var w0 := m;
    var w1 := w0["t7" := sk.and(w0["y13"], w0["y16"])];
    assert Run(sk, gates, 4, w0) == Run(sk, gates, 5, w1);
    var w2 := w1["t8" := sk.and(w1["y5"], w1["y1"])];
    assert Run(sk, gates, 5, w1) == Run(sk, gates, 6, w2);
    var w3 := w2["t9" := sk.xor(w2["t8"], w2["t7"])];
    assert Run(sk, gates, 6, w2) == Run(sk, gates, 7, w3);
    var w4 := w3["t10" := sk.and(w3["y2"], w3["y7"])];
    assert Run(sk, gates, 7, w3) == Run(sk, gates, 8, w4);
    m' := w4;
  }

  /** Every instruction of block 3 spells its gate. */
  lemma {:induction false} SboxSpelled3()
    ensures |SBOX_INSTR_3| == |SBOX_GATES_3| == 8 &&
      (forall k :: 0 <= k < 8 ==> Spelled(SBOX_INSTR_3, SBOX_GATES_3, XorAndNot, k))
  {
    forall k | 0 <= k < 8
      ensures Spelled(SBOX_INSTR_3, SBOX_GATES_3, XorAndNot, k)
    {
      if k == 0 { SboxSpelled3_0(); }
      else if k == 1 { SboxSpelled3_0(); }
      else if k == 2 { SboxSpelled3_1(); }
      else if k == 3 { SboxSpelled3_1(); }
      else if k == 4 { SboxSpelled3_2(); }
      else if k == 5 { SboxSpelled3_2(); }
      else if k == 6 { SboxSpelled3_3(); }
      else { SboxSpelled3_3(); }
    }
  }

  /** Instructions 24 to 31 run from wires holding their live inputs. */
  lemma {:induction false} SboxBlock3<V>(sk: Engine<V>, m: map<string, V>) returns (m': map<string, V>)
    requires "x7" in m && "y14" in m && "y13" in m && "y9" in m && "y8" in m && "y1" in m && "y4" in m && "y12" in m && "y2" in m && "y5" in m && "y3" in m && "y15" in m && "y20" in m && "y6" in m && "y10" in m && "y11" in m && "y7" in m && "y17" in m && "y19" in m && "y16" in m && "y21" in m && "y18" in m && "t2" in m
    ensures Run(sk, SBOX_GATES_3, 0, m) == Ok(m') &&
      "x7" in m' && m'["x7"] == m["x7"] &&
      "y14" in m' && m'["y14"] == m["y14"] &&
      "y13" in m' && m'["y13"] == m["y13"] &&
      "y9" in m' && m'["y9"] == m["y9"] &&
      "y8" in m' && m'["y8"] == m["y8"] &&
      "y1" in m' && m'["y1"] == m["y1"] &&
      "y4" in m' && m'["y4"] == m["y4"] &&
      "y12" in m' && m'["y12"] == m["y12"] &&
      "y2" in m' && m'["y2"] == m["y2"] &&
      "y5" in m' && m'["y5"] == m["y5"] &&
      "y3" in m' && m'["y3"] == m["y3"] &&
      "y15" in m' && m'["y15"] == m["y15"] &&
      "y20" in m' && m'["y20"] == m["y20"] &&
      "y6" in m' && m'["y6"] == m["y6"] &&
      "y10" in m' && m'["y10"] == m["y10"] &&
      "y11" in m' && m'["y11"] == m["y11"] &&
      "y7" in m' && m'["y7"] == m["y7"] &&
      "y17" in m' && m'["y17"] == m["y17"] &&
      "y19" in m' && m'["y19"] == m["y19"] &&
      "y16" in m' && m'["y16"] == m["y16"] &&
      "y21" in m' && m'["y21"] == m["y21"] &&
      "y18" in m' && m'["y18"] == m["y18"] &&
      "t4" in m' && m'["t4"] == sk.xor(sk.and(m["y3"], m["y6"]), m["t2"]) &&
      "t6" in m' && m'["t6"] == sk.xor(sk.and(m["y4"], m["x7"]), m["t2"]) &&
      "t7" in m' && m'["t7"] == sk.and(m["y13"], m["y16"]) &&
      "t9" in m' && m'["t9"] == sk.xor(sk.and(m["y5"], m["y1"]), sk.and(m["y13"], m["y16"])) &&
      "t10" in m' && m'["t10"] == sk.and(m["y2"], m["y7"])
  {
    var m1 := SboxChunk3_0(sk, SBOX_GATES_3, m);
    var m2 := SboxChunk3_1(sk, SBOX_GATES_3, m1);
    m' := m2;
  }

  lemma {:induction false} SboxSpelled4_0()
    ensures Spelled(SBOX_INSTR_4, SBOX_GATES_4, XorAndNot, 0) &&
      Spelled(SBOX_INSTR_4, SBOX_GATES_4, XorAndNot, 1)
  {
  }

  lemma {:induction false} SboxSpelled4_1()
    ensures Spelled(SBOX_INSTR_4, SBOX_GATES_4, XorAndNot, 2) &&
      Spelled(SBOX_INSTR_4, SBOX_GATES_4, XorAndNot, 3)
  {
  }

  lemma {:induction false} SboxSpelled4_2()
    ensures Spelled(SBOX_INSTR_4, SBOX_GATES_4, XorAndNot, 4) &&
      Spelled(SBOX_INSTR_4, SBOX_GATES_4, XorAndNot, 5)
  {
  }

  lemma {:induction false} SboxSpelled4_3()
    ensures Spelled(SBOX_INSTR_4, SBOX_GATES_4, XorAndNot, 6) &&
      Spelled(SBOX_INSTR_4, SBOX_GATES_4, XorAndNot, 7)
  {
  }

  lemma {:induction false} SboxChunk4_0<V>(sk: Engine<V>, gates: seq<Gate>, m: map<string, V>) returns (m': map<string, V>)
    requires 4 <= |gates| && gates[0] == Xor("t11", "t10", "t7") && gates[1] == And("t12", "y9", "y11") && gates[2] == And("t13", "y14", "y17") && gates[3] == Xor("t14", "t13", "t12")
    requires "x7" in m && "y14" in m && "y13" in m && "y9" in m && "y8" in m && "y1" in m && "y4" in m && "y12" in m && "y2" in m && "y5" in m && "y3" in m && "y15" in m && "y20" in m && "y6" in m && "y10" in m && "y11" in m && "y7" in m && "y17" in m && "y19" in m && "y16" in m && "y21" in m && "y18" in m && "t4" in m && "t6" in m && "t7" in m && "t9" in m && "t10" in m
    ensures Run(sk, gates, 0, m) == Run(sk, gates, 4, m') &&
      "x7" in m' && m'["x7"] == m["x7"] &&
      "y14" in m' && m'["y14"] == m["y14"] &&
      "y13" in m' && m'["y13"] == m["y13"] &&
      "y9" in m' && m'["y9"] == m["y9"] &&
      "y8" in m' && m'["y8"] == m["y8"] &&
      "y1" in m' && m'["y1"] == m["y1"] &&
      "y4" in m' && m'["y4"] == m["y4"] &&
      "y12" in m' && m'["y12"] == m["y12"] &&
      "y2" in m' && m'["y2"] == m["y2"] &&
      "y5" in m' && m'["y5"] == m["y5"] &&
      "y3" in m' && m'["y3"] == m["y3"] &&
      "y15" in m' && m'["y15"] == m["y15"] &&
      "y20" in m' && m'["y20"] == m["y20"] &&
      "y6" in m' && m'["y6"] == m["y6"] &&
      "y10" in m' && m'["y10"] == m["y10"] &&
      "y11" in m' && m'["y11"] == m["y11"] &&
      "y7" in m' && m'["y7"] == m["y7"] &&
      "y17" in m' && m'["y17"] == m["y17"] &&
      "y19" in m' && m'["y19"] == m["y19"] &&
      "y16" in m' && m'["y16"] == m["y16"] &&
      "y21" in m' && m'["y21"] == m["y21"] &&
      "y18" in m' && m'["y18"] == m["y18"] &&
      "t4" in m' && m'["t4"] == m["t4"] &&
      "t6" in m' && m'["t6"] == m["t6"] &&
      "t9" in m' && m'["t9"] == m["t9"] &&
      "t11" in m' && m'["t11"] == sk.xor(m["t10"], m["t7"]) &&
      "t12" in m' && m'["t12"] == sk.and(m["y9"], m["y11"]) &&
      "t14" in m' && m'["t14"] == sk.xor(sk.and(m["y14"], m["y17"]), sk.and(m["y9"], m["y11"]))
  {
    var w0 := m;
    var w1 := w0["t11" := sk.xor(w0["t10"], w0["t7"])];
    assert Run(sk, gates, 0, w0) == Run(sk, gates, 1, w1);
    var w2 := w1["t12" := sk.and(w1["y9"], w1["y11"])];
    assert Run(sk, gates, 1, w1) == Run(sk, gates, 2, w2);
    var w3 := w2["t13" := sk.and(w2["y14"], w2["y17"])];
    assert Run(sk, gates, 2, w2) == Run(sk, gates, 3, w3);
    var w4 := w3["t14" := sk.xor(w3["t13"], w3["t12"])];
    assert Run(sk, gates, 3, w3) == Run(sk, gates, 4, w4);
    m' := w4;
  }

  lemma {:induction false} SboxChunk4_1<V>(sk: Engine<V>, gates: seq<Gate>, m: map<string, V>) returns (m': map<string, V>)
    requires 8 <= |gates| && gates[4] == And("t15", "y8", "y10") && gates[5] == Xor("t16", "t15", "t12") && gates[6] == Xor("t17", "t4", "t14") && gates[7] == Xor("t18", "t6", "t16")
    requires "x7" in m && "y14" in m && "y13" in m && "y9" in m && "y8" in m && "y1" in m && "y4" in m && "y12" in m && "y2" in m && "y5" in m && "y3" in m && "y15" in m && "y20" in m && "y6" in m && "y10" in m && "y11" in m && "y7" in m && "y17" in m && "y19" in m && "y16" in m && "y21" in m && "y18" in m && "t4" in m && "t6" in m && "t9" in m && "t11" in m && "t12" in m && "t14" in m
    ensures Run(sk, gates, 4, m) == Run(sk, gates, 8, m') &&
      "x7" in m' && m'["x7"] == m["x7"] &&
      "y14" in m' && m'["y14"] == m["y14"] &&
      "y13" in m' && m'["y13"] == m["y13"] &&
      "y9" in m' && m'["y9"] == m["y9"] &&
      "y8" in m' && m'["y8"] == m["y8"] &&
      "y1" in m' && m'["y1"] == m["y1"] &&
      "y4" in m' && m'["y4"] == m["y4"] &&
      "y12" in m' && m'["y12"] == m["y12"] &&
      "y2" in m' && m'["y2"] == m["y2"] &&
      "y5" in m' && m'["y5"] == m["y5"] &&
      "y3" in m' && m'["y3"] == m["y3"] &&
      "y15" in m' && m'["y15"] == m["y15"] &&
      "y20" in m' && m'["y20"] == m["y20"] &&
      "y6" in m' && m'["y6"] == m["y6"] &&
      "y10" in m' && m'["y10"] == m["y10"] &&
      "y11" in m' && m'["y11"] == m["y11"] &&
      "y7" in m' && m'["y7"] == m["y7"] &&
      "y17" in m' && m'["y17"] == m["y17"] &&
      "y19" in m' && m'["y19"] == m["y19"] &&
      "y16" in m' && m'["y16"] == m["y16"] &&
      "y21" in m' && m'["y21"] == m["y21"] &&
      "y18" in m' && m'["y18"] == m["y18"] &&
      "t9" in m' && m'["t9"] == m["t9"] &&
      "t11" in m' && m'["t11"] == m["t11"] &&
      "t14" in m' && m'["t14"] == m["t14"] &&
      "t16" in m' && m'["t16"] == sk.xor(sk.and(m["y8"], m["y10"]), m["t12"]) &&
      "t17" in m' && m'["t17"] == sk.xor(m["t4"], m["t14"]) &&
      "t18" in m' && m'["t18"] == sk.xor(m["t6"], sk.xor(sk.and(m["y8"], m["y10"]), m["t12"]))
  {
    var w0 := m;
    var w1 := w0["t15" := sk.and(w0["y8"], w0["y10"])];
    assert Run(sk, gates, 4, w0) == Run(sk, gates, 5, w1);
    var w2 := w1["t16" := sk.xor(w1["t15"], w1["t12"])];
    assert Run(sk, gates, 5, w1) == Run(sk, gates, 6, w2);
    var w3 := w2["t17" := sk.xor(w2["t4"], w2["t14"])];
    assert Run(sk, gates, 6, w2) == Run(sk, gates, 7, w3);
    var w4 := w3["t18" := sk.xor(w3["t6"], w3["t16"])];
    assert Run(sk, gates, 7, w3) == Run(sk, gates, 8, w4);
    m' := w4;
  }

  /** Every instruction of block 4 spells its gate. */
  lemma {:induction false} SboxSpelled4()
    ensures |SBOX_INSTR_4| == |SBOX_GATES_4| == 8 &&
      (forall k :: 0 <= k < 8 ==> Spelled(SBOX_INSTR_4, SBOX_GATES_4, XorAndNot, k))
  {
    forall k | 0 <= k < 8
      ensures Spelled(SBOX_INSTR_4, SBOX_GATES_4, XorAndNot, k)
    {
      if k == 0 { SboxSpelled4_0(); }
      else if k == 1 { SboxSpelled4_0(); }
      else if k == 2 { SboxSpelled4_1(); }
      else if k == 3 { SboxSpelled4_1(); }
      else if k == 4 { SboxSpelled4_2(); }
      else if k == 5 { SboxSpelled4_2(); }
      else if k == 6 { SboxSpelled4_3(); }
      else { SboxSpelled4_3(); }
    }
  }

  /** Instructions 32 to 39 run from wires holding their live inputs. */
  lemma {:induction false} SboxBlock4<V>(sk: Engine<V>, m: map<string, V>) returns (m': map<string, V>)
    requires "x7" in m && "y14" in m && "y13" in m && "y9" in m && "y8" in m && "y1" in m && "y4" in m && "y12" in m && "y2" in m && "y5" in m && "y3" in m && "y15" in m && "y20" in m && "y6" in m && "y10" in m && "y11" in m && "y7" in m && "y17" in m && "y19" in m && "y16" in m && "y21" in m && "y18" in m && "t4" in m && "t6" in m && "t7" in m && "t9" in m && "t10" in m
    ensures Run(sk, SBOX_GATES_4, 0, m) == Ok(m') &&
      "x7" in m' && m'["x7"] == m["x7"] &&
      "y14" in m' && m'["y14"] == m["y14"] &&
      "y13" in m' && m'["y13"] == m["y13"] &&
      "y9" in m' && m'["y9"] == m["y9"] &&
      "y8" in m' && m'["y8"] == m["y8"] &&
      "y1" in m' && m'["y1"] == m["y1"] &&
      "y4" in m' && m'["y4"] == m["y4"] &&
      "y12" in m' && m'["y12"] == m["y12"] &&
      "y2" in m' && m'["y2"] == m["y2"] &&
      "y5" in m' && m'["y5"] == m["y5"] &&
      "y3" in m' && m'["y3"] == m["y3"] &&
      "y15" in m' && m'["y15"] == m["y15"] &&
      "y20" in m' && m'["y20"] == m["y20"] &&
      "y6" in m' && m'["y6"] == m["y6"] &&
      "y10" in m' && m'["y10"] == m["y10"] &&
      "y11" in m' && m'["y11"] == m["y11"] &&
      "y7" in m' && m'["y7"] == m["y7"] &&
      "y17" in m' && m'["y17"] == m["y17"] &&
      "y19" in m' && m'["y19"] == m["y19"] &&
      "y16" in m' && m'["y16"] == m["y16"] &&
      "y21" in m' && m'["y21"] == m["y21"] &&
      "y18" in m' && m'["y18"] == m["y18"] &&
      "t9" in m' && m'["t9"] == m["t9"] &&
      "t11" in m' && m'["t11"] == sk.xor(m["t10"], m["t7"]) &&
      "t14" in m' && m'["t14"] == sk.xor(sk.and(m["y14"], m["y17"]), sk.and(m["y9"], m["y11"])) &&
      "t16" in m' && m'["t16"] == sk.xor(sk.and(m["y8"], m["y10"]), sk.and(m["y9"], m["y11"])) &&
      "t17" in m' && m'["t17"] == sk.xor(m["t4"], sk.xor(sk.and(m["y14"], m["y17"]), sk.and(m["y9"], m["y11"]))) &&
      "t18" in m' && m'["t18"] == sk.xor(m["t6"], sk.xor(sk.and(m["y8"], m["y10"]), sk.and(m["y9"], m["y11"])))
  {
    var m1 := SboxChunk4_0(sk, SBOX_GATES_4, m);
    var m2 := SboxChunk4_1(sk, SBOX_GATES_4, m1);
    m' := m2;
  }

  lemma {:induction false} SboxSpelled5_0()
    ensures Spelled(SBOX_INSTR_5, SBOX_GATES_5, XorAndNot, 0) &&
      Spelled(SBOX_INSTR_5, SBOX_GATES_5, XorAndNot, 1)
  {
  }

  lemma {:induction false} SboxSpelled5_1()
    ensures Spelled(SBOX_INSTR_5, SBOX_GATES_5, XorAndNot, 2) &&
      Spelled(SBOX_INSTR_5, SBOX_GATES_5, XorAndNot, 3)
  {
  }

  lemma {:induction false} SboxSpelled5_2()
    ensures Spelled(SBOX_INSTR_5, SBOX_GATES_5, XorAndNot, 4) &&
      Spelled(SBOX_INSTR_5, SBOX_GATES_5, XorAndNot, 5)
  {
  }

  lemma {:induction false} SboxSpelled5_3()
    ensures Spelled(SBOX_INSTR_5, SBOX_GATES_5, XorAndNot, 6) &&
      Spelled(SBOX_INSTR_5, SBOX_GATES_5, XorAndNot, 7)
  {
  }

  lemma {:induction false} SboxChunk5_0<V>(sk: Engine<V>, gates: seq<Gate>, m: map<string, V>) returns (m': map<string, V>)
    requires 4 <= |gates| && gates[0] == Xor("t19", "t9", "t14") && gates[1] == Xor("t20", "t11", "t16") && gates[2] == Xor("t21", "t17", "y20") && gates[3] == Xor("t22", "t18", "y19")
    requires "x7" in m && "y14" in m && "y13" in m && "y9" in m && "y8" in m && "y1" in m && "y4" in m && "y12" in m && "y2" in m && "y5" in m && "y3" in m && "y15" in m && "y20" in m && "y6" in m && "y10" in m && "y11" in m && "y7" in m && "y17" in m && "y19" in m && "y16" in m && "y21" in m && "y18" in m && "t9" in m && "t11" in m && "t14" in m && "t16" in m && "t17" in m && "t18" in m
    ensures Run(sk, gates, 0, m) == Run(sk, gates, 4, m') &&
      "x7" in m' && m'["x7"] == m["x7"] &&
      "y14" in m' && m'["y14"] == m["y14"] &&
      "y13" in m' && m'["y13"] == m["y13"] &&
      "y9" in m' && m'["y9"] == m["y9"] &&
      "y8" in m' && m'["y8"] == m["y8"] &&
      "y1" in m' && m'["y1"] == m["y1"] &&
      "y4" in m' && m'["y4"] == m["y4"] &&
      "y12" in m' && m'["y12"] == m["y12"] &&
      "y2" in m' && m'["y2"] == m["y2"] &&
      "y5" in m' && m'["y5"] == m["y5"] &&
      "y3" in m' && m'["y3"] == m["y3"] &&
      "y15" in m' && m'["y15"] == m["y15"] &&
      "y6" in m' && m'["y6"] == m["y6"] &&
      "y10" in m' && m'["y10"] == m["y10"] &&
      "y11" in m' && m'["y11"] == m["y11"] &&
      "y7" in m' && m'["y7"] == m["y7"] &&
      "y17" in m' && m'["y17"] == m["y17"] &&
      "y16" in m' && m'["y16"] == m["y16"] &&
      "y21" in m' && m'["y21"] == m["y21"] &&
      "y18" in m' && m'["y18"] == m["y18"] &&
      "t19" in m' && m'["t19"] == sk.xor(m["t9"], m["t14"]) &&
      "t20" in m' && m'["t20"] == sk.xor(m["t11"], m["t16"]) &&
      "t21" in m' && m'["t21"] == sk.xor(m["t17"], m["y20"]) &&
      "t22" in m' && m'["t22"] == sk.xor(m["t18"], m["y19"])
  {
    var w0 := m;
    var w1 := w0["t19" := sk.xor(w0["t9"], w0["t14"])];
    assert Run(sk, gates, 0, w0) == Run(sk, gates, 1, w1);
    var w2 := w1["t20" := sk.xor(w1["t11"], w1["t16"])];
    assert Run(sk, gates, 1, w1) == Run(sk, gates, 2, w2);
    var w3 := w2["t21" := sk.xor(w2["t17"], w2["y20"])];
    assert Run(sk, gates, 2, w2) == Run(sk, gates, 3, w3);
    var w4 := w3["t22" := sk.xor(w3["t18"], w3["y19"])];
    assert Run(sk, gates, 3, w3) == Run(sk, gates, 4, w4);
    m' := w4;
  }

  lemma {:induction false} SboxChunk5_1<V>(sk: Engine<V>, gates: seq<Gate>, m: map<string, V>) returns (m': map<string, V>)
    requires 8 <= |gates| && gates[4] == Xor("t23", "t19", "y21") && gates[5] == Xor("t24", "t20", "y18") && gates[6] == Xor("t25", "t21", "t22") && gates[7] == And("t26", "t21", "t23")
    requires "x7" in m && "y14" in m && "y13" in m && "y9" in m && "y8" in m && "y1" in m && "y4" in m && "y12" in m && "y2" in m && "y5" in m && "y3" in m && "y15" in m && "y6" in m && "y10" in m && "y11" in m && "y7" in m && "y17" in m && "y16" in m && "y21" in m && "y18" in m && "t19" in m && "t20" in m && "t21" in m && "t22" in m
    ensures Run(sk, gates, 4, m) == Run(sk, gates, 8, m') &&
      "x7" in m' && m'["x7"] == m["x7"] &&
      "y14" in m' && m'["y14"] == m["y14"] &&
      "y13" in m' && m'["y13"] == m["y13"] &&
      "y9" in m' && m'["y9"] == m["y9"] &&
      "y8" in m' && m'["y8"] == m["y8"] &&
      "y1" in m' && m'["y1"] == m["y1"] &&
      "y4" in m' && m'["y4"] == m["y4"] &&
      "y12" in m' && m'["y12"] == m["y12"] &&
      "y2" in m' && m'["y2"] == m["y2"] &&
      "y5" in m' && m'["y5"] == m["y5"] &&
      "y3" in m' && m'["y3"] == m["y3"] &&
      "y15" in m' && m'["y15"] == m["y15"] &&
      "y6" in m' && m'["y6"] == m["y6"] &&
      "y10" in m' && m'["y10"] == m["y10"] &&
      "y11" in m' && m'["y11"] == m["y11"] &&
      "y7" in m' && m'["y7"] == m["y7"] &&
      "y17" in m' && m'["y17"] == m["y17"] &&
      "y16" in m' && m'["y16"] == m["y16"] &&
      "t22" in m' && m'["t22"] == m["t22"] &&
      "t23" in m' && m'["t23"] == sk.xor(m["t19"], m["y21"]) &&
      "t24" in m' && m'["t24"] == sk.xor(m["t20"], m["y18"]) &&
      "t25" in m' && m'["t25"] == sk.xor(m["t21"], m["t22"]) &&
      "t26" in m' && m'["t26"] == sk.and(m["t21"], sk.xor(m["t19"], m["y21"]))
  {
    var w0 := m;
    var w1 := w0["t23" := sk.xor(w0["t19"], w0["y21"])];
    assert Run(sk, gates, 4, w0) == Run(sk, gates, 5, w1);
    var w2 := w1["t24" := sk.xor(w1["t20"], w1["y18"])];
    assert Run(sk, gates, 5, w1) == Run(sk, gates, 6, w2);
    var w3 := w2["t25" := sk.xor(w2["t21"], w2["t22"])];
    assert Run(sk, gates, 6, w2) == Run(sk, gates, 7, w3);
    var w4 := w3["t26" := sk.and(w3["t21"], w3["t23"])];
    assert Run(sk, gates, 7, w3) == Run(sk, gates, 8, w4);
    m' := w4;
  }

  /** Every instruction of block 5 spells its gate. */
  lemma {:induction false} SboxSpelled5()
    ensures |SBOX_INSTR_5| == |SBOX_GATES_5| == 8 &&
      (forall k :: 0 <= k < 8 ==> Spelled(SBOX_INSTR_5, SBOX_GATES_5, XorAndNot, k))
  {
    forall k | 0 <= k < 8
      ensures Spelled(SBOX_INSTR_5, SBOX_GATES_5, XorAndNot, k)
    {
      if k == 0 { SboxSpelled5_0(); }
      else if k == 1 { SboxSpelled5_0(); }
      else if k == 2 { SboxSpelled5_1(); }
      else if k == 3 { SboxSpelled5_1(); }
      else if k == 4 { SboxSpelled5_2(); }
      else if k == 5 { SboxSpelled5_2(); }
      else if k == 6 { SboxSpelled5_3(); }
      else { SboxSpelled5_3(); }
    }
  }

  /** Instructions 40 to 47 run from wires holding their live inputs. */
  lemma {:induction false} SboxBlock5<V>(sk: Engine<V>, m: map<string, V>) returns (m': map<string, V>)
    requires "x7" in m && "y14" in m && "y13" in m && "y9" in m && "y8" in m && "y1" in m && "y4" in m && "y12" in m && "y2" in m && "y5" in m && "y3" in m && "y15" in m && "y20" in m && "y6" in m && "y10" in m && "y11" in m && "y7" in m && "y17" in m && "y19" in m && "y16" in m && "y21" in m && "y18" in m && "t9" in m && "t11" in m && "t14" in m && "t16" in m && "t17" in m && "t18" in m
    ensures Run(sk, SBOX_GATES_5, 0, m) == Ok(m') &&
      "x7" in m' && m'["x7"] == m["x7"] &&
      "y14" in m' && m'["y14"] == m["y14"] &&
      "y13" in m' && m'["y13"] == m["y13"] &&
      "y9" in m' && m'["y9"] == m["y9"] &&
      "y8" in m' && m'["y8"] == m["y8"] &&
      "y1" in m' && m'["y1"] == m["y1"] &&
      "y4" in m' && m'["y4"] == m["y4"] &&
      "y12" in m' && m'["y12"] == m["y12"] &&
      "y2" in m' && m'["y2"] == m["y2"] &&
      "y5" in m' && m'["y5"] == m["y5"] &&
      "y3" in m' && m'["y3"] == m["y3"] &&
      "y15" in m' && m'["y15"] == m["y15"] &&
      "y6" in m' && m'["y6"] == m["y6"] &&
      "y10" in m' && m'["y10"] == m["y10"] &&
      "y11" in m' && m'["y11"] == m["y11"] &&
      "y7" in m' && m'["y7"] == m["y7"] &&
      "y17" in m' && m'["y17"] == m["y17"] &&
      "y16" in m' && m'["y16"] == m["y16"] &&
      "t22" in m' && m'["t22"] == sk.xor(m["t18"], m["y19"]) &&
      "t23" in m' && m'["t23"] == sk.xor(sk.xor(m["t9"], m["t14"]), m["y21"]) &&
      "t24" in m' && m'["t24"] == sk.xor(sk.xor(m["t11"], m["t16"]), m["y18"]) &&
      "t25" in m' && m'["t25"] == sk.xor(sk.xor(m["t17"], m["y20"]), sk.xor(m["t18"], m["y19"])) &&
      "t26" in m' && m'["t26"] == sk.and(sk.xor(m["t17"], m["y20"]), sk.xor(sk.xor(m["t9"], m["t14"]), m["y21"]))
  {
    var m1 := SboxChunk5_0(sk, SBOX_GATES_5, m);
    var m2 := SboxChunk5_1(sk, SBOX_GATES_5, m1);
    m' := m2;
  }

  lemma {:induction false} SboxSpelled6_0()
    ensures Spelled(SBOX_INSTR_6, SBOX_GATES_6, XorAndNot, 0) &&
      Spelled(SBOX_INSTR_6, SBOX_GATES_6, XorAndNot, 1)
  {
  }

  lemma {:induction false} SboxSpelled6_1()
    ensures Spelled(SBOX_INSTR_6, SBOX_GATES_6, XorAndNot, 2) &&
      Spelled(SBOX_INSTR_6, SBOX_GATES_6, XorAndNot, 3)
  {
  }

  lemma {:induction false} SboxSpelled6_2()
    ensures Spelled(SBOX_INSTR_6, SBOX_GATES_6, XorAndNot, 4) &&
      Spelled(SBOX_INSTR_6, SBOX_GATES_6, XorAndNot, 5)
  {
  }

  lemma {:induction false} SboxSpelled6_3()
    ensures Spelled(SBOX_INSTR_6, SBOX_GATES_6, XorAndNot, 6) &&
      Spelled(SBOX_INSTR_6, SBOX_GATES_6, XorAndNot, 7)
  {
  }

  lemma {:induction false} SboxChunk6_0<V>(sk: Engine<V>, gates: seq<Gate>, m: map<string, V>) returns (m': map<string, V>)
    requires 4 <= |gates| && gates[0] == Xor("t27", "t24", "t26") && gates[1] == And("t28", "t25", "t27") && gates[2] == Xor("t29", "t28", "t22") && gates[3] == Xor("t30", "t23", "t24")
    requires "x7" in m && "y14" in m && "y13" in m && "y9" in m && "y8" in m && "y1" in m && "y4" in m && "y12" in m && "y2" in m && "y5" in m && "y3" in m && "y15" in m && "y6" in m && "y10" in m && "y11" in m && "y7" in m && "y17" in m && "y16" in m && "t22" in m && "t23" in m && "t24" in m && "t25" in m && "t26" in m
    ensures Run(sk, gates, 0, m) == Run(sk, gates, 4, m') &&
      "x7" in m' && m'["x7"] == m["x7"] &&
      "y14" in m' && m'["y14"] == m["y14"] &&
      "y13" in m' && m'["y13"] == m["y13"] &&
      "y9" in m' && m'["y9"] == m["y9"] &&
      "y8" in m' && m'["y8"] == m["y8"] &&
      "y1" in m' && m'["y1"] == m["y1"] &&
      "y4" in m' && m'["y4"] == m["y4"] &&
      "y12" in m' && m'["y12"] == m["y12"] &&
      "y2" in m' && m'["y2"] == m["y2"] &&
      "y5" in m' && m'["y5"] == m["y5"] &&
      "y3" in m' && m'["y3"] == m["y3"] &&
      "y15" in m' && m'["y15"] == m["y15"] &&
      "y6" in m' && m'["y6"] == m["y6"] &&
      "y10" in m' && m'["y10"] == m["y10"] &&
      "y11" in m' && m'["y11"] == m["y11"] &&
      "y7" in m' && m'["y7"] == m["y7"] &&
      "y17" in m' && m'["y17"] == m["y17"] &&
      "y16" in m' && m'["y16"] == m["y16"] &&
      "t22" in m' && m'["t22"] == m["t22"] &&
      "t23" in m' && m'["t23"] == m["t23"] &&
      "t24" in m' && m'["t24"] == m["t24"] &&
      "t25" in m' && m'["t25"] == m["t25"] &&
      "t26" in m' && m'["t26"] == m["t26"] &&
      "t27" in m' && m'["t27"] == sk.xor(m["t24"], m["t26"]) &&
      "t29" in m' && m'["t29"] == sk.xor(sk.and(m["t25"], sk.xor(m["t24"], m["t26"])), m["t22"]) &&
      "t30" in m' && m'["t30"] == sk.xor(m["t23"], m["t24"])
  {
    var w0 := m;
    var w1 := w0["t27" := sk.xor(w0["t24"], w0["t26"])];
    assert Run(sk, gates, 0, w0) == Run(sk, gates, 1, w1);
    var w2 := w1["t28" := sk.and(w1["t25"], w1["t27"])];
    assert Run(sk, gates, 1, w1) == Run(sk, gates, 2, w2);
    var w3 := w2["t29" := sk.xor(w2["t28"], w2["t22"])];
    assert Run(sk, gates, 2, w2) == Run(sk, gates, 3, w3);
    var w4 := w3["t30" := sk.xor(w3["t23"], w3["t24"])];
    assert Run(sk, gates, 3, w3) == Run(sk, gates, 4, w4);
    m' := w4;
  }

  lemma {:induction false} SboxChunk6_1<V>(sk: Engine<V>, gates: seq<Gate>, m: map<string, V>) returns (m': map<string, V>)
    requires 8 <= |gates| && gates[4] == Xor("t31", "t22", "t26") && gates[5] == And("t32", "t31", "t30") && gates[6] == Xor("t33", "t32", "t24") && gates[7] == Xor("t34", "t23", "t33")
    requires "x7" in m && "y14" in m && "y13" in m && "y9" in m && "y8" in m && "y1" in m && "y4" in m && "y12" in m && "y2" in m && "y5" in m && "y3" in m && "y15" in m && "y6" in m && "y10" in m && "y11" in m && "y7" in m && "y17" in m && "y16" in m && "t22" in m && "t23" in m && "t24" in m && "t25" in m && "t26" in m && "t27" in m && "t29" in m && "t30" in m
    ensures Run(sk, gates, 4, m) == Run(sk, gates, 8, m') &&
      "x7" in m' && m'["x7"] == m["x7"] &&
      "y14" in m' && m'["y14"] == m["y14"] &&
      "y13" in m' && m'["y13"] == m["y13"] &&
      "y9" in m' && m'["y9"] == m["y9"] &&
      "y8" in m' && m'["y8"] == m["y8"] &&
      "y1" in m' && m'["y1"] == m["y1"] &&
      "y4" in m' && m'["y4"] == m["y4"] &&
      "y12" in m' && m'["y12"] == m["y12"] &&
      "y2" in m' && m'["y2"] == m["y2"] &&
      "y5" in m' && m'["y5"] == m["y5"] &&
      "y3" in m' && m'["y3"] == m["y3"] &&
      "y15" in m' && m'["y15"] == m["y15"] &&
      "y6" in m' && m'["y6"] == m["y6"] &&
      "y10" in m' && m'["y10"] == m["y10"] &&
      "y11" in m' && m'["y11"] == m["y11"] &&
      "y7" in m' && m'["y7"] == m["y7"] &&
      "y17" in m' && m'["y17"] == m["y17"] &&
      "y16" in m' && m'["y16"] == m["y16"] &&
      "t24" in m' && m'["t24"] == m["t24"] &&
      "t25" in m' && m'["t25"] == m["t25"] &&
      "t27" in m' && m'["t27"] == m["t27"] &&
      "t29" in m' && m'["t29"] == m["t29"] &&
      "t33" in m' && m'["t33"] == sk.xor(sk.and(sk.xor(m["t22"], m["t26"]), m["t30"]), m["t24"]) &&
      "t34" in m' && m'["t34"] == sk.xor(m["t23"], sk.xor(sk.and(sk.xor(m["t22"], m["t26"]), m["t30"]), m["t24"]))
  {
    var w0 := m;
    var w1 := w0["t31" := sk.xor(w0["t22"], w0["t26"])];
    assert Run(sk, gates, 4, w0) == Run(sk, gates, 5, w1);
    var w2 := w1["t32" := sk.and(w1["t31"], w1["t30"])];
    assert Run(sk, gates, 5, w1) == Run(sk, gates, 6, w2);
    var w3 := w2["t33" := sk.xor(w2["t32"], w2["t24"])];
    assert Run(sk, gates, 6, w2) == Run(sk, gates, 7, w3);
    var w4 := w3["t34" := sk.xor(w3["t23"], w3["t33"])];
    assert Run(sk, gates, 7, w3) == Run(sk, gates, 8, w4);
    m' := w4;
  }

  /** Every instruction of block 6 spells its gate. */
  lemma {:induction false} SboxSpelled6()
    ensures |SBOX_INSTR_6| == |SBOX_GATES_6| == 8 &&
      (forall k :: 0 <= k < 8 ==> Spelled(SBOX_INSTR_6, SBOX_GATES_6, XorAndNot, k))
  {
    forall k | 0 <= k < 8
      ensures Spelled(SBOX_INSTR_6, SBOX_GATES_6, XorAndNot, k)
    {
      if k == 0 { SboxSpelled6_0(); }
      else if k == 1 { SboxSpelled6_0(); }
      else if k == 2 { SboxSpelled6_1(); }
      else if k == 3 { SboxSpelled6_1(); }
      else if k == 4 { SboxSpelled6_2(); }
      else if k == 5 { SboxSpelled6_2(); }
      else if k == 6 { SboxSpelled6_3(); }
      else { SboxSpelled6_3(); }
    }
  }

  /** Instructions 48 to 55 run from wires holding their live inputs. */
  lemma {:induction false} SboxBlock6<V>(sk: Engine<V>, m: map<string, V>) returns (m': map<string, V>)
    requires "x7" in m && "y14" in m && "y13" in m && "y9" in m && "y8" in m && "y1" in m && "y4" in m && "y12" in m && "y2" in m && "y5" in m && "y3" in m && "y15" in m && "y6" in m && "y10" in m && "y11" in m && "y7" in m && "y17" in m && "y16" in m && "t22" in m && "t23" in m && "t24" in m && "t25" in m && "t26" in m
    ensures Run(sk, SBOX_GATES_6, 0, m) == Ok(m') &&
      "x7" in m' && m'["x7"] == m["x7"] &&
      "y14" in m' && m'["y14"] == m["y14"] &&
      "y13" in m' && m'["y13"] == m["y13"] &&
      "y9" in m' && m'["y9"] == m["y9"] &&
      "y8" in m' && m'["y8"] == m["y8"] &&
      "y1" in m' && m'["y1"] == m["y1"] &&
      "y4" in m' && m'["y4"] == m["y4"] &&
      "y12" in m' && m'["y12"] == m["y12"] &&
      "y2" in m' && m'["y2"] == m["y2"] &&
      "y5" in m' && m'["y5"] == m["y5"] &&
      "y3" in m' && m'["y3"] == m["y3"] &&
      "y15" in m' && m'["y15"] == m["y15"] &&
      "y6" in m' && m'["y6"] == m["y6"] &&
      "y10" in m' && m'["y10"] == m["y10"] &&
      "y11" in m' && m'["y11"] == m["y11"] &&
      "y7" in m' && m'["y7"] == m["y7"] &&
      "y17" in m' && m'["y17"] == m["y17"] &&
      "y16" in m' && m'["y16"] == m["y16"] &&
      "t24" in m' && m'["t24"] == m["t24"] &&
      "t25" in m' && m'["t25"] == m["t25"] &&
      "t27" in m' && m'["t27"] == sk.xor(m["t24"], m["t26"]) &&
      "t29" in m' && m'["t29"] == sk.xor(sk.and(m["t25"], sk.xor(m["t24"], m["t26"])), m["t22"]) &&
      "t33" in m' && m'["t33"] == sk.xor(sk.and(sk.xor(m["t22"], m["t26"]), sk.xor(m["t23"], m["t24"])), m["t24"]) &&
      "t34" in m' && m'["t34"] == sk.xor(m["t23"], sk.xor(sk.and(sk.xor(m["t22"], m["t26"]), sk.xor(m["t23"], m["t24"])), m["t24"]))
  {
    var m1 := SboxChunk6_0(sk, SBOX_GATES_6, m);
    var m2 := SboxChunk6_1(sk, SBOX_GATES_6, m1);
    m' := m2;
  }

  lemma {:induction false} SboxSpelled7_0()
    ensures Spelled(SBOX_INSTR_7, SBOX_GATES_7, XorAndNot, 0) &&
      Spelled(SBOX_INSTR_7, SBOX_GATES_7, XorAndNot, 1)
  {
  }

  lemma {:induction false} SboxSpelled7_1()
    ensures Spelled(SBOX_INSTR_7, SBOX_GATES_7, XorAndNot, 2) &&
      Spelled(SBOX_INSTR_7, SBOX_GATES_7, XorAndNot, 3)
  {
  }

  lemma {:induction false} SboxSpelled7_2()
    ensures Spelled(SBOX_INSTR_7, SBOX_GATES_7, XorAndNot, 4) &&
      Spelled(SBOX_INSTR_7, SBOX_GATES_7, XorAndNot, 5)
  {
  }

  lemma {:induction false} SboxSpelled7_3()
    ensures Spelled(SBOX_INSTR_7, SBOX_GATES_7, XorAndNot, 6) &&
      Spelled(SBOX_INSTR_7, SBOX_GATES_7, XorAndNot, 7)
  {
  }

  lemma {:induction false} SboxChunk7_0<V>(sk: Engine<V>, gates: seq<Gate>, m: map<string, V>) returns (m': map<string, V>)
    requires 4 <= |gates| && gates[0] == Xor("t35", "t27", "t33") && gates[1] == And("t36", "t24", "t35") && gates[2] == Xor("t37", "t36", "t34") && gates[3] == Xor("t38", "t27", "t36")
    requires "x7" in m && "y14" in m && "y13" in m && "y9" in m && "y8" in m && "y1" in m && "y4" in m && "y12" in m && "y2" in m && "y5" in m && "y3" in m && "y15" in m && "y6" in m && "y10" in m && "y11" in m && "y7" in m && "y17" in m && "y16" in m && "t24" in m && "t25" in m && "t27" in m && "t29" in m && "t33" in m && "t34" in m
    ensures Run(sk, gates, 0, m) == Run(sk, gates, 4, m') &&
      "x7" in m' && m'["x7"] == m["x7"] &&
      "y14" in m' && m'["y14"] == m["y14"] &&
      "y13" in m' && m'["y13"] == m["y13"] &&
      "y9" in m' && m'["y9"] == m["y9"] &&
      "y8" in m' && m'["y8"] == m["y8"] &&
      "y1" in m' && m'["y1"] == m["y1"] &&
      "y4" in m' && m'["y4"] == m["y4"] &&
      "y12" in m' && m'["y12"] == m["y12"] &&
      "y2" in m' && m'["y2"] == m["y2"] &&
      "y5" in m' && m'["y5"] == m["y5"] &&
      "y3" in m' && m'["y3"] == m["y3"] &&
      "y15" in m' && m'["y15"] == m["y15"] &&
      "y6" in m' && m'["y6"] == m["y6"] &&
      "y10" in m' && m'["y10"] == m["y10"] &&
      "y11" in m' && m'["y11"] == m["y11"] &&
      "y7" in m' && m'["y7"] == m["y7"] &&
      "y17" in m' && m'["y17"] == m["y17"] &&
      "y16" in m' && m'["y16"] == m["y16"] &&
      "t25" in m' && m'["t25"] == m["t25"] &&
      "t29" in m' && m'["t29"] == m["t29"] &&
      "t33" in m' && m'["t33"] == m["t33"] &&
      "t37" in m' && m'["t37"] == sk.xor(sk.and(m["t24"], sk.xor(m["t27"], m["t33"])), m["t34"]) &&
      "t38" in m' && m'["t38"] == sk.xor(m["t27"], sk.and(m["t24"], sk.xor(m["t27"], m["t33"])))
  {
    var w0 := m;
    var w1 := w0["t35" := sk.xor(w0["t27"], w0["t33"])];
    assert Run(sk, gates, 0, w0) == Run(sk, gates, 1, w1);
    var w2 := w1["t36" := sk.and(w1["t24"], w1["t35"])];
    assert Run(sk, gates, 1, w1) == Run(sk, gates, 2, w2);
    var w3 := w2["t37" := sk.xor(w2["t36"], w2["t34"])];
    assert Run(sk, gates, 2, w2) == Run(sk, gates, 3, w3);
    var w4 := w3["t38" := sk.xor(w3["t27"], w3["t36"])];
    assert Run(sk, gates, 3, w3) == Run(sk, gates, 4, w4);
    m' := w4;
  }

  lemma {:induction false} SboxChunk7_1<V>(sk: Engine<V>, gates: seq<Gate>, m: map<string, V>) returns (m': map<string, V>)
    requires 8 <= |gates| && gates[4] == And("t39", "t29", "t38") && gates[5] == Xor("t40", "t25", "t39") && gates[6] == Xor("t41", "t40", "t37") && gates[7] == Xor("t42", "t29", "t33")
    requires "x7" in m && "y14" in m && "y13" in m && "y9" in m && "y8" in m && "y1" in m && "y4" in m && "y12" in m && "y2" in m && "y5" in m && "y3" in m && "y15" in m && "y6" in m && "y10" in m && "y11" in m && "y7" in m && "y17" in m && "y16" in m && "t25" in m && "t29" in m && "t33" in m && "t37" in m && "t38" in m
    ensures Run(sk, gates, 4, m) == Run(sk, gates, 8, m') &&
      "x7" in m' && m'["x7"] == m["x7"] &&
      "y14" in m' && m'["y14"] == m["y14"] &&
      "y13" in m' && m'["y13"] == m["y13"] &&
      "y9" in m' && m'["y9"] == m["y9"] &&
      "y8" in m' && m'["y8"] == m["y8"] &&
      "y1" in m' && m'["y1"] == m["y1"] &&
      "y4" in m' && m'["y4"] == m["y4"] &&
      "y12" in m' && m'["y12"] == m["y12"] &&
      "y2" in m' && m'["y2"] == m["y2"] &&
      "y5" in m' && m'["y5"] == m["y5"] &&
      "y3" in m' && m'["y3"] == m["y3"] &&
      "y15" in m' && m'["y15"] == m["y15"] &&
      "y6" in m' && m'["y6"] == m["y6"] &&
      "y10" in m' && m'["y10"] == m["y10"] &&
      "y11" in m' && m'["y11"] == m["y11"] &&
      "y7" in m' && m'["y7"] == m["y7"] &&
      "y17" in m' && m'["y17"] == m["y17"] &&
      "y16" in m' && m'["y16"] == m["y16"] &&
      "t29" in m' && m'["t29"] == m["t29"] &&
      "t33" in m' && m'["t33"] == m["t33"] &&
      "t37" in m' && m'["t37"] == m["t37"] &&
      "t40" in m' && m'["t40"] == sk.xor(m["t25"], sk.and(m["t29"], m["t38"])) &&
      "t41" in m' && m'["t41"] == sk.xor(sk.xor(m["t25"], sk.and(m["t29"], m["t38"])), m["t37"]) &&
      "t42" in m' && m'["t42"] == sk.xor(m["t29"], m["t33"])
  {
    var w0 := m;
    var w1 := w0["t39" := sk.and(w0["t29"], w0["t38"])];
    assert Run(sk, gates, 4, w0) == Run(sk, gates, 5, w1);
    var w2 := w1["t40" := sk.xor(w1["t25"], w1["t39"])];
    assert Run(sk, gates, 5, w1) == Run(sk, gates, 6, w2);
    var w3 := w2["t41" := sk.xor(w2["t40"], w2["t37"])];
    assert Run(sk, gates, 6, w2) == Run(sk, gates, 7, w3);
    var w4 := w3["t42" := sk.xor(w3["t29"], w3["t33"])];
    assert Run(sk, gates, 7, w3) == Run(sk, gates, 8, w4);
    m' := w4;
  }

  /** Every instruction of block 7 spells its gate. */
  lemma {:induction false} SboxSpelled7()
    ensures |SBOX_INSTR_7| == |SBOX_GATES_7| == 8 &&
      (forall k :: 0 <= k < 8 ==> Spelled(SBOX_INSTR_7, SBOX_GATES_7, XorAndNot, k))
  {
    forall k | 0 <= k < 8
      ensures Spelled(SBOX_INSTR_7, SBOX_GATES_7, XorAndNot, k)
    {
      if k == 0 { SboxSpelled7_0(); }
      else if k == 1 { SboxSpelled7_0(); }
      else if k == 2 { SboxSpelled7_1(); }
      else if k == 3 { SboxSpelled7_1(); }
      else if k == 4 { SboxSpelled7_2(); }
      else if k == 5 { SboxSpelled7_2(); }
      else if k == 6 { SboxSpelled7_3(); }
      else { SboxSpelled7_3(); }
    }
  }

  /** Instructions 56 to 63 run from wires holding their live inputs. */
  lemma {:induction false} SboxBlock7<V>(sk: Engine<V>, m: map<string, V>) returns (m': map<string, V>)
    requires "x7" in m && "y14" in m && "y13" in m && "y9" in m && "y8" in m && "y1" in m && "y4" in m && "y12" in m && "y2" in m && "y5" in m && "y3" in m && "y15" in m && "y6" in m && "y10" in m && "y11" in m && "y7" in m && "y17" in m && "y16" in m && "t24" in m && "t25" in m && "t27" in m && "t29" in m && "t33" in m && "t34" in m
    ensures Run(sk, SBOX_GATES_7, 0, m) == Ok(m') &&
      "x7" in m' && m'["x7"] == m["x7"] &&
      "y14" in m' && m'["y14"] == m["y14"] &&
      "y13" in m' && m'["y13"] == m["y13"] &&
      "y9" in m' && m'["y9"] == m["y9"] &&
      "y8" in m' && m'["y8"] == m["y8"] &&
      "y1" in m' && m'["y1"] == m["y1"] &&
      "y4" in m' && m'["y4"] == m["y4"] &&
      "y12" in m' && m'["y12"] == m["y12"] &&
      "y2" in m' && m'["y2"] == m["y2"] &&
      "y5" in m' && m'["y5"] == m["y5"] &&
      "y3" in m' && m'["y3"] == m["y3"] &&
      "y15" in m' && m'["y15"] == m["y15"] &&
      "y6" in m' && m'["y6"] == m["y6"] &&
      "y10" in m' && m'["y10"] == m["y10"] &&
      "y11" in m' && m'["y11"] == m["y11"] &&
      "y7" in m' && m'["y7"] == m["y7"] &&
      "y17" in m' && m'["y17"] == m["y17"] &&
      "y16" in m' && m'["y16"] == m["y16"] &&
      "t29" in m' && m'["t29"] == m["t29"] &&
      "t33" in m' && m'["t33"] == m["t33"] &&
      "t37" in m' && m'["t37"] == sk.xor(sk.and(m["t24"], sk.xor(m["t27"], m["t33"])), m["t34"]) &&
      "t40" in m' && m'["t40"] == sk.xor(m["t25"], sk.and(m["t29"], sk.xor(m["t27"], sk.and(m["t24"], sk.xor(m["t27"], m["t33"]))))) &&
      "t41" in m' && m'["t41"] == sk.xor(sk.xor(m["t25"], sk.and(m["t29"], sk.xor(m["t27"], sk.and(m["t24"], sk.xor(m["t27"], m["t33"]))))), sk.xor(sk.and(m["t24"], sk.xor(m["t27"], m["t33"])), m["t34"])) &&
      "t42" in m' && m'["t42"] == sk.xor(m["t29"], m["t33"])
  {
    var m1 := SboxChunk7_0(sk, SBOX_GATES_7, m);
    var m2 := SboxChunk7_1(sk, SBOX_GATES_7, m1);
    m' := m2;
  }

  lemma {:induction false} SboxSpelled8_0()
    ensures Spelled(SBOX_INSTR_8, SBOX_GATES_8, XorAndNot, 0) &&
      Spelled(SBOX_INSTR_8, SBOX_GATES_8, XorAndNot, 1)
  {
  }

  lemma {:induction false} SboxSpelled8_1()
    ensures Spelled(SBOX_INSTR_8, SBOX_GATES_8, XorAndNot, 2) &&
      Spelled(SBOX_INSTR_8, SBOX_GATES_8, XorAndNot, 3)
  {
  }

  lemma {:induction false} SboxSpelled8_2()
    ensures Spelled(SBOX_INSTR_8, SBOX_GATES_8, XorAndNot, 4) &&
      Spelled(SBOX_INSTR_8, SBOX_GATES_8, XorAndNot, 5)
  {
  }

  lemma {:induction false} SboxSpelled8_3()
    ensures Spelled(SBOX_INSTR_8, SBOX_GATES_8, XorAndNot, 6) &&
      Spelled(SBOX_INSTR_8, SBOX_GATES_8, XorAndNot, 7)
  {
  }

  lemma {:induction false} SboxChunk8_0<V>(sk: Engine<V>, gates: seq<Gate>, m: map<string, V>) returns (m': map<string, V>)
    requires 4 <= |gates| && gates[0] == Xor("t43", "t29", "t40") && gates[1] == Xor("t44", "t33", "t37") && gates[2] == Xor("t45", "t42", "t41") && gates[3] == And("z0", "t44", "y15")
    requires "x7" in m && "y14" in m && "y13" in m && "y9" in m && "y8" in m && "y1" in m && "y4" in m && "y12" in m && "y2" in m && "y5" in m && "y3" in m && "y15" in m && "y6" in m && "y10" in m && "y11" in m && "y7" in m && "y17" in m && "y16" in m && "t29" in m && "t33" in m && "t37" in m && "t40" in m && "t41" in m && "t42" in m
    ensures Run(sk, gates, 0, m) == Run(sk, gates, 4, m') &&
      "x7" in m' && m'["x7"] == m["x7"] &&
      "y14" in m' && m'["y14"] == m["y14"] &&
      "y13" in m' && m'["y13"] == m["y13"] &&
      "y9" in m' && m'["y9"] == m["y9"] &&
      "y8" in m' && m'["y8"] == m["y8"] &&
      "y1" in m' && m'["y1"] == m["y1"] &&
      "y4" in m' && m'["y4"] == m["y4"] &&
      "y12" in m' && m'["y12"] == m["y12"] &&
      "y2" in m' && m'["y2"] == m["y2"] &&
      "y5" in m' && m'["y5"] == m["y5"] &&
      "y3" in m' && m'["y3"] == m["y3"] &&
      "y6" in m' && m'["y6"] == m["y6"] &&
      "y10" in m' && m'["y10"] == m["y10"] &&
      "y11" in m' && m'["y11"] == m["y11"] &&
      "y7" in m' && m'["y7"] == m["y7"] &&
      "y17" in m' && m'["y17"] == m["y17"] &&
      "y16" in m' && m'["y16"] == m["y16"] &&
      "t29" in m' && m'["t29"] == m["t29"] &&
      "t33" in m' && m'["t33"] == m["t33"] &&
      "t37" in m' && m'["t37"] == m["t37"] &&
      "t40" in m' && m'["t40"] == m["t40"] &&
      "t41" in m' && m'["t41"] == m["t41"] &&
      "t42" in m' && m'["t42"] == m["t42"] &&
      "t43" in m' && m'["t43"] == sk.xor(m["t29"], m["t40"]) &&
      "t44" in m' && m'["t44"] == sk.xor(m["t33"], m["t37"]) &&
      "t45" in m' && m'["t45"] == sk.xor(m["t42"], m["t41"]) &&
      "z0" in m' && m'["z0"] == sk.and(sk.xor(m["t33"], m["t37"]), m["y15"])
  {
    var w0 := m;
    var w1 := w0["t43" := sk.xor(w0["t29"], w0["t40"])];
    assert Run(sk, gates, 0, w0) == Run(sk, gates, 1, w1);
    var w2 := w1["t44" := sk.xor(w1["t33"], w1["t37"])];
    assert Run(sk, gates, 1, w1) == Run(sk, gates, 2, w2);
    var w3 := w2["t45" := sk.xor(w2["t42"], w2["t41"])];
    assert Run(sk, gates, 2, w2) == Run(sk, gates, 3, w3);
    var w4 := w3["z0" := sk.and(w3["t44"], w3["y15"])];
    assert Run(sk, gates, 3, w3) == Run(sk, gates, 4, w4);
    m' := w4;
  }

  lemma {:induction false} SboxChunk8_1<V>(sk: Engine<V>, gates: seq<Gate>, m: map<string, V>) returns (m': map<string, V>)
    requires 8 <= |gates| && gates[4] == And("z1", "t37", "y6") && gates[5] == And("z2", "t33", "x7") && gates[6] == And("z3", "t43", "y16") && gates[7] == And("z4", "t40", "y1")
    requires "x7" in m && "y14" in m && "y13" in m && "y9" in m && "y8" in m && "y1" in m && "y4" in m && "y12" in m && "y2" in m && "y5" in m && "y3" in m && "y6" in m && "y10" in m && "y11" in m && "y7" in m && "y17" in m && "y16" in m && "t29" in m && "t33" in m && "t37" in m && "t40" in m && "t41" in m && "t42" in m && "t43" in m && "t44" in m && "t45" in m && "z0" in m
    ensures Run(sk, gates, 4, m) == Run(sk, gates, 8, m') &&
      "y14" in m' && m'["y14"] == m["y14"] &&
      "y13" in m' && m'["y13"] == m["y13"] &&
      "y9" in m' && m'["y9"] == m["y9"] &&
      "y8" in m' && m'["y8"] == m["y8"] &&
      "y4" in m' && m'["y4"] == m["y4"] &&
      "y12" in m' && m'["y12"] == m["y12"] &&
      "y2" in m' && m'["y2"] == m["y2"] &&
      "y5" in m' && m'["y5"] == m["y5"] &&
      "y3" in m' && m'["y3"] == m["y3"] &&
      "y10" in m' && m'["y10"] == m["y10"] &&
      "y11" in m' && m'["y11"] == m["y11"] &&
      "y7" in m' && m'["y7"] == m["y7"] &&
      "y17" in m' && m'["y17"] == m["y17"] &&
      "t29" in m' && m'["t29"] == m["t29"] &&
      "t33" in m' && m'["t33"] == m["t33"] &&
      "t37" in m' && m'["t37"] == m["t37"] &&
      "t40" in m' && m'["t40"] == m["t40"] &&
      "t41" in m' && m'["t41"] == m["t41"] &&
      "t42" in m' && m'["t42"] == m["t42"] &&
      "t43" in m' && m'["t43"] == m["t43"] &&
      "t44" in m' && m'["t44"] == m["t44"] &&
      "t45" in m' && m'["t45"] == m["t45"] &&
      "z0" in m' && m'["z0"] == m["z0"] &&
      "z1" in m' && m'["z1"] == sk.and(m["t37"], m["y6"]) &&
      "z2" in m' && m'["z2"] == sk.and(m["t33"], m["x7"]) &&
      "z3" in m' && m'["z3"] == sk.and(m["t43"], m["y16"]) &&
      "z4" in m' && m'["z4"] == sk.and(m["t40"], m["y1"])
  {
    var w0 := m;
    var w1 := w0["z1" := sk.and(w0["t37"], w0["y6"])];
    assert Run(sk, gates, 4, w0) == Run(sk, gates, 5, w1);
    var w2 := w1["z2" := sk.and(w1["t33"], w1["x7"])];
    assert Run(sk, gates, 5, w1) == Run(sk, gates, 6, w2);
    var w3 := w2["z3" := sk.and(w2["t43"], w2["y16"])];
    assert Run(sk, gates, 6, w2) == Run(sk, gates, 7, w3);
    var w4 := w3["z4" := sk.and(w3["t40"], w3["y1"])];
    assert Run(sk, gates, 7, w3) == Run(sk, gates, 8, w4);
    m' := w4;
  }

  /** Every instruction of block 8 spells its gate. */
  lemma {:induction false} SboxSpelled8()
    ensures |SBOX_INSTR_8| == |SBOX_GATES_8| == 8 &&
      (forall k :: 0 <= k < 8 ==> Spelled(SBOX_INSTR_8, SBOX_GATES_8, XorAndNot, k))
  {
    forall k | 0 <= k < 8
      ensures Spelled(SBOX_INSTR_8, SBOX_GATES_8, XorAndNot, k)
    {
      if k == 0 { SboxSpelled8_0(); }
      else if k == 1 { SboxSpelled8_0(); }
      else if k == 2 { SboxSpelled8_1(); }
      else if k == 3 { SboxSpelled8_1(); }
      else if k == 4 { SboxSpelled8_2(); }
      else if k == 5 { SboxSpelled8_2(); }
      else if k == 6 { SboxSpelled8_3(); }
      else { SboxSpelled8_3(); }
    }
  }

  /** Instructions 64 to 71 run from wires holding their live inputs. */
  lemma {:induction false} SboxBlock8<V>(sk: Engine<V>, m: map<string, V>) returns (m': map<string, V>)
    requires "x7" in m && "y14" in m && "y13" in m && "y9" in m && "y8" in m && "y1" in m && "y4" in m && "y12" in m && "y2" in m && "y5" in m && "y3" in m && "y15" in m && "y6" in m && "y10" in m && "y11" in m && "y7" in m && "y17" in m && "y16" in m && "t29" in m && "t33" in m && "t37" in m && "t40" in m && "t41" in m && "t42" in m
    ensures Run(sk, SBOX_GATES_8, 0, m) == Ok(m') &&
      "y14" in m' && m'["y14"] == m["y14"] &&
      "y13" in m' && m'["y13"] == m["y13"] &&
      "y9" in m' && m'["y9"] == m["y9"] &&
      "y8" in m' && m'["y8"] == m["y8"] &&
      "y4" in m' && m'["y4"] == m["y4"] &&
      "y12" in m' && m'["y12"] == m["y12"] &&
      "y2" in m' && m'["y2"] == m["y2"] &&
      "y5" in m' && m'["y5"] == m["y5"] &&
      "y3" in m' && m'["y3"] == m["y3"] &&
      "y10" in m' && m'["y10"] == m["y10"] &&
      "y11" in m' && m'["y11"] == m["y11"] &&
      "y7" in m' && m'["y7"] == m["y7"] &&
      "y17" in m' && m'["y17"] == m["y17"] &&
      "t29" in m' && m'["t29"] == m["t29"] &&
      "t33" in m' && m'["t33"] == m["t33"] &&
      "t37" in m' && m'["t37"] == m["t37"] &&
      "t40" in m' && m'["t40"] == m["t40"] &&
      "t41" in m' && m'["t41"] == m["t41"] &&
      "t42" in m' && m'["t42"] == m["t42"] &&
      "t43" in m' && m'["t43"] == sk.xor(m["t29"], m["t40"]) &&
      "t44" in m' && m'["t44"] == sk.xor(m["t33"], m["t37"]) &&
      "t45" in m' && m'["t45"] == sk.xor(m["t42"], m["t41"]) &&
      "z0" in m' && m'["z0"] == sk.and(sk.xor(m["t33"], m["t37"]), m["y15"]) &&
      "z1" in m' && m'["z1"] == sk.and(m["t37"], m["y6"]) &&
      "z2" in m' && m'["z2"] == sk.and(m["t33"], m["x7"]) &&
      "z3" in m' && m'["z3"] == sk.and(sk.xor(m["t29"], m["t40"]), m["y16"]) &&
      "z4" in m' && m'["z4"] == sk.and(m["t40"], m["y1"])
  {
    var m1 := SboxChunk8_0(sk, SBOX_GATES_8, m);
    var m2 := SboxChunk8_1(sk, SBOX_GATES_8, m1);
    m' := m2;
  }

  lemma {:induction false} SboxSpelled9_0()
    ensures Spelled(SBOX_INSTR_9, SBOX_GATES_9, XorAndNot, 0) &&
      Spelled(SBOX_INSTR_9, SBOX_GATES_9, XorAndNot, 1)
  {
  }

  lemma {:induction false} SboxSpelled9_1()
    ensures Spelled(SBOX_INSTR_9, SBOX_GATES_9, XorAndNot, 2) &&
      Spelled(SBOX_INSTR_9, SBOX_GATES_9, XorAndNot, 3)
  {
  }

  lemma {:induction false} SboxSpelled9_2()
    ensures Spelled(SBOX_INSTR_9, SBOX_GATES_9, XorAndNot, 4) &&
      Spelled(SBOX_INSTR_9, SBOX_GATES_9, XorAndNot, 5)
  {
  }

  lemma {:induction false} SboxSpelled9_3()
    ensures Spelled(SBOX_INSTR_9, SBOX_GATES_9, XorAndNot, 6) &&
      Spelled(SBOX_INSTR_9, SBOX_GATES_9, XorAndNot, 7)
  {
  }

  lemma {:induction false} SboxChunk9_0<V>(sk: Engine<V>, gates: seq<Gate>, m: map<string, V>) returns (m': map<string, V>)
    requires 4 <= |gates| && gates[0] == And("z5", "t29", "y7") && gates[1] == And("z6", "t42", "y11") && gates[2] == And("z7", "t45", "y17") && gates[3] == And("z8", "t41", "y10")
    requires "y14" in m && "y13" in m && "y9" in m && "y8" in m && "y4" in m && "y12" in m && "y2" in m && "y5" in m && "y3" in m && "y10" in m && "y11" in m && "y7" in m && "y17" in m && "t29" in m && "t33" in m && "t37" in m && "t40" in m && "t41" in m && "t42" in m && "t43" in m && "t44" in m && "t45" in m && "z0" in m && "z1" in m && "z2" in m && "z3" in m && "z4" in m
    ensures Run(sk, gates, 0, m) == Run(sk, gates, 4, m') &&
      "y14" in m' && m'["y14"] == m["y14"] &&
      "y13" in m' && m'["y13"] == m["y13"] &&
      "y9" in m' && m'["y9"] == m["y9"] &&
      "y8" in m' && m'["y8"] == m["y8"] &&
      "y4" in m' && m'["y4"] == m["y4"] &&
      "y12" in m' && m'["y12"] == m["y12"] &&
      "y2" in m' && m'["y2"] == m["y2"] &&
      "y5" in m' && m'["y5"] == m["y5"] &&
      "y3" in m' && m'["y3"] == m["y3"] &&
      "t29" in m' && m'["t29"] == m["t29"] &&
      "t33" in m' && m'["t33"] == m["t33"] &&
      "t37" in m' && m'["t37"] == m["t37"] &&
      "t40" in m' && m'["t40"] == m["t40"] &&
      "t41" in m' && m'["t41"] == m["t41"] &&
      "t42" in m' && m'["t42"] == m["t42"] &&
      "t43" in m' && m'["t43"] == m["t43"] &&
      "t44" in m' && m'["t44"] == m["t44"] &&
      "t45" in m' && m'["t45"] == m["t45"] &&
      "z0" in m' && m'["z0"] == m["z0"] &&
      "z1" in m' && m'["z1"] == m["z1"] &&
      "z2" in m' && m'["z2"] == m["z2"] &&
      "z3" in m' && m'["z3"] == m["z3"] &&
      "z4" in m' && m'["z4"] == m["z4"] &&
      "z5" in m' && m'["z5"] == sk.and(m["t29"], m["y7"]) &&
      "z6" in m' && m'["z6"] == sk.and(m["t42"], m["y11"]) &&
      "z7" in m' && m'["z7"] == sk.and(m["t45"], m["y17"]) &&
      "z8" in m' && m'["z8"] == sk.and(m["t41"], m["y10"])
  {
    var w0 := m;
    var w1 := w0["z5" := sk.and(w0["t29"], w0["y7"])];
    assert Run(sk, gates, 0, w0) == Run(sk, gates, 1, w1);
    var w2 := w1["z6" := sk.and(w1["t42"], w1["y11"])];
    assert Run(sk, gates, 1, w1) == Run(sk, gates, 2, w2);
    var w3 := w2["z7" := sk.and(w2["t45"], w2["y17"])];
    assert Run(sk, gates, 2, w2) == Run(sk, gates, 3, w3);
    var w4 := w3["z8" := sk.and(w3["t41"], w3["y10"])];
    assert Run(sk, gates, 3, w3) == Run(sk, gates, 4, w4);
    m' := w4;
  }

  lemma {:induction false} SboxChunk9_1<V>(sk: Engine<V>, gates: seq<Gate>, m: map<string, V>) returns (m': map<string, V>)
    requires 8 <= |gates| && gates[4] == And("z9", "t44", "y12") && gates[5] == And("z10", "t37", "y3") && gates[6] == And("z11", "t33", "y4") && gates[7] == And("z12", "t43", "y13")
    requires "y14" in m && "y13" in m && "y9" in m && "y8" in m && "y4" in m && "y12" in m && "y2" in m && "y5" in m && "y3" in m && "t29" in m && "t33" in m && "t37" in m && "t40" in m && "t41" in m && "t42" in m && "t43" in m && "t44" in m && "t45" in m && "z0" in m && "z1" in m && "z2" in m && "z3" in m && "z4" in m && "z5" in m && "z6" in m && "z7" in m && "z8" in m
    ensures Run(sk, gates, 4, m) == Run(sk, gates, 8, m') &&
      "y14" in m' && m'["y14"] == m["y14"] &&
      "y9" in m' && m'["y9"] == m["y9"] &&
      "y8" in m' && m'["y8"] == m["y8"] &&
      "y2" in m' && m'["y2"] == m["y2"] &&
      "y5" in m' && m'["y5"] == m["y5"] &&
      "t29" in m' && m'["t29"] == m["t29"] &&
      "t40" in m' && m'["t40"] == m["t40"] &&
      "t41" in m' && m'["t41"] == m["t41"] &&
      "t42" in m' && m'["t42"] == m["t42"] &&
      "t45" in m' && m'["t45"] == m["t45"] &&
      "z0" in m' && m'["z0"] == m["z0"] &&
      "z1" in m' && m'["z1"] == m["z1"] &&
      "z2" in m' && m'["z2"] == m["z2"] &&
      "z3" in m' && m'["z3"] == m["z3"] &&
      "z4" in m' && m'["z4"] == m["z4"] &&
      "z5" in m' && m'["z5"] == m["z5"] &&
      "z6" in m' && m'["z6"] == m["z6"] &&
      "z7" in m' && m'["z7"] == m["z7"] &&
      "z8" in m' && m'["z8"] == m["z8"] &&
      "z9" in m' && m'["z9"] == sk.and(m["t44"], m["y12"]) &&
      "z10" in m' && m'["z10"] == sk.and(m["t37"], m["y3"]) &&
      "z11" in m' && m'["z11"] == sk.and(m["t33"], m["y4"]) &&
      "z12" in m' && m'["z12"] == sk.and(m["t43"], m["y13"])
  {
    var w0 := m;
    var w1 := w0["z9" := sk.and(w0["t44"], w0["y12"])];
    assert Run(sk, gates, 4, w0) == Run(sk, gates, 5, w1);
    var w2 := w1["z10" := sk.and(w1["t37"], w1["y3"])];
    assert Run(sk, gates, 5, w1) == Run(sk, gates, 6, w2);
    var w3 := w2["z11" := sk.and(w2["t33"], w2["y4"])];
    assert Run(sk, gates, 6, w2) == Run(sk, gates, 7, w3);
    var w4 := w3["z12" := sk.and(w3["t43"], w3["y13"])];
    assert Run(sk, gates, 7, w3) == Run(sk, gates, 8, w4);
    m' := w4;
  }

  /** Every instruction of block 9 spells its gate. */
  lemma {:induction false} SboxSpelled9()
    ensures |SBOX_INSTR_9| == |SBOX_GATES_9| == 8 &&
      (forall k :: 0 <= k < 8 ==> Spelled(SBOX_INSTR_9, SBOX_GATES_9, XorAndNot, k))
  {
    forall k | 0 <= k < 8
      ensures Spelled(SBOX_INSTR_9, SBOX_GATES_9, XorAndNot, k)
    {
      if k == 0 { SboxSpelled9_0(); }
      else if k == 1 { SboxSpelled9_0(); }
      else if k == 2 { SboxSpelled9_1(); }
      else if k == 3 { SboxSpelled9_1(); }
      else if k == 4 { SboxSpelled9_2(); }
      else if k == 5 { SboxSpelled9_2(); }
      else if k == 6 { SboxSpelled9_3(); }
      else { SboxSpelled9_3(); }
    }
  }

  /** Instructions 72 to 79 run from wires holding their live inputs. */
  lemma {:induction false} SboxBlock9<V>(sk: Engine<V>, m: map<string, V>) returns (m': map<string, V>)
    requires "y14" in m && "y13" in m && "y9" in m && "y8" in m && "y4" in m && "y12" in m && "y2" in m && "y5" in m && "y3" in m && "y10" in m && "y11" in m && "y7" in m && "y17" in m && "t29" in m && "t33" in m && "t37" in m && "t40" in m && "t41" in m && "t42" in m && "t43" in m && "t44" in m && "t45" in m && "z0" in m && "z1" in m && "z2" in m && "z3" in m && "z4" in m
    ensures Run(sk, SBOX_GATES_9, 0, m) == Ok(m') &&
      "y14" in m' && m'["y14"] == m["y14"] &&
      "y9" in m' && m'["y9"] == m["y9"] &&
      "y8" in m' && m'["y8"] == m["y8"] &&
      "y2" in m' && m'["y2"] == m["y2"] &&
      "y5" in m' && m'["y5"] == m["y5"] &&
      "t29" in m' && m'["t29"] == m["t29"] &&
      "t40" in m' && m'["t40"] == m["t40"] &&
      "t41" in m' && m'["t41"] == m["t41"] &&
      "t42" in m' && m'["t42"] == m["t42"] &&
      "t45" in m' && m'["t45"] == m["t45"] &&
      "z0" in m' && m'["z0"] == m["z0"] &&
      "z1" in m' && m'["z1"] == m["z1"] &&
      "z2" in m' && m'["z2"] == m["z2"] &&
      "z3" in m' && m'["z3"] == m["z3"] &&
      "z4" in m' && m'["z4"] == m["z4"] &&
      "z5" in m' && m'["z5"] == sk.and(m["t29"], m["y7"]) &&
      "z6" in m' && m'["z6"] == sk.and(m["t42"], m["y11"]) &&
      "z7" in m' && m'["z7"] == sk.and(m["t45"], m["y17"]) &&
      "z8" in m' && m'["z8"] == sk.and(m["t41"], m["y10"]) &&
      "z9" in m' && m'["z9"] == sk.and(m["t44"], m["y12"]) &&
      "z10" in m' && m'["z10"] == sk.and(m["t37"], m["y3"]) &&
      "z11" in m' && m'["z11"] == sk.and(m["t33"], m["y4"]) &&
      "z12" in m' && m'["z12"] == sk.and(m["t43"], m["y13"])
  {
    var m1 := SboxChunk9_0(sk, SBOX_GATES_9, m);
    var m2 := SboxChunk9_1(sk, SBOX_GATES_9, m1);
    m' := m2;
  }

  lemma {:induction false} SboxSpelled10_0()
    ensures Spelled(SBOX_INSTR_10, SBOX_GATES_10, XorAndNot, 0) &&
      Spelled(SBOX_INSTR_10, SBOX_GATES_10, XorAndNot, 1)
  {
  }

  lemma {:induction false} SboxSpelled10_1()
    ensures Spelled(SBOX_INSTR_10, SBOX_GATES_10, XorAndNot, 2) &&
      Spelled(SBOX_INSTR_10, SBOX_GATES_10, XorAndNot, 3)
  {
  }

  lemma {:induction false} SboxSpelled10_2()
    ensures Spelled(SBOX_INSTR_10, SBOX_GATES_10, XorAndNot, 4) &&
      Spelled(SBOX_INSTR_10, SBOX_GATES_10, XorAndNot, 5)
  {
  }

  lemma {:induction false} SboxSpelled10_3()
    ensures Spelled(SBOX_INSTR_10, SBOX_GATES_10, XorAndNot, 6) &&
      Spelled(SBOX_INSTR_10, SBOX_GATES_10, XorAndNot, 7)
  {
  }

  lemma {:induction false} SboxChunk10_0<V>(sk: Engine<V>, gates: seq<Gate>, m: map<string, V>) returns (m': map<string, V>)
    requires 4 <= |gates| && gates[0] == And("z13", "t40", "y5") && gates[1] == And("z14", "t29", "y2") && gates[2] == And("z15", "t42", "y9") && gates[3] == And("z16", "t45", "y14")
    requires "y14" in m && "y9" in m && "y8" in m && "y2" in m && "y5" in m && "t29" in m && "t40" in m && "t41" in m && "t42" in m && "t45" in m && "z0" in m && "z1" in m && "z2" in m && "z3" in m && "z4" in m && "z5" in m && "z6" in m && "z7" in m && "z8" in m && "z9" in m && "z10" in m && "z11" in m && "z12" in m
    ensures Run(sk, gates, 0, m) == Run(sk, gates, 4, m') &&
      "y8" in m' && m'["y8"] == m["y8"] &&
      "t41" in m' && m'["t41"] == m["t41"] &&
      "z0" in m' && m'["z0"] == m["z0"] &&
      "z1" in m' && m'["z1"] == m["z1"] &&
      "z2" in m' && m'["z2"] == m["z2"] &&
      "z3" in m' && m'["z3"] == m["z3"] &&
      "z4" in m' && m'["z4"] == m["z4"] &&
      "z5" in m' && m'["z5"] == m["z5"] &&
      "z6" in m' && m'["z6"] == m["z6"] &&
      "z7" in m' && m'["z7"] == m["z7"] &&
      "z8" in m' && m'["z8"] == m["z8"] &&
      "z9" in m' && m'["z9"] == m["z9"] &&
      "z10" in m' && m'["z10"] == m["z10"] &&
      "z11" in m' && m'["z11"] == m["z11"] &&
      "z12" in m' && m'["z12"] == m["z12"] &&
      "z13" in m' && m'["z13"] == sk.and(m["t40"], m["y5"]) &&
      "z14" in m' && m'["z14"] == sk.and(m["t29"], m["y2"]) &&
      "z15" in m' && m'["z15"] == sk.and(m["t42"], m["y9"]) &&
      "z16" in m' && m'["z16"] == sk.and(m["t45"], m["y14"])
  {
    var w0 := m;
    var w1 := w0["z13" := sk.and(w0["t40"], w0["y5"])];
    assert Run(sk, gates, 0, w0) == Run(sk, gates, 1, w1);
    var w2 := w1["z14" := sk.and(w1["t29"], w1["y2"])];
    assert Run(sk, gates, 1, w1) == Run(sk, gates, 2, w2);
    var w3 := w2["z15" := sk.and(w2["t42"], w2["y9"])];
    assert Run(sk, gates, 2, w2) == Run(sk, gates, 3, w3);
    var w4 := w3["z16" := sk.and(w3["t45"], w3["y14"])];
    assert Run(sk, gates, 3, w3) == Run(sk, gates, 4, w4);
    m' := w4;
  }

  lemma {:induction false} SboxChunk10_1<V>(sk: Engine<V>, gates: seq<Gate>, m: map<string, V>) returns (m': map<string, V>)
    requires 8 <= |gates| && gates[4] == And("z17", "t41", "y8") && gates[5] == Xor("t46", "z15", "z16") && gates[6] == Xor("t47", "z10", "z11") && gates[7] == Xor("t48", "z5", "z13")
    requires "y8" in m && "t41" in m && "z0" in m && "z1" in m && "z2" in m && "z3" in m && "z4" in m && "z5" in m && "z6" in m && "z7" in m && "z8" in m && "z9" in m && "z10" in m && "z11" in m && "z12" in m && "z13" in m && "z14" in m && "z15" in m && "z16" in m
    ensures Run(sk, gates, 4, m) == Run(sk, gates, 8, m') &&
      "z0" in m' && m'["z0"] == m["z0"] &&
      "z1" in m' && m'["z1"] == m["z1"] &&
      "z2" in m' && m'["z2"] == m["z2"] &&
      "z3" in m' && m'["z3"] == m["z3"] &&
      "z4" in m' && m'["z4"] == m["z4"] &&
      "z5" in m' && m'["z5"] == m["z5"] &&
      "z6" in m' && m'["z6"] == m["z6"] &&
      "z7" in m' && m'["z7"] == m["z7"] &&
      "z8" in m' && m'["z8"] == m["z8"] &&
      "z9" in m' && m'["z9"] == m["z9"] &&
      "z10" in m' && m'["z10"] == m["z10"] &&
      "z12" in m' && m'["z12"] == m["z12"] &&
      "z14" in m' && m'["z14"] == m["z14"] &&
      "z16" in m' && m'["z16"] == m["z16"] &&
      "z17" in m' && m'["z17"] == sk.and(m["t41"], m["y8"]) &&
      "t46" in m' && m'["t46"] == sk.xor(m["z15"], m["z16"]) &&
      "t47" in m' && m'["t47"] == sk.xor(m["z10"], m["z11"]) &&
      "t48" in m' && m'["t48"] == sk.xor(m["z5"], m["z13"])
  {
    var w0 := m;
    var w1 := w0["z17" := sk.and(w0["t41"], w0["y8"])];
    assert Run(sk, gates, 4, w0) == Run(sk, gates, 5, w1);
    var w2 := w1["t46" := sk.xor(w1["z15"], w1["z16"])];
    assert Run(sk, gates, 5, w1) == Run(sk, gates, 6, w2);
    var w3 := w2["t47" := sk.xor(w2["z10"], w2["z11"])];
    assert Run(sk, gates, 6, w2) == Run(sk, gates, 7, w3);
    var w4 := w3["t48" := sk.xor(w3["z5"], w3["z13"])];
    assert Run(sk, gates, 7, w3) == Run(sk, gates, 8, w4);
    m' := w4;
  }

  /** Every instruction of block 10 spells its gate. */
  lemma {:induction false} SboxSpelled10()
    ensures |SBOX_INSTR_10| == |SBOX_GATES_10| == 8 &&
      (forall k :: 0 <= k < 8 ==> Spelled(SBOX_INSTR_10, SBOX_GATES_10, XorAndNot, k))
  {
    forall k | 0 <= k < 8
      ensures Spelled(SBOX_INSTR_10, SBOX_GATES_10, XorAndNot, k)
    {
      if k == 0 { SboxSpelled10_0(); }
      else if k == 1 { SboxSpelled10_0(); }
      else if k == 2 { SboxSpelled10_1(); }
      else if k == 3 { SboxSpelled10_1(); }
      else if k == 4 { SboxSpelled10_2(); }
      else if k == 5 { SboxSpelled10_2(); }
      else if k == 6 { SboxSpelled10_3(); }
      else { SboxSpelled10_3(); }
    }
  }

  /** Instructions 80 to 87 run from wires holding their live inputs. */
  lemma {:induction false} SboxBlock10<V>(sk: Engine<V>, m: map<string, V>) returns (m': map<string, V>)
    requires "y14" in m && "y9" in m && "y8" in m && "y2" in m && "y5" in m && "t29" in m && "t40" in m && "t41" in m && "t42" in m && "t45" in m && "z0" in m && "z1" in m && "z2" in m && "z3" in m && "z4" in m && "z5" in m && "z6" in m && "z7" in m && "z8" in m && "z9" in m && "z10" in m && "z11" in m && "z12" in m
    ensures Run(sk, SBOX_GATES_10, 0, m) == Ok(m') &&
      "z0" in m' && m'["z0"] == m["z0"] &&
      "z1" in m' && m'["z1"] == m["z1"] &&
      "z2" in m' && m'["z2"] == m["z2"] &&
      "z3" in m' && m'["z3"] == m["z3"] &&
      "z4" in m' && m'["z4"] == m["z4"] &&
      "z5" in m' && m'["z5"] == m["z5"] &&
      "z6" in m' && m'["z6"] == m["z6"] &&
      "z7" in m' && m'["z7"] == m["z7"] &&
      "z8" in m' && m'["z8"] == m["z8"] &&
      "z9" in m' && m'["z9"] == m["z9"] &&
      "z10" in m' && m'["z10"] == m["z10"] &&
      "z12" in m' && m'["z12"] == m["z12"] &&
      "z14" in m' && m'["z14"] == sk.and(m["t29"], m["y2"]) &&
      "z16" in m' && m'["z16"] == sk.and(m["t45"], m["y14"]) &&
      "z17" in m' && m'["z17"] == sk.and(m["t41"], m["y8"]) &&
      "t46" in m' && m'["t46"] == sk.xor(sk.and(m["t42"], m["y9"]), sk.and(m["t45"], m["y14"])) &&
      "t47" in m' && m'["t47"] == sk.xor(m["z10"], m["z11"]) &&
      "t48" in m' && m'["t48"] == sk.xor(m["z5"], sk.and(m["t40"], m["y5"]))
  {
    var m1 := SboxChunk10_0(sk, SBOX_GATES_10, m);
    var m2 := SboxChunk10_1(sk, SBOX_GATES_10, m1);
    m' := m2;
  }

  lemma {:induction false} SboxSpelled11_0()
    ensures Spelled(SBOX_INSTR_11, SBOX_GATES_11, XorAndNot, 0) &&
      Spelled(SBOX_INSTR_11, SBOX_GATES_11, XorAndNot, 1)
  {
  }

  lemma {:induction false} SboxSpelled11_1()
    ensures Spelled(SBOX_INSTR_11, SBOX_GATES_11, XorAndNot, 2) &&
      Spelled(SBOX_INSTR_11, SBOX_GATES_11, XorAndNot, 3)
  {
  }

  lemma {:induction false} SboxSpelled11_2()
    ensures Spelled(SBOX_INSTR_11, SBOX_GATES_11, XorAndNot, 4) &&
      Spelled(SBOX_INSTR_11, SBOX_GATES_11, XorAndNot, 5)
  {
  }

  lemma {:induction false} SboxSpelled11_3()
    ensures Spelled(SBOX_INSTR_11, SBOX_GATES_11, XorAndNot, 6) &&
      Spelled(SBOX_INSTR_11, SBOX_GATES_11, XorAndNot, 7)
  {
  }

  lemma {:induction false} SboxChunk11_0<V>(sk: Engine<V>, gates: seq<Gate>, m: map<string, V>) returns (m': map<string, V>)
    requires 4 <= |gates| && gates[0] == Xor("t49", "z9", "z10") && gates[1] == Xor("t50", "z2", "z12") && gates[2] == Xor("t51", "z2", "z5") && gates[3] == Xor("t52", "z7", "z8")
    requires "z0" in m && "z1" in m && "z2" in m && "z3" in m && "z4" in m && "z5" in m && "z6" in m && "z7" in m && "z8" in m && "z9" in m && "z10" in m && "z12" in m && "z14" in m && "z16" in m && "z17" in m && "t46" in m && "t47" in m && "t48" in m
    ensures Run(sk, gates, 0, m) == Run(sk, gates, 4, m') &&
      "z0" in m' && m'["z0"] == m["z0"] &&
      "z1" in m' && m'["z1"] == m["z1"] &&
      "z3" in m' && m'["z3"] == m["z3"] &&
      "z4" in m' && m'["z4"] == m["z4"] &&
      "z6" in m' && m'["z6"] == m["z6"] &&
      "z7" in m' && m'["z7"] == m["z7"] &&
      "z12" in m' && m'["z12"] == m["z12"] &&
      "z14" in m' && m'["z14"] == m["z14"] &&
      "z16" in m' && m'["z16"] == m["z16"] &&
      "z17" in m' && m'["z17"] == m["z17"] &&
      "t46" in m' && m'["t46"] == m["t46"] &&
      "t47" in m' && m'["t47"] == m["t47"] &&
      "t48" in m' && m'["t48"] == m["t48"] &&
      "t49" in m' && m'["t49"] == sk.xor(m["z9"], m["z10"]) &&
      "t50" in m' && m'["t50"] == sk.xor(m["z2"], m["z12"]) &&
      "t51" in m' && m'["t51"] == sk.xor(m["z2"], m["z5"]) &&
      "t52" in m' && m'["t52"] == sk.xor(m["z7"], m["z8"])
  {
    var w0 := m;
    var w1 := w0["t49" := sk.xor(w0["z9"], w0["z10"])];
    assert Run(sk, gates, 0, w0) == Run(sk, gates, 1, w1);
    var w2 := w1["t50" := sk.xor(w1["z2"], w1["z12"])];
    assert Run(sk, gates, 1, w1) == Run(sk, gates, 2, w2);
    var w3 := w2["t51" := sk.xor(w2["z2"], w2["z5"])];
    assert Run(sk, gates, 2, w2) == Run(sk, gates, 3, w3);
    var w4 := w3["t52" := sk.xor(w3["z7"], w3["z8"])];
    assert Run(sk, gates, 3, w3) == Run(sk, gates, 4, w4);
    m' := w4;
  }

  lemma {:induction false} SboxChunk11_1<V>(sk: Engine<V>, gates: seq<Gate>, m: map<string, V>) returns (m': map<string, V>)
    requires 8 <= |gates| && gates[4] == Xor("t53", "z0", "z3") && gates[5] == Xor("t54", "z6", "z7") && gates[6] == Xor("t55", "z16", "z17") && gates[7] == Xor("t56", "z12", "t48")
    requires "z0" in m && "z1" in m && "z3" in m && "z4" in m && "z6" in m && "z7" in m && "z12" in m && "z14" in m && "z16" in m && "z17" in m && "t46" in m && "t47" in m && "t48" in m && "t49" in m && "t50" in m && "t51" in m && "t52" in m
    ensures Run(sk, gates, 4, m) == Run(sk, gates, 8, m') &&
      "z1" in m' && m'["z1"] == m["z1"] &&
      "z3" in m' && m'["z3"] == m["z3"] &&
      "z4" in m' && m'["z4"] == m["z4"] &&
      "z14" in m' && m'["z14"] == m["z14"] &&
      "t46" in m' && m'["t46"] == m["t46"] &&
      "t47" in m' && m'["t47"] == m["t47"] &&
      "t48" in m' && m'["t48"] == m["t48"] &&
      "t49" in m' && m'["t49"] == m["t49"] &&
      "t50" in m' && m'["t50"] == m["t50"] &&
      "t51" in m' && m'["t51"] == m["t51"] &&
      "t52" in m' && m'["t52"] == m["t52"] &&
      "t53" in m' && m'["t53"] == sk.xor(m["z0"], m["z3"]) &&
      "t54" in m' && m'["t54"] == sk.xor(m["z6"], m["z7"]) &&
      "t55" in m' && m'["t55"] == sk.xor(m["z16"], m["z17"]) &&
      "t56" in m' && m'["t56"] == sk.xor(m["z12"], m["t48"])
  {
    var w0 := m;
    var w1 := w0["t53" := sk.xor(w0["z0"], w0["z3"])];
    assert Run(sk, gates, 4, w0) == Run(sk, gates, 5, w1);
    var w2 := w1["t54" := sk.xor(w1["z6"], w1["z7"])];
    assert Run(sk, gates, 5, w1) == Run(sk, gates, 6, w2);
    var w3 := w2["t55" := sk.xor(w2["z16"], w2["z17"])];
    assert Run(sk, gates, 6, w2) == Run(sk, gates, 7, w3);
    var w4 := w3["t56" := sk.xor(w3["z12"], w3["t48"])];
    assert Run(sk, gates, 7, w3) == Run(sk, gates, 8, w4);
    m' := w4;
  }

  /** Every instruction of block 11 spells its gate. */
  lemma {:induction false} SboxSpelled11()
    ensures |SBOX_INSTR_11| == |SBOX_GATES_11| == 8 &&
      (forall k :: 0 <= k < 8 ==> Spelled(SBOX_INSTR_11, SBOX_GATES_11, XorAndNot, k))
  {
    forall k | 0 <= k < 8
      ensures Spelled(SBOX_INSTR_11, SBOX_GATES_11, XorAndNot, k)
    {
      if k == 0 { SboxSpelled11_0(); }
      else if k == 1 { SboxSpelled11_0(); }
      else if k == 2 { SboxSpelled11_1(); }
      else if k == 3 { SboxSpelled11_1(); }
      else if k == 4 { SboxSpelled11_2(); }
      else if k == 5 { SboxSpelled11_2(); }
      else if k == 6 { SboxSpelled11_3(); }
      else { SboxSpelled11_3(); }
    }
  }

  /** Instructions 88 to 95 run from wires holding their live inputs. */
  lemma {:induction false} SboxBlock11<V>(sk: Engine<V>, m: map<string, V>) returns (m': map<string, V>)
    requires "z0" in m && "z1" in m && "z2" in m && "z3" in m && "z4" in m && "z5" in m && "z6" in m && "z7" in m && "z8" in m && "z9" in m && "z10" in m && "z12" in m && "z14" in m && "z16" in m && "z17" in m && "t46" in m && "t47" in m && "t48" in m
    ensures Run(sk, SBOX_GATES_11, 0, m) == Ok(m') &&
      "z1" in m' && m'["z1"] == m["z1"] &&
      "z3" in m' && m'["z3"] == m["z3"] &&
      "z4" in m' && m'["z4"] == m["z4"] &&
      "z14" in m' && m'["z14"] == m["z14"] &&
      "t46" in m' && m'["t46"] == m["t46"] &&
      "t47" in m' && m'["t47"] == m["t47"] &&
      "t48" in m' && m'["t48"] == m["t48"] &&
      "t49" in m' && m'["t49"] == sk.xor(m["z9"], m["z10"]) &&
      "t50" in m' && m'["t50"] == sk.xor(m["z2"], m["z12"]) &&
      "t51" in m' && m'["t51"] == sk.xor(m["z2"], m["z5"]) &&
      "t52" in m' && m'["t52"] == sk.xor(m["z7"], m["z8"]) &&
      "t53" in m' && m'["t53"] == sk.xor(m["z0"], m["z3"]) &&
      "t54" in m' && m'["t54"] == sk.xor(m["z6"], m["z7"]) &&
      "t55" in m' && m'["t55"] == sk.xor(m["z16"], m["z17"]) &&
      "t56" in m' && m'["t56"] == sk.xor(m["z12"], m["t48"])
  {
    var m1 := SboxChunk11_0(sk, SBOX_GATES_11, m);
    var m2 := SboxChunk11_1(sk, SBOX_GATES_11, m1);
    m' := m2;
  }

  lemma {:induction false} SboxSpelled12_0()
    ensures Spelled(SBOX_INSTR_12, SBOX_GATES_12, XorAndNot, 0) &&
      Spelled(SBOX_INSTR_12, SBOX_GATES_12, XorAndNot, 1)
  {
  }

  lemma {:induction false} SboxSpelled12_1()
    ensures Spelled(SBOX_INSTR_12, SBOX_GATES_12, XorAndNot, 2) &&
      Spelled(SBOX_INSTR_12, SBOX_GATES_12, XorAndNot, 3)
  {
  }

  lemma {:induction false} SboxSpelled12_2()
    ensures Spelled(SBOX_INSTR_12, SBOX_GATES_12, XorAndNot, 4) &&
      Spelled(SBOX_INSTR_12, SBOX_GATES_12, XorAndNot, 5)
  {
  }

  lemma {:induction false} SboxSpelled12_3()
    ensures Spelled(SBOX_INSTR_12, SBOX_GATES_12, XorAndNot, 6) &&
      Spelled(SBOX_INSTR_12, SBOX_GATES_12, XorAndNot, 7)
  {
  }

  lemma {:induction false} SboxChunk12_0<V>(sk: Engine<V>, gates: seq<Gate>, m: map<string, V>) returns (m': map<string, V>)
    requires 4 <= |gates| && gates[0] == Xor("t57", "t50", "t53") && gates[1] == Xor("t58", "z4", "t46") && gates[2] == Xor("t59", "z3", "t54") && gates[3] == Xor("t60", "t46", "t57")
    requires "z1" in m && "z3" in m && "z4" in m && "z14" in m && "t46" in m && "t47" in m && "t48" in m && "t49" in m && "t50" in m && "t51" in m && "t52" in m && "t53" in m && "t54" in m && "t55" in m && "t56" in m
    ensures Run(sk, gates, 0, m) == Run(sk, gates, 4, m') &&
      "z1" in m' && m'["z1"] == m["z1"] &&
      "z4" in m' && m'["z4"] == m["z4"] &&
      "z14" in m' && m'["z14"] == m["z14"] &&
      "t47" in m' && m'["t47"] == m["t47"] &&
      "t48" in m' && m'["t48"] == m["t48"] &&
      "t49" in m' && m'["t49"] == m["t49"] &&
      "t51" in m' && m'["t51"] == m["t51"] &&
      "t52" in m' && m'["t52"] == m["t52"] &&
      "t53" in m' && m'["t53"] == m["t53"] &&
      "t55" in m' && m'["t55"] == m["t55"] &&
      "t56" in m' && m'["t56"] == m["t56"] &&
      "t57" in m' && m'["t57"] == sk.xor(m["t50"], m["t53"]) &&
      "t58" in m' && m'["t58"] == sk.xor(m["z4"], m["t46"]) &&
      "t59" in m' && m'["t59"] == sk.xor(m["z3"], m["t54"]) &&
      "t60" in m' && m'["t60"] == sk.xor(m["t46"], sk.xor(m["t50"], m["t53"]))
  {
    var w0 := m;
    var w1 := w0["t57" := sk.xor(w0["t50"], w0["t53"])];
    assert Run(sk, gates, 0, w0) == Run(sk, gates, 1, w1);
    var w2 := w1["t58" := sk.xor(w1["z4"], w1["t46"])];
    assert Run(sk, gates, 1, w1) == Run(sk, gates, 2, w2);
    var w3 := w2["t59" := sk.xor(w2["z3"], w2["t54"])];
    assert Run(sk, gates, 2, w2) == Run(sk, gates, 3, w3);
    var w4 := w3["t60" := sk.xor(w3["t46"], w3["t57"])];
    assert Run(sk, gates, 3, w3) == Run(sk, gates, 4, w4);
    m' := w4;
  }

  lemma {:induction false} SboxChunk12_1<V>(sk: Engine<V>, gates: seq<Gate>, m: map<string, V>) returns (m': map<string, V>)
    requires 8 <= |gates| && gates[4] == Xor("t61", "z14", "t57") && gates[5] == Xor("t62", "t52", "t58") && gates[6] == Xor("t63", "t49", "t58") && gates[7] == Xor("t64", "z4", "t59")
    requires "z1" in m && "z4" in m && "z14" in m && "t47" in m && "t48" in m && "t49" in m && "t51" in m && "t52" in m && "t53" in m && "t55" in m && "t56" in m && "t57" in m && "t58" in m && "t59" in m && "t60" in m
    ensures Run(sk, gates, 4, m) == Run(sk, gates, 8, m') &&
      "z1" in m' && m'["z1"] == m["z1"] &&
      "t47" in m' && m'["t47"] == m["t47"] &&
      "t48" in m' && m'["t48"] == m["t48"] &&
      "t51" in m' && m'["t51"] == m["t51"] &&
      "t53" in m' && m'["t53"] == m["t53"] &&
      "t55" in m' && m'["t55"] == m["t55"] &&
      "t56" in m' && m'["t56"] == m["t56"] &&
      "t59" in m' && m'["t59"] == m["t59"] &&
      "t60" in m' && m'["t60"] == m["t60"] &&
      "t61" in m' && m'["t61"] == sk.xor(m["z14"], m["t57"]) &&
      "t62" in m' && m'["t62"] == sk.xor(m["t52"], m["t58"]) &&
      "t63" in m' && m'["t63"] == sk.xor(m["t49"], m["t58"]) &&
      "t64" in m' && m'["t64"] == sk.xor(m["z4"], m["t59"])
  {
    var w0 := m;
    var w1 := w0["t61" := sk.xor(w0["z14"], w0["t57"])];
    assert Run(sk, gates, 4, w0) == Run(sk, gates, 5, w1);
    var w2 := w1["t62" := sk.xor(w1["t52"], w1["t58"])];
    assert Run(sk, gates, 5, w1) == Run(sk, gates, 6, w2);
    var w3 := w2["t63" := sk.xor(w2["t49"], w2["t58"])];
    assert Run(sk, gates, 6, w2) == Run(sk, gates, 7, w3);
    var w4 := w3["t64" := sk.xor(w3["z4"], w3["t59"])];
    assert Run(sk, gates, 7, w3) == Run(sk, gates, 8, w4);
    m' := w4;
  }

  /** Every instruction of block 12 spells its gate. */
  lemma {:induction false} SboxSpelled12()
    ensures |SBOX_INSTR_12| == |SBOX_GATES_12| == 8 &&
      (forall k :: 0 <= k < 8 ==> Spelled(SBOX_INSTR_12, SBOX_GATES_12, XorAndNot, k))
  {
    forall k | 0 <= k < 8
      ensures Spelled(SBOX_INSTR_12, SBOX_GATES_12, XorAndNot, k)
    {
      if k == 0 { SboxSpelled12_0(); }
      else if k == 1 { SboxSpelled12_0(); }
      else if k == 2 { SboxSpelled12_1(); }
      else if k == 3 { SboxSpelled12_1(); }
      else if k == 4 { SboxSpelled12_2(); }
      else if k == 5 { SboxSpelled12_2(); }
      else if k == 6 { SboxSpelled12_3(); }
      else { SboxSpelled12_3(); }
    }
  }

  /** Instructions 96 to 103 run from wires holding their live inputs. */
  lemma {:induction false} SboxBlock12<V>(sk: Engine<V>, m: map<string, V>) returns (m': map<string, V>)
    requires "z1" in m && "z3" in m && "z4" in m && "z14" in m && "t46" in m && "t47" in m && "t48" in m && "t49" in m && "t50" in m && "t51" in m && "t52" in m && "t53" in m && "t54" in m && "t55" in m && "t56" in m
    ensures Run(sk, SBOX_GATES_12, 0, m) == Ok(m') &&
      "z1" in m' && m'["z1"] == m["z1"] &&
      "t47" in m' && m'["t47"] == m["t47"] &&
      "t48" in m' && m'["t48"] == m["t48"] &&
      "t51" in m' && m'["t51"] == m["t51"] &&
      "t53" in m' && m'["t53"] == m["t53"] &&
      "t55" in m' && m'["t55"] == m["t55"] &&
      "t56" in m' && m'["t56"] == m["t56"] &&
      "t59" in m' && m'["t59"] == sk.xor(m["z3"], m["t54"]) &&
      "t60" in m' && m'["t60"] == sk.xor(m["t46"], sk.xor(m["t50"], m["t53"])) &&
      "t61" in m' && m'["t61"] == sk.xor(m["z14"], sk.xor(m["t50"], m["t53"])) &&
      "t62" in m' && m'["t62"] == sk.xor(m["t52"], sk.xor(m["z4"], m["t46"])) &&
      "t63" in m' && m'["t63"] == sk.xor(m["t49"], sk.xor(m["z4"], m["t46"])) &&
      "t64" in m' && m'["t64"] == sk.xor(m["z4"], sk.xor(m["z3"], m["t54"]))
  {
    var m1 := SboxChunk12_0(sk, SBOX_GATES_12, m);
    var m2 := SboxChunk12_1(sk, SBOX_GATES_12, m1);
    m' := m2;
  }

  lemma {:induction false} SboxSpelled13_0()
    ensures Spelled(SBOX_INSTR_13, SBOX_GATES_13, XorAndNot, 0) &&
      Spelled(SBOX_INSTR_13, SBOX_GATES_13, XorAndNot, 1)
  {
  }

  lemma {:induction false} SboxSpelled13_1()
    ensures Spelled(SBOX_INSTR_13, SBOX_GATES_13, XorAndNot, 2) &&
      Spelled(SBOX_INSTR_13, SBOX_GATES_13, XorAndNot, 3)
  {
  }

  lemma {:induction false} SboxSpelled13_2()
    ensures Spelled(SBOX_INSTR_13, SBOX_GATES_13, XorAndNot, 4) &&
      Spelled(SBOX_INSTR_13, SBOX_GATES_13, XorAndNot, 5)
  {
  }

  lemma {:induction false} SboxSpelled13_3()
    ensures Spelled(SBOX_INSTR_13, SBOX_GATES_13, XorAndNot, 6) &&
      Spelled(SBOX_INSTR_13, SBOX_GATES_13, XorAndNot, 7)
  {
  }

  lemma {:induction false} SboxChunk13_0<V>(sk: Engine<V>, gates: seq<Gate>, m: map<string, V>) returns (m': map<string, V>)
    requires 4 <= |gates| && gates[0] == Xor("t65", "t61", "t62") && gates[1] == Xor("t66", "z1", "t63") && gates[2] == Xor("t67", "t64", "t65") && gates[3] == Xor("s77", "t48", "t60")
    requires "z1" in m && "t47" in m && "t48" in m && "t51" in m && "t53" in m && "t55" in m && "t56" in m && "t59" in m && "t60" in m && "t61" in m && "t62" in m && "t63" in m && "t64" in m
    ensures Run(sk, gates, 0, m) == Run(sk, gates, 4, m') &&
      "t47" in m' && m'["t47"] == m["t47"] &&
      "t51" in m' && m'["t51"] == m["t51"] &&
      "t53" in m' && m'["t53"] == m["t53"] &&
      "t55" in m' && m'["t55"] == m["t55"] &&
      "t56" in m' && m'["t56"] == m["t56"] &&
      "t59" in m' && m'["t59"] == m["t59"] &&
      "t62" in m' && m'["t62"] == m["t62"] &&
      "t63" in m' && m'["t63"] == m["t63"] &&
      "t64" in m' && m'["t64"] == m["t64"] &&
      "t65" in m' && m'["t65"] == sk.xor(m["t61"], m["t62"]) &&
      "t66" in m' && m'["t66"] == sk.xor(m["z1"], m["t63"]) &&
      "t67" in m' && m'["t67"] == sk.xor(m["t64"], sk.xor(m["t61"], m["t62"])) &&
      "s77" in m' && m'["s77"] == sk.xor(m["t48"], m["t60"])
  {
    var w0 := m;
    var w1 := w0["t65" := sk.xor(w0["t61"], w0["t62"])];
    assert Run(sk, gates, 0, w0) == Run(sk, gates, 1, w1);
    var w2 := w1["t66" := sk.xor(w1["z1"], w1["t63"])];
    assert Run(sk, gates, 1, w1) == Run(sk, gates, 2, w2);
    var w3 := w2["t67" := sk.xor(w2["t64"], w2["t65"])];
    assert Run(sk, gates, 2, w2) == Run(sk, gates, 3, w3);
    var w4 := w3["s77" := sk.xor(w3["t48"], w3["t60"])];
    assert Run(sk, gates, 3, w3) == Run(sk, gates, 4, w4);
    m' := w4;
  }

  lemma {:induction false} SboxChunk13_1<V>(sk: Engine<V>, gates: seq<Gate>, m: map<string, V>) returns (m': map<string, V>)
    requires 8 <= |gates| && gates[4] == Not("s7", "s77") && gates[5] == Xor("s66", "t56", "t62") && gates[6] == Not("s6", "s66") && gates[7] == Xor("s5", "t47", "t65")
    requires "t47" in m && "t51" in m && "t53" in m && "t55" in m && "t56" in m && "t59" in m && "t62" in m && "t63" in m && "t64" in m && "t65" in m && "t66" in m && "t67" in m && "s77" in m
    ensures Run(sk, gates, 4, m) == Run(sk, gates, 8, m') &&
      "t51" in m' && m'["t51"] == m["t51"] &&
      "t53" in m' && m'["t53"] == m["t53"] &&
      "t55" in m' && m'["t55"] == m["t55"] &&
      "t59" in m' && m'["t59"] == m["t59"] &&
      "t63" in m' && m'["t63"] == m["t63"] &&
      "t64" in m' && m'["t64"] == m["t64"] &&
      "t66" in m' && m'["t66"] == m["t66"] &&
      "t67" in m' && m'["t67"] == m["t67"] &&
      "s7" in m' && m'["s7"] == sk.not(m["s77"]) &&
      "s6" in m' && m'["s6"] == sk.not(sk.xor(m["t56"], m["t62"])) &&
      "s5" in m' && m'["s5"] == sk.xor(m["t47"], m["t65"])
  {
    var w0 := m;
    var w1 := w0["s7" := sk.not(w0["s77"])];
    assert Run(sk, gates, 4, w0) == Run(sk, gates, 5, w1);
    var w2 := w1["s66" := sk.xor(w1["t56"], w1["t62"])];
    assert Run(sk, gates, 5, w1) == Run(sk, gates, 6, w2);
    var w3 := w2["s6" := sk.not(w2["s66"])];
    assert Run(sk, gates, 6, w2) == Run(sk, gates, 7, w3);
    var w4 := w3["s5" := sk.xor(w3["t47"], w3["t65"])];
    assert Run(sk, gates, 7, w3) == Run(sk, gates, 8, w4);
    m' := w4;
  }

  /** Every instruction of block 13 spells its gate. */
  lemma {:induction false} SboxSpelled13()
    ensures |SBOX_INSTR_13| == |SBOX_GATES_13| == 8 &&
      (forall k :: 0 <= k < 8 ==> Spelled(SBOX_INSTR_13, SBOX_GATES_13, XorAndNot, k))
  {
    forall k | 0 <= k < 8
      ensures Spelled(SBOX_INSTR_13, SBOX_GATES_13, XorAndNot, k)
    {
      if k == 0 { SboxSpelled13_0(); }
      else if k == 1 { SboxSpelled13_0(); }
      else if k == 2 { SboxSpelled13_1(); }
      else if k == 3 { SboxSpelled13_1(); }
      else if k == 4 { SboxSpelled13_2(); }
      else if k == 5 { SboxSpelled13_2(); }
      else if k == 6 { SboxSpelled13_3(); }
      else { SboxSpelled13_3(); }
    }
  }

  /** Instructions 104 to 111 run from wires holding their live inputs. */
  lemma {:induction false} SboxBlock13<V>(sk: Engine<V>, m: map<string, V>) returns (m': map<string, V>)
    requires "z1" in m && "t47" in m && "t48" in m && "t51" in m && "t53" in m && "t55" in m && "t56" in m && "t59" in m && "t60" in m && "t61" in m && "t62" in m && "t63" in m && "t64" in m
    ensures Run(sk, SBOX_GATES_13, 0, m) == Ok(m') &&
      "t51" in m' && m'["t51"] == m["t51"] &&
      "t53" in m' && m'["t53"] == m["t53"] &&
      "t55" in m' && m'["t55"] == m["t55"] &&
      "t59" in m' && m'["t59"] == m["t59"] &&
      "t63" in m' && m'["t63"] == m["t63"] &&
      "t64" in m' && m'["t64"] == m["t64"] &&
      "t66" in m' && m'["t66"] == sk.xor(m["z1"], m["t63"]) &&
      "t67" in m' && m'["t67"] == sk.xor(m["t64"], sk.xor(m["t61"], m["t62"])) &&
      "s7" in m' && m'["s7"] == sk.not(sk.xor(m["t48"], m["t60"])) &&
      "s6" in m' && m'["s6"] == sk.not(sk.xor(m["t56"], m["t62"])) &&
      "s5" in m' && m'["s5"] == sk.xor(m["t47"], sk.xor(m["t61"], m["t62"]))
  {
    var m1 := SboxChunk13_0(sk, SBOX_GATES_13, m);
    var m2 := SboxChunk13_1(sk, SBOX_GATES_13, m1);
    m' := m2;
  }

  lemma {:induction false} SboxSpelled14_0()
    ensures Spelled(SBOX_INSTR_14, SBOX_GATES_14, XorAndNot, 0) &&
      Spelled(SBOX_INSTR_14, SBOX_GATES_14, XorAndNot, 1)
  {
  }

  lemma {:induction false} SboxSpelled14_1()
    ensures Spelled(SBOX_INSTR_14, SBOX_GATES_14, XorAndNot, 2) &&
      Spelled(SBOX_INSTR_14, SBOX_GATES_14, XorAndNot, 3)
  {
  }

  lemma {:induction false} SboxSpelled14_2()
    ensures Spelled(SBOX_INSTR_14, SBOX_GATES_14, XorAndNot, 4) &&
      Spelled(SBOX_INSTR_14, SBOX_GATES_14, XorAndNot, 5)
  {
  }

  lemma {:induction false} SboxSpelled14_3()
    ensures Spelled(SBOX_INSTR_14, SBOX_GATES_14, XorAndNot, 6)
  {
  }

  lemma {:induction false} SboxChunk14_0<V>(sk: Engine<V>, gates: seq<Gate>, m: map<string, V>) returns (m': map<string, V>)
    requires 4 <= |gates| && gates[0] == Xor("s4", "t51", "t66") && gates[1] == Xor("s3", "t53", "t66") && gates[2] == Xor("s22", "t55", "t67") && gates[3] == Not("s2", "s22")
    requires "t51" in m && "t53" in m && "t55" in m && "t59" in m && "t63" in m && "t64" in m && "t66" in m && "t67" in m && "s7" in m && "s6" in m && "s5" in m
    ensures Run(sk, gates, 0, m) == Run(sk, gates, 4, m') &&
      "t59" in m' && m'["t59"] == m["t59"] &&
      "t63" in m' && m'["t63"] == m["t63"] &&
      "t64" in m' && m'["t64"] == m["t64"] &&
      "s7" in m' && m'["s7"] == m["s7"] &&
      "s6" in m' && m'["s6"] == m["s6"] &&
      "s5" in m' && m'["s5"] == m["s5"] &&
      "s4" in m' && m'["s4"] == sk.xor(m["t51"], m["t66"]) &&
      "s3" in m' && m'["s3"] == sk.xor(m["t53"], m["t66"]) &&
      "s2" in m' && m'["s2"] == sk.not(sk.xor(m["t55"], m["t67"]))
  {
    var w0 := m;
    var w1 := w0["s4" := sk.xor(w0["t51"], w0["t66"])];
    assert Run(sk, gates, 0, w0) == Run(sk, gates, 1, w1);
    var w2 := w1["s3" := sk.xor(w1["t53"], w1["t66"])];
    assert Run(sk, gates, 1, w1) == Run(sk, gates, 2, w2);
    var w3 := w2["s22" := sk.xor(w2["t55"], w2["t67"])];
    assert Run(sk, gates, 2, w2) == Run(sk, gates, 3, w3);
    var w4 := w3["s2" := sk.not(w3["s22"])];
    assert Run(sk, gates, 3, w3) == Run(sk, gates, 4, w4);
    m' := w4;
  }

  lemma {:induction false} SboxChunk14_1<V>(sk: Engine<V>, gates: seq<Gate>, m: map<string, V>) returns (m': map<string, V>)
    requires 7 <= |gates| && gates[4] == Xor("s11", "t64", "s3") && gates[5] == Not("s1", "s11") && gates[6] == Xor("s0", "t59", "t63")
    requires "t59" in m && "t63" in m && "t64" in m && "s7" in m && "s6" in m && "s5" in m && "s4" in m && "s3" in m && "s2" in m
    ensures Run(sk, gates, 4, m) == Run(sk, gates, 7, m') &&
      "s7" in m' && m'["s7"] == m["s7"] &&
      "s6" in m' && m'["s6"] == m["s6"] &&
      "s5" in m' && m'["s5"] == m["s5"] &&
      "s4" in m' && m'["s4"] == m["s4"] &&
      "s3" in m' && m'["s3"] == m["s3"] &&
      "s2" in m' && m'["s2"] == m["s2"] &&
      "s1" in m' && m'["s1"] == sk.not(sk.xor(m["t64"], m["s3"])) &&
      "s0" in m' && m'["s0"] == sk.xor(m["t59"], m["t63"])
  {
    var w0 := m;
    var w1 := w0["s11" := sk.xor(w0["t64"], w0["s3"])];
    assert Run(sk, gates, 4, w0) == Run(sk, gates, 5, w1);
    var w2 := w1["s1" := sk.not(w1["s11"])];
    assert Run(sk, gates, 5, w1) == Run(sk, gates, 6, w2);
    var w3 := w2["s0" := sk.xor(w2["t59"], w2["t63"])];
    assert Run(sk, gates, 6, w2) == Run(sk, gates, 7, w3);
    m' := w3;
  }

  /** Every instruction of block 14 spells its gate. */
  lemma {:induction false} SboxSpelled14()
    ensures |SBOX_INSTR_14| == |SBOX_GATES_14| == 7 &&
      (forall k :: 0 <= k < 7 ==> Spelled(SBOX_INSTR_14, SBOX_GATES_14, XorAndNot, k))
  {
    forall k | 0 <= k < 7
      ensures Spelled(SBOX_INSTR_14, SBOX_GATES_14, XorAndNot, k)
    {
      if k == 0 { SboxSpelled14_0(); }
      else if k == 1 { SboxSpelled14_0(); }
      else if k == 2 { SboxSpelled14_1(); }
      else if k == 3 { SboxSpelled14_1(); }
      else if k == 4 { SboxSpelled14_2(); }
      else if k == 5 { SboxSpelled14_2(); }
      else { SboxSpelled14_3(); }
    }
  }

  /** Instructions 112 to 118 run from wires holding their live inputs. */
  lemma {:induction false} SboxBlock14<V>(sk: Engine<V>, m: map<string, V>) returns (m': map<string, V>)
    requires "t51" in m && "t53" in m && "t55" in m && "t59" in m && "t63" in m && "t64" in m && "t66" in m && "t67" in m && "s7" in m && "s6" in m && "s5" in m
    ensures Run(sk, SBOX_GATES_14, 0, m) == Ok(m') &&
      "s7" in m' && m'["s7"] == m["s7"] &&
      "s6" in m' && m'["s6"] == m["s6"] &&
      "s5" in m' && m'["s5"] == m["s5"] &&
      "s4" in m' && m'["s4"] == sk.xor(m["t51"], m["t66"]) &&
      "s3" in m' && m'["s3"] == sk.xor(m["t53"], m["t66"]) &&
      "s2" in m' && m'["s2"] == sk.not(sk.xor(m["t55"], m["t67"])) &&
      "s1" in m' && m'["s1"] == sk.not(sk.xor(m["t64"], sk.xor(m["t53"], m["t66"]))) &&
      "s0" in m' && m'["s0"] == sk.xor(m["t59"], m["t63"])
  {
    var m1 := SboxChunk14_0(sk, SBOX_GATES_14, m);
    var m2 := SboxChunk14_1(sk, SBOX_GATES_14, m1);
    m' := m2;
  }

  /** Every instruction of the program spells the matching gate. */
  lemma {:induction false} SboxSpelledAll()
    ensures |SBOX_INSTR| == |SBOX_GATES| == 119 &&
      (forall k :: 0 <= k < 119 ==> Spelled(SBOX_INSTR, SBOX_GATES, XorAndNot, k))
  {
    SboxSpelled0();
    SboxSpelled1();
    SpelledAppend(XorAndNot, SBOX_INSTR_0, SBOX_GATES_0, SBOX_INSTR_1, SBOX_GATES_1);
    SboxSpelled2();
    SpelledAppend(XorAndNot, SBOX_INSTR_0 + SBOX_INSTR_1, SBOX_GATES_0 + SBOX_GATES_1, SBOX_INSTR_2, SBOX_GATES_2);
    SboxSpelled3();
    SpelledAppend(XorAndNot, SBOX_INSTR_0 + SBOX_INSTR_1 + SBOX_INSTR_2, SBOX_GATES_0 + SBOX_GATES_1 + SBOX_GATES_2, SBOX_INSTR_3, SBOX_GATES_3);
    SboxSpelled4();
    SpelledAppend(XorAndNot, SBOX_INSTR_0 + SBOX_INSTR_1 + SBOX_INSTR_2 + SBOX_INSTR_3, SBOX_GATES_0 + SBOX_GATES_1 + SBOX_GATES_2 + SBOX_GATES_3, SBOX_INSTR_4, SBOX_GATES_4);
    SboxSpelled5();
    SpelledAppend(XorAndNot, SBOX_INSTR_0 + SBOX_INSTR_1 + SBOX_INSTR_2 + SBOX_INSTR_3 + SBOX_INSTR_4, SBOX_GATES_0 + SBOX_GATES_1 + SBOX_GATES_2 + SBOX_GATES_3 + SBOX_GATES_4, SBOX_INSTR_5, SBOX_GATES_5);
    SboxSpelled6();
    SpelledAppend(XorAndNot, SBOX_INSTR_0 + SBOX_INSTR_1 + SBOX_INSTR_2 + SBOX_INSTR_3 + SBOX_INSTR_4 + SBOX_INSTR_5, SBOX_GATES_0 + SBOX_GATES_1 + SBOX_GATES_2 + SBOX_GATES_3 + SBOX_GATES_4 + SBOX_GATES_5, SBOX_INSTR_6, SBOX_GATES_6);
    SboxSpelled7();
    SpelledAppend(XorAndNot, SBOX_INSTR_0 + SBOX_INSTR_1 + SBOX_INSTR_2 + SBOX_INSTR_3 + SBOX_INSTR_4 + SBOX_INSTR_5 + SBOX_INSTR_6, SBOX_GATES_0 + SBOX_GATES_1 + SBOX_GATES_2 + SBOX_GATES_3 + SBOX_GATES_4 + SBOX_GATES_5 + SBOX_GATES_6, SBOX_INSTR_7, SBOX_GATES_7);
    SboxSpelled8();
    SpelledAppend(XorAndNot, SBOX_INSTR_0 + SBOX_INSTR_1 + SBOX_INSTR_2 + SBOX_INSTR_3 + SBOX_INSTR_4 + SBOX_INSTR_5 + SBOX_INSTR_6 + SBOX_INSTR_7, SBOX_GATES_0 + SBOX_GATES_1 + SBOX_GATES_2 + SBOX_GATES_3 + SBOX_GATES_4 + SBOX_GATES_5 + SBOX_GATES_6 + SBOX_GATES_7, SBOX_INSTR_8, SBOX_GATES_8);
    SboxSpelled9();
    SpelledAppend(XorAndNot, SBOX_INSTR_0 + SBOX_INSTR_1 + SBOX_INSTR_2 + SBOX_INSTR_3 + SBOX_INSTR_4 + SBOX_INSTR_5 + SBOX_INSTR_6 + SBOX_INSTR_7 + SBOX_INSTR_8, SBOX_GATES_0 + SBOX_GATES_1 + SBOX_GATES_2 + SBOX_GATES_3 + SBOX_GATES_4 + SBOX_GATES_5 + SBOX_GATES_6 + SBOX_GATES_7 + SBOX_GATES_8, SBOX_INSTR_9, SBOX_GATES_9);
    SboxSpelled10();
    SpelledAppend(XorAndNot, SBOX_INSTR_0 + SBOX_INSTR_1 + SBOX_INSTR_2 + SBOX_INSTR_3 + SBOX_INSTR_4 + SBOX_INSTR_5 + SBOX_INSTR_6 + SBOX_INSTR_7 + SBOX_INSTR_8 + SBOX_INSTR_9, SBOX_GATES_0 + SBOX_GATES_1 + SBOX_GATES_2 + SBOX_GATES_3 + SBOX_GATES_4 + SBOX_GATES_5 + SBOX_GATES_6 + SBOX_GATES_7 + SBOX_GATES_8 + SBOX_GATES_9, SBOX_INSTR_10, SBOX_GATES_10);
    SboxSpelled11();
    SpelledAppend(XorAndNot, SBOX_INSTR_0 + SBOX_INSTR_1 + SBOX_INSTR_2 + SBOX_INSTR_3 + SBOX_INSTR_4 + SBOX_INSTR_5 + SBOX_INSTR_6 + SBOX_INSTR_7 + SBOX_INSTR_8 + SBOX_INSTR_9 + SBOX_INSTR_10, SBOX_GATES_0 + SBOX_GATES_1 + SBOX_GATES_2 + SBOX_GATES_3 + SBOX_GATES_4 + SBOX_GATES_5 + SBOX_GATES_6 + SBOX_GATES_7 + SBOX_GATES_8 + SBOX_GATES_9 + SBOX_GATES_10, SBOX_INSTR_11, SBOX_GATES_11);
    SboxSpelled12();
    SpelledAppend(XorAndNot, SBOX_INSTR_0 + SBOX_INSTR_1 + SBOX_INSTR_2 + SBOX_INSTR_3 + SBOX_INSTR_4 + SBOX_INSTR_5 + SBOX_INSTR_6 + SBOX_INSTR_7 + SBOX_INSTR_8 + SBOX_INSTR_9 + SBOX_INSTR_10 + SBOX_INSTR_11, SBOX_GATES_0 + SBOX_GATES_1 + SBOX_GATES_2 + SBOX_GATES_3 + SBOX_GATES_4 + SBOX_GATES_5 + SBOX_GATES_6 + SBOX_GATES_7 + SBOX_GATES_8 + SBOX_GATES_9 + SBOX_GATES_10 + SBOX_GATES_11, SBOX_INSTR_12, SBOX_GATES_12);
    SboxSpelled13();
    SpelledAppend(XorAndNot, SBOX_INSTR_0 + SBOX_INSTR_1 + SBOX_INSTR_2 + SBOX_INSTR_3 + SBOX_INSTR_4 + SBOX_INSTR_5 + SBOX_INSTR_6 + SBOX_INSTR_7 + SBOX_INSTR_8 + SBOX_INSTR_9 + SBOX_INSTR_10 + SBOX_INSTR_11 + SBOX_INSTR_12, SBOX_GATES_0 + SBOX_GATES_1 + SBOX_GATES_2 + SBOX_GATES_3 + SBOX_GATES_4 + SBOX_GATES_5 + SBOX_GATES_6 + SBOX_GATES_7 + SBOX_GATES_8 + SBOX_GATES_9 + SBOX_GATES_10 + SBOX_GATES_11 + SBOX_GATES_12, SBOX_INSTR_13, SBOX_GATES_13);
    SboxSpelled14();
    SpelledAppend(XorAndNot, SBOX_INSTR_0 + SBOX_INSTR_1 + SBOX_INSTR_2 + SBOX_INSTR_3 + SBOX_INSTR_4 + SBOX_INSTR_5 + SBOX_INSTR_6 + SBOX_INSTR_7 + SBOX_INSTR_8 + SBOX_INSTR_9 + SBOX_INSTR_10 + SBOX_INSTR_11 + SBOX_INSTR_12 + SBOX_INSTR_13, SBOX_GATES_0 + SBOX_GATES_1 + SBOX_GATES_2 + SBOX_GATES_3 + SBOX_GATES_4 + SBOX_GATES_5 + SBOX_GATES_6 + SBOX_GATES_7 + SBOX_GATES_8 + SBOX_GATES_9 + SBOX_GATES_10 + SBOX_GATES_11 + SBOX_GATES_12 + SBOX_GATES_13, SBOX_INSTR_14, SBOX_GATES_14);
  }

  /** Interpreting the instruction text runs the gates it spells. */
  lemma {:induction false} SboxText<V>(sk: Engine<V>, m: map<string, V>)
    ensures Exec(sk, XorAndNot, SBOX_INSTR, 0, m) == Run(sk, SBOX_GATES, 0, m)
  {
    SboxSpelledAll();
    ExecText(sk, XorAndNot, SBOX_INSTR, SBOX_GATES, 0, m);
  }

  /** Running the gates from wires holding the inputs computes the straight-line circuit. */
  lemma {:induction false} SboxGates<V>(sk: Engine<V>, m0: map<string, V>) returns (m': map<string, V>)
    requires "x0" in m0 && "x1" in m0 && "x2" in m0 && "x3" in m0 && "x4" in m0 && "x5" in m0 && "x6" in m0 && "x7" in m0
    ensures Run(sk, SBOX_GATES, 0, m0) == Ok(m') &&
      "s7" in m' && m'["s7"] == SboxCircuit(sk, [m0["x7"], m0["x6"], m0["x5"], m0["x4"], m0["x3"], m0["x2"], m0["x1"], m0["x0"]])[0] &&
      "s6" in m' && m'["s6"] == SboxCircuit(sk, [m0["x7"], m0["x6"], m0["x5"], m0["x4"], m0["x3"], m0["x2"], m0["x1"], m0["x0"]])[1] &&
      "s5" in m' && m'["s5"] == SboxCircuit(sk, [m0["x7"], m0["x6"], m0["x5"], m0["x4"], m0["x3"], m0["x2"], m0["x1"], m0["x0"]])[2] &&
      "s4" in m' && m'["s4"] == SboxCircuit(sk, [m0["x7"], m0["x6"], m0["x5"], m0["x4"], m0["x3"], m0["x2"], m0["x1"], m0["x0"]])[3] &&
      "s3" in m' && m'["s3"] == SboxCircuit(sk, [m0["x7"], m0["x6"], m0["x5"], m0["x4"], m0["x3"], m0["x2"], m0["x1"], m0["x0"]])[4] &&
      "s2" in m' && m'["s2"] == SboxCircuit(sk, [m0["x7"], m0["x6"], m0["x5"], m0["x4"], m0["x3"], m0["x2"], m0["x1"], m0["x0"]])[5] &&
      "s1" in m' && m'["s1"] == SboxCircuit(sk, [m0["x7"], m0["x6"], m0["x5"], m0["x4"], m0["x3"], m0["x2"], m0["x1"], m0["x0"]])[6] &&
      "s0" in m' && m'["s0"] == SboxCircuit(sk, [m0["x7"], m0["x6"], m0["x5"], m0["x4"], m0["x3"], m0["x2"], m0["x1"], m0["x0"]])[7]
  {
    var m1 := SboxBlock0(sk, m0);
    var m2 := SboxBlock1(sk, m1);
    var m3 := SboxBlock2(sk, m2);
    var m4 := SboxBlock3(sk, m3);
    var m5 := SboxBlock4(sk, m4);
    var m6 := SboxBlock5(sk, m5);
    var m7 := SboxBlock6(sk, m6);
    var m8 := SboxBlock7(sk, m7);
    var m9 := SboxBlock8(sk, m8);
    var m10 := SboxBlock9(sk, m9);
    var m11 := SboxBlock10(sk, m10);
    var m12 := SboxBlock11(sk, m11);
    var m13 := SboxBlock12(sk, m12);
    var m14 := SboxBlock13(sk, m13);
    var m15 := SboxBlock14(sk, m14);
    RunAppend(sk, SBOX_GATES_0, SBOX_GATES_1, m0);
    RunAppend(sk, SBOX_GATES_0 + SBOX_GATES_1, SBOX_GATES_2, m0);
    RunAppend(sk, SBOX_GATES_0 + SBOX_GATES_1 + SBOX_GATES_2, SBOX_GATES_3, m0);
    RunAppend(sk, SBOX_GATES_0 + SBOX_GATES_1 + SBOX_GATES_2 + SBOX_GATES_3, SBOX_GATES_4, m0);
    RunAppend(sk, SBOX_GATES_0 + SBOX_GATES_1 + SBOX_GATES_2 + SBOX_GATES_3 + SBOX_GATES_4, SBOX_GATES_5, m0);
    RunAppend(sk, SBOX_GATES_0 + SBOX_GATES_1 + SBOX_GATES_2 + SBOX_GATES_3 + SBOX_GATES_4 + SBOX_GATES_5, SBOX_GATES_6, m0);
    RunAppend(sk, SBOX_GATES_0 + SBOX_GATES_1 + SBOX_GATES_2 + SBOX_GATES_3 + SBOX_GATES_4 + SBOX_GATES_5 + SBOX_GATES_6, SBOX_GATES_7, m0);
    RunAppend(sk, SBOX_GATES_0 + SBOX_GATES_1 + SBOX_GATES_2 + SBOX_GATES_3 + SBOX_GATES_4 + SBOX_GATES_5 + SBOX_GATES_6 + SBOX_GATES_7, SBOX_GATES_8, m0);
    RunAppend(sk, SBOX_GATES_0 + SBOX_GATES_1 + SBOX_GATES_2 + SBOX_GATES_3 + SBOX_GATES_4 + SBOX_GATES_5 + SBOX_GATES_6 + SBOX_GATES_7 + SBOX_GATES_8, SBOX_GATES_9, m0);
    RunAppend(sk, SBOX_GATES_0 + SBOX_GATES_1 + SBOX_GATES_2 + SBOX_GATES_3 + SBOX_GATES_4 + SBOX_GATES_5 + SBOX_GATES_6 + SBOX_GATES_7 + SBOX_GATES_8 + SBOX_GATES_9, SBOX_GATES_10, m0);
    RunAppend(sk, SBOX_GATES_0 + SBOX_GATES_1 + SBOX_GATES_2 + SBOX_GATES_3 + SBOX_GATES_4 + SBOX_GATES_5 + SBOX_GATES_6 + SBOX_GATES_7 + SBOX_GATES_8 + SBOX_GATES_9 + SBOX_GATES_10, SBOX_GATES_11, m0);
    RunAppend(sk, SBOX_GATES_0 + SBOX_GATES_1 + SBOX_GATES_2 + SBOX_GATES_3 + SBOX_GATES_4 + SBOX_GATES_5 + SBOX_GATES_6 + SBOX_GATES_7 + SBOX_GATES_8 + SBOX_GATES_9 + SBOX_GATES_10 + SBOX_GATES_11, SBOX_GATES_12, m0);
    RunAppend(sk, SBOX_GATES_0 + SBOX_GATES_1 + SBOX_GATES_2 + SBOX_GATES_3 + SBOX_GATES_4 + SBOX_GATES_5 + SBOX_GATES_6 + SBOX_GATES_7 + SBOX_GATES_8 + SBOX_GATES_9 + SBOX_GATES_10 + SBOX_GATES_11 + SBOX_GATES_12, SBOX_GATES_13, m0);
    RunAppend(sk, SBOX_GATES_0 + SBOX_GATES_1 + SBOX_GATES_2 + SBOX_GATES_3 + SBOX_GATES_4 + SBOX_GATES_5 + SBOX_GATES_6 + SBOX_GATES_7 + SBOX_GATES_8 + SBOX_GATES_9 + SBOX_GATES_10 + SBOX_GATES_11 + SBOX_GATES_12 + SBOX_GATES_13, SBOX_GATES_14, m0);
    m' := m15;
    var out := SboxCircuit(sk, [m0["x7"], m0["x6"], m0["x5"], m0["x4"], m0["x3"], m0["x2"], m0["x1"], m0["x0"]]);
    assert out == [m15["s7"], m15["s6"], m15["s5"], m15["s4"], m15["s3"], m15["s2"], m15["s1"], m15["s0"]];
  }

  /**
   * Interpreting the program from wires holding x0..x7 runs to the end, and
   * wire s{7 - i} then holds bit i of the straight-line circuit applied to
   * the bits x7, x6, .., x0.
   */
  lemma {:induction false} SboxRuns<V>(sk: Engine<V>, m0: map<string, V>)
    requires "x0" in m0 && "x1" in m0 && "x2" in m0 && "x3" in m0 && "x4" in m0 && "x5" in m0 && "x6" in m0 && "x7" in m0
    ensures var r := Exec(sk, XorAndNot, SBOX_INSTR, 0, m0);
      r.Ok? &&
      "s7" in r.value && r.value["s7"] == SboxCircuit(sk, [m0["x7"], m0["x6"], m0["x5"], m0["x4"], m0["x3"], m0["x2"], m0["x1"], m0["x0"]])[0] &&
      "s6" in r.value && r.value["s6"] == SboxCircuit(sk, [m0["x7"], m0["x6"], m0["x5"], m0["x4"], m0["x3"], m0["x2"], m0["x1"], m0["x0"]])[1] &&
      "s5" in r.value && r.value["s5"] == SboxCircuit(sk, [m0["x7"], m0["x6"], m0["x5"], m0["x4"], m0["x3"], m0["x2"], m0["x1"], m0["x0"]])[2] &&
      "s4" in r.value && r.value["s4"] == SboxCircuit(sk, [m0["x7"], m0["x6"], m0["x5"], m0["x4"], m0["x3"], m0["x2"], m0["x1"], m0["x0"]])[3] &&
      "s3" in r.value && r.value["s3"] == SboxCircuit(sk, [m0["x7"], m0["x6"], m0["x5"], m0["x4"], m0["x3"], m0["x2"], m0["x1"], m0["x0"]])[4] &&
      "s2" in r.value && r.value["s2"] == SboxCircuit(sk, [m0["x7"], m0["x6"], m0["x5"], m0["x4"], m0["x3"], m0["x2"], m0["x1"], m0["x0"]])[5] &&
      "s1" in r.value && r.value["s1"] == SboxCircuit(sk, [m0["x7"], m0["x6"], m0["x5"], m0["x4"], m0["x3"], m0["x2"], m0["x1"], m0["x0"]])[6] &&
      "s0" in r.value && r.value["s0"] == SboxCircuit(sk, [m0["x7"], m0["x6"], m0["x5"], m0["x4"], m0["x3"], m0["x2"], m0["x1"], m0["x0"]])[7]
  {
    SboxText(sk, m0);
    var m := SboxGates(sk, m0);
  }

  /** Loading eight values sets x{i} to value i. */
  lemma {:induction false} SboxLoad<V>(vals: seq<V>)
    requires |vals| == 8
    ensures var m := Load("x", vals);
      "x0" in m && m["x0"] == vals[0] &&
      "x1" in m && m["x1"] == vals[1] &&
      "x2" in m && m["x2"] == vals[2] &&
      "x3" in m && m["x3"] == vals[3] &&
      "x4" in m && m["x4"] == vals[4] &&
      "x5" in m && m["x5"] == vals[5] &&
      "x6" in m && m["x6"] == vals[6] &&
      "x7" in m && m["x7"] == vals[7]
  {
    LoadHolds("x", vals);
    assert Name("x", 0) == "x0";
    assert Name("x", 1) == "x1";
    assert Name("x", 2) == "x2";
    assert Name("x", 3) == "x3";
    assert Name("x", 4) == "x4";
    assert Name("x", 5) == "x5";
    assert Name("x", 6) == "x6";
    assert Name("x", 7) == "x7";
  }
}
