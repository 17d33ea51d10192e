/**
 * The MixColumns gate program: 92 XOR instructions over the input wires
 * x0..x31 (bit i of byte k of the column is x{8k+i}) that leave the mixed
 * column in y0..y31, and the proof that interpreting it computes the
 * straight-line circuit, whatever XOR means.
 */
module MixProgram {
  import opened Circuit

  /** The MixColumns gate program, 92 XOR instructions, in blocks of 8. */
  const MIX_COLS_INSTR: seq<string> :=
    MIX_COLS_INSTR_0 + MIX_COLS_INSTR_1 + MIX_COLS_INSTR_2 + MIX_COLS_INSTR_3 + MIX_COLS_INSTR_4 + MIX_COLS_INSTR_5 + MIX_COLS_INSTR_6 + MIX_COLS_INSTR_7 + MIX_COLS_INSTR_8 + MIX_COLS_INSTR_9 + MIX_COLS_INSTR_10 + MIX_COLS_INSTR_11

  /** The gates the instructions spell, in the same blocks. */
  const MIX_COLS_GATES: seq<Gate> :=
    MIX_COLS_GATES_0 + MIX_COLS_GATES_1 + MIX_COLS_GATES_2 + MIX_COLS_GATES_3 + MIX_COLS_GATES_4 + MIX_COLS_GATES_5 + MIX_COLS_GATES_6 + MIX_COLS_GATES_7 + MIX_COLS_GATES_8 + MIX_COLS_GATES_9 + MIX_COLS_GATES_10 + MIX_COLS_GATES_11

  /** Instructions 0 to 7. */
  const MIX_COLS_INSTR_0: seq<string> :=
    ["t0 = x0 ^ x8",
     "t1 = x16 ^ x24",
     "t2 = x1 ^ x9",
     "t3 = x17 ^ x25",
     "t4 = x2 ^ x10",
     "t5 = x18 ^ x26",
     "t6 = x3 ^ x11",
     "t7 = x19 ^ x27"]

  const MIX_COLS_GATES_0: seq<Gate> :=
    [Xor("t0", "x0", "x8"),
     Xor("t1", "x16", "x24"),
     Xor("t2", "x1", "x9"),
     Xor("t3", "x17", "x25"),
     Xor("t4", "x2", "x10"),
     Xor("t5", "x18", "x26"),
     Xor("t6", "x3", "x11"),
     Xor("t7", "x19", "x27")]

  /** Instructions 8 to 15. */
  const MIX_COLS_INSTR_1: seq<string> :=
    ["t8 = x4 ^ x12",
     "t9 = x20 ^ x28",
     "t10 = x5 ^ x13",
     "t11 = x21 ^ x29",
     "t12 = x6 ^ x14",
     "t13 = x22 ^ x30",
     "t14 = x23 ^ x31",
     "t15 = x7 ^ x15"]

  const MIX_COLS_GATES_1: seq<Gate> :=
    [Xor("t8", "x4", "x12"),
     Xor("t9", "x20", "x28"),
     Xor("t10", "x5", "x13"),
     Xor("t11", "x21", "x29"),
     Xor("t12", "x6", "x14"),
     Xor("t13", "x22", "x30"),
     Xor("t14", "x23", "x31"),
     Xor("t15", "x7", "x15")]

  /** Instructions 16 to 23. */
  const MIX_COLS_INSTR_2: seq<string> :=
    ["t16 = x8 ^ t1",
     "y0 = t15 ^ t16",
     "t17 = x7 ^ x23",
     "t18 = x24 ^ t0",
     "y16 = t14 ^ t18",
     "t19 = t1 ^ y16",
     "y24 = t17 ^ t19",
     "t20 = x27 ^ t14"]

  const MIX_COLS_GATES_2: seq<Gate> :=
    [Xor("t16", "x8", "t1"),
     Xor("y0", "t15", "t16"),
     Xor("t17", "x7", "x23"),
     Xor("t18", "x24", "t0"),
     Xor("y16", "t14", "t18"),
     Xor("t19", "t1", "y16"),
     Xor("y24", "t17", "t19"),
     Xor("t20", "x27", "t14")]

  /** Instructions 24 to 31. */
  const MIX_COLS_INSTR_3: seq<string> :=
    ["t21 = t0 ^ y0",
     "y8 = t17 ^ t21",
     "t22 = t5 ^ t20",
     "y19 = t6 ^ t22",
     "t23 = x11 ^ t15",
     "t24 = t7 ^ t23",
     "y3 = t4 ^ t24",
     "t25 = x2 ^ x18"]

  const MIX_COLS_GATES_3: seq<Gate> :=
    [Xor("t21", "t0", "y0"),
     Xor("y8", "t17", "t21"),
     Xor("t22", "t5", "t20"),
     Xor("y19", "t6", "t22"),
     Xor("t23", "x11", "t15"),
     Xor("t24", "t7", "t23"),
     Xor("y3", "t4", "t24"),
     Xor("t25", "x2", "x18")]

  /** Instructions 32 to 39. */
  const MIX_COLS_INSTR_4: seq<string> :=
    ["t26 = t17 ^ t25",
     "t27 = t9 ^ t23",
     "t28 = t8 ^ t20",
     "t29 = x10 ^ t2",
     "y2 = t5 ^ t29",
     "t30 = x26 ^ t3",
     "y18 = t4 ^ t30",
     "t31 = x9 ^ x25"]

  const MIX_COLS_GATES_4: seq<Gate> :=
    [Xor("t26", "t17", "t25"),
     Xor("t27", "t9", "t23"),
     Xor("t28", "t8", "t20"),
     Xor("t29", "x10", "t2"),
     Xor("y2", "t5", "t29"),
     Xor("t30", "x26", "t3"),
     Xor("y18", "t4", "t30"),
     Xor("t31", "x9", "x25")]

  /** Instructions 40 to 47. */
  const MIX_COLS_INSTR_5: seq<string> :=
    ["t32 = t25 ^ t31",
     "y10 = t30 ^ t32",
     "y26 = t29 ^ t32",
     "t33 = x1 ^ t18",
     "t34 = x30 ^ t11",
     "y22 = t12 ^ t34",
     "t35 = x14 ^ t13",
     "y6 = t10 ^ t35"]

  const MIX_COLS_GATES_5: seq<Gate> :=
    [Xor("t32", "t25", "t31"),
     Xor("y10", "t30", "t32"),
     Xor("y26", "t29", "t32"),
     Xor("t33", "x1", "t18"),
     Xor("t34", "x30", "t11"),
     Xor("y22", "t12", "t34"),
     Xor("t35", "x14", "t13"),
     Xor("y6", "t10", "t35")]

  /** Instructions 48 to 55. */
  const MIX_COLS_INSTR_6: seq<string> :=
    ["t36 = x5 ^ x21",
     "t37 = x30 ^ t17",
     "t38 = x17 ^ t16",
     "t39 = x13 ^ t8",
     "y5 = t11 ^ t39",
     "t40 = x12 ^ t36",
     "t41 = x29 ^ t9",
     "y21 = t10 ^ t41"]

  const MIX_COLS_GATES_6: seq<Gate> :=
    [Xor("t36", "x5", "x21"),
     Xor("t37", "x30", "t17"),
     Xor("t38", "x17", "t16"),
     Xor("t39", "x13", "t8"),
     Xor("y5", "t11", "t39"),
     Xor("t40", "x12", "t36"),
     Xor("t41", "x29", "t9"),
     Xor("y21", "t10", "t41")]

  /** Instructions 56 to 63. */
  const MIX_COLS_INSTR_7: seq<string> :=
    ["t42 = x28 ^ t40",
     "y13 = t41 ^ t42",
     "y29 = t39 ^ t42",
     "t43 = x15 ^ t12",
     "y7 = t14 ^ t43",
     "t44 = x14 ^ t37",
     "y31 = t43 ^ t44",
     "t45 = x31 ^ t13"]

  const MIX_COLS_GATES_7: seq<Gate> :=
    [Xor("t42", "x28", "t40"),
     Xor("y13", "t41", "t42"),
     Xor("y29", "t39", "t42"),
     Xor("t43", "x15", "t12"),
     Xor("y7", "t14", "t43"),
     Xor("t44", "x14", "t37"),
     Xor("y31", "t43", "t44"),
     Xor("t45", "x31", "t13")]

  /** Instructions 64 to 71. */
  const MIX_COLS_INSTR_8: seq<string> :=
    ["y15 = t44 ^ t45",
     "y23 = t15 ^ t45",
     "t46 = t12 ^ t36",
     "y14 = y6 ^ t46",
     "t47 = t31 ^ t33",
     "y17 = t19 ^ t47",
     "t48 = t6 ^ y3",
     "y11 = t26 ^ t48"]

  const MIX_COLS_GATES_8: seq<Gate> :=
    [Xor("y15", "t44", "t45"),
     Xor("y23", "t15", "t45"),
     Xor("t46", "t12", "t36"),
     Xor("y14", "y6", "t46"),
     Xor("t47", "t31", "t33"),
     Xor("y17", "t19", "t47"),
     Xor("t48", "t6", "y3"),
     Xor("y11", "t26", "t48")]

  /** Instructions 72 to 79. */
  const MIX_COLS_INSTR_9: seq<string> :=
    ["t49 = t2 ^ t38",
     "y25 = y24 ^ t49",
     "t50 = t7 ^ y19",
     "y27 = t26 ^ t50",
     "t51 = x22 ^ t46",
     "y30 = t11 ^ t51",
     "t52 = x19 ^ t28",
     "y20 = x28 ^ t52"]

  const MIX_COLS_GATES_9: seq<Gate> :=
    [Xor("t49", "t2", "t38"),
     Xor("y25", "y24", "t49"),
     Xor("t50", "t7", "y19"),
     Xor("y27", "t26", "t50"),
     Xor("t51", "x22", "t46"),
     Xor("y30", "t11", "t51"),
     Xor("t52", "x19", "t28"),
     Xor("y20", "x28", "t52")]

  /** Instructions 80 to 87. */
  const MIX_COLS_INSTR_10: seq<string> :=
    ["t53 = x3 ^ t27",
     "y4 = x12 ^ t53",
     "t54 = t3 ^ t33",
     "y9 = y8 ^ t54",
     "t55 = t21 ^ t31",
     "y1 = t38 ^ t55",
     "t56 = x4 ^ t17",
     "t57 = x19 ^ t56"]

  const MIX_COLS_GATES_10: seq<Gate> :=
    [Xor("t53", "x3", "t27"),
     Xor("y4", "x12", "t53"),
     Xor("t54", "t3", "t33"),
     Xor("y9", "y8", "t54"),
     Xor("t55", "t21", "t31"),
     Xor("y1", "t38", "t55"),
     Xor("t56", "x4", "t17"),
     Xor("t57", "x19", "t56")]

  /** Instructions 88 to 91. */
  const MIX_COLS_INSTR_11: seq<string> :=
    ["y12 = t27 ^ t57", "t58 = x3 ^ t28", "t59 = t17 ^ t58", "y28 = x20 ^ t59"]

  const MIX_COLS_GATES_11: seq<Gate> :=
    [Xor("y12", "t27", "t57"),
     Xor("t58", "x3", "t28"),
     Xor("t59", "t17", "t58"),
     Xor("y28", "x20", "t59")]

  /**
   * The XOR tree the program builds for output wire y{j}, over the input
   * bits inp[i] (wire x{i}), with every shared intermediate wire written out.
   */
  function MixColsTree<V>(sk: Engine<V>, inp: seq<V>, j: nat): V
    requires |inp| == 32 && j < 32
  {
    match j
    case 0 => sk.xor(sk.xor(inp[7], inp[15]), sk.xor(inp[8], sk.xor(inp[16], inp[24])))
    case 1 => sk.xor(sk.xor(inp[17], sk.xor(inp[8], sk.xor(inp[16], inp[24]))), sk.xor(sk.xor(sk.xor(inp[0], inp[8]), sk.xor(sk.xor(inp[7], inp[15]), sk.xor(inp[8], sk.xor(inp[16], inp[24])))), sk.xor(inp[9], inp[25])))
    case 2 => sk.xor(sk.xor(inp[18], inp[26]), sk.xor(inp[10], sk.xor(inp[1], inp[9])))
    case 3 => sk.xor(sk.xor(inp[2], inp[10]), sk.xor(sk.xor(inp[19], inp[27]), sk.xor(inp[11], sk.xor(inp[7], inp[15]))))
    case 4 => sk.xor(inp[12], sk.xor(inp[3], sk.xor(sk.xor(inp[20], inp[28]), sk.xor(inp[11], sk.xor(inp[7], inp[15])))))
    case 5 => sk.xor(sk.xor(inp[21], inp[29]), sk.xor(inp[13], sk.xor(inp[4], inp[12])))
    case 6 => sk.xor(sk.xor(inp[5], inp[13]), sk.xor(inp[14], sk.xor(inp[22], inp[30])))
    case 7 => sk.xor(sk.xor(inp[23], inp[31]), sk.xor(inp[15], sk.xor(inp[6], inp[14])))
    case 8 => sk.xor(sk.xor(inp[7], inp[23]), sk.xor(sk.xor(inp[0], inp[8]), sk.xor(sk.xor(inp[7], inp[15]), sk.xor(inp[8], sk.xor(inp[16], inp[24])))))
    case 9 => sk.xor(sk.xor(sk.xor(inp[7], inp[23]), sk.xor(sk.xor(inp[0], inp[8]), sk.xor(sk.xor(inp[7], inp[15]), sk.xor(inp[8], sk.xor(inp[16], inp[24]))))), sk.xor(sk.xor(inp[17], inp[25]), sk.xor(inp[1], sk.xor(inp[24], sk.xor(inp[0], inp[8])))))
    case 10 => sk.xor(sk.xor(inp[26], sk.xor(inp[17], inp[25])), sk.xor(sk.xor(inp[2], inp[18]), sk.xor(inp[9], inp[25])))
    case 11 => sk.xor(sk.xor(sk.xor(inp[7], inp[23]), sk.xor(inp[2], inp[18])), sk.xor(sk.xor(inp[3], inp[11]), sk.xor(sk.xor(inp[2], inp[10]), sk.xor(sk.xor(inp[19], inp[27]), sk.xor(inp[11], sk.xor(inp[7], inp[15]))))))
    case 12 => sk.xor(sk.xor(sk.xor(inp[20], inp[28]), sk.xor(inp[11], sk.xor(inp[7], inp[15]))), sk.xor(inp[19], sk.xor(inp[4], sk.xor(inp[7], inp[23]))))
    case 13 => sk.xor(sk.xor(inp[29], sk.xor(inp[20], inp[28])), sk.xor(inp[28], sk.xor(inp[12], sk.xor(inp[5], inp[21]))))
    case 14 => sk.xor(sk.xor(sk.xor(inp[5], inp[13]), sk.xor(inp[14], sk.xor(inp[22], inp[30]))), sk.xor(sk.xor(inp[6], inp[14]), sk.xor(inp[5], inp[21])))
    case 15 => sk.xor(sk.xor(inp[14], sk.xor(inp[30], sk.xor(inp[7], inp[23]))), sk.xor(inp[31], sk.xor(inp[22], inp[30])))
    case 16 => sk.xor(sk.xor(inp[23], inp[31]), sk.xor(inp[24], sk.xor(inp[0], inp[8])))
    case 17 => sk.xor(sk.xor(sk.xor(inp[16], inp[24]), sk.xor(sk.xor(inp[23], inp[31]), sk.xor(inp[24], sk.xor(inp[0], inp[8])))), sk.xor(sk.xor(inp[9], inp[25]), sk.xor(inp[1], sk.xor(inp[24], sk.xor(inp[0], inp[8])))))
    case 18 => sk.xor(sk.xor(inp[2], inp[10]), sk.xor(inp[26], sk.xor(inp[17], inp[25])))
    case 19 => sk.xor(sk.xor(inp[3], inp[11]), sk.xor(sk.xor(inp[18], inp[26]), sk.xor(inp[27], sk.xor(inp[23], inp[31]))))
    case 20 => sk.xor(inp[28], sk.xor(inp[19], sk.xor(sk.xor(inp[4], inp[12]), sk.xor(inp[27], sk.xor(inp[23], inp[31])))))
    case 21 => sk.xor(sk.xor(inp[5], inp[13]), sk.xor(inp[29], sk.xor(inp[20], inp[28])))
    case 22 => sk.xor(sk.xor(inp[6], inp[14]), sk.xor(inp[30], sk.xor(inp[21], inp[29])))
    case 23 => sk.xor(sk.xor(inp[7], inp[15]), sk.xor(inp[31], sk.xor(inp[22], inp[30])))
    case 24 => sk.xor(sk.xor(inp[7], inp[23]), sk.xor(sk.xor(inp[16], inp[24]), sk.xor(sk.xor(inp[23], inp[31]), sk.xor(inp[24], sk.xor(inp[0], inp[8])))))
    case 25 => sk.xor(sk.xor(sk.xor(inp[7], inp[23]), sk.xor(sk.xor(inp[16], inp[24]), sk.xor(sk.xor(inp[23], inp[31]), sk.xor(inp[24], sk.xor(inp[0], inp[8]))))), sk.xor(sk.xor(inp[1], inp[9]), sk.xor(inp[17], sk.xor(inp[8], sk.xor(inp[16], inp[24])))))
    case 26 => sk.xor(sk.xor(inp[10], sk.xor(inp[1], inp[9])), sk.xor(sk.xor(inp[2], inp[18]), sk.xor(inp[9], inp[25])))
    case 27 => sk.xor(sk.xor(sk.xor(inp[7], inp[23]), sk.xor(inp[2], inp[18])), sk.xor(sk.xor(inp[19], inp[27]), sk.xor(sk.xor(inp[3], inp[11]), sk.xor(sk.xor(inp[18], inp[26]), sk.xor(inp[27], sk.xor(inp[23], inp[31]))))))
    case 28 => sk.xor(inp[20], sk.xor(sk.xor(inp[7], inp[23]), sk.xor(inp[3], sk.xor(sk.xor(inp[4], inp[12]), sk.xor(inp[27], sk.xor(inp[23], inp[31]))))))
    case 29 => sk.xor(sk.xor(inp[13], sk.xor(inp[4], inp[12])), sk.xor(inp[28], sk.xor(inp[12], sk.xor(inp[5], inp[21]))))
    case 30 => sk.xor(sk.xor(inp[21], inp[29]), sk.xor(inp[22], sk.xor(sk.xor(inp[6], inp[14]), sk.xor(inp[5], inp[21]))))
    case _ => sk.xor(sk.xor(inp[15], sk.xor(inp[6], inp[14])), sk.xor(inp[14], sk.xor(inp[30], sk.xor(inp[7], inp[23]))))
  }

  /** The MixColumns program read as a circuit: bit j of the result is the tree for wire y{j}. */
  function MixColsCircuit<V>(sk: Engine<V>, inp: seq<V>): (out: seq<V>)
    requires |inp| == 32
    ensures |out| == 32
  {
    seq(32, j requires 0 <= j < 32 => MixColsTree(sk, inp, j))
  }

  lemma {:induction false} MixColsSpelled0_0()
    ensures Spelled(MIX_COLS_INSTR_0, MIX_COLS_GATES_0, XorOnly, 0) &&
      Spelled(MIX_COLS_INSTR_0, MIX_COLS_GATES_0, XorOnly, 1)
  {
  }

  lemma {:induction false} MixColsSpelled0_1()
    ensures Spelled(MIX_COLS_INSTR_0, MIX_COLS_GATES_0, XorOnly, 2) &&
      Spelled(MIX_COLS_INSTR_0, MIX_COLS_GATES_0, XorOnly, 3)
  {
  }

  lemma {:induction false} MixColsSpelled0_2()
    ensures Spelled(MIX_COLS_INSTR_0, MIX_COLS_GATES_0, XorOnly, 4) &&
      Spelled(MIX_COLS_INSTR_0, MIX_COLS_GATES_0, XorOnly, 5)
  {
  }

  lemma {:induction false} MixColsSpelled0_3()
    ensures Spelled(MIX_COLS_INSTR_0, MIX_COLS_GATES_0, XorOnly, 6) &&
      Spelled(MIX_COLS_INSTR_0, MIX_COLS_GATES_0, XorOnly, 7)
  {
  }

  lemma {:induction false} MixColsChunk0_0<V>(sk: Engine<V>, gates: seq<Gate>, m: map<string, V>) returns (m': map<string, V>)
    requires 4 <= |gates| && gates[0] == Xor("t0", "x0", "x8") && gates[1] == Xor("t1", "x16", "x24") && gates[2] == Xor("t2", "x1", "x9") && gates[3] == Xor("t3", "x17", "x25")
    requires "x0" in m && "x1" in m && "x2" in m && "x3" in m && "x4" in m && "x5" in m && "x6" in m && "x7" in m && "x8" in m && "x9" in m && "x10" in m && "x11" in m && "x12" in m && "x13" in m && "x14" in m && "x15" in m && "x16" in m && "x17" in m && "x18" in m && "x19" in m && "x20" in m && "x21" in m && "x22" in m && "x23" in m && "x24" in m && "x25" in m && "x26" in m && "x27" in m && "x28" in m && "x29" in m && "x30" in m && "x31" in m
    ensures Run(sk, gates, 0, m) == Run(sk, gates, 4, m') &&
      "x1" in m' && m'["x1"] == m["x1"] &&
      "x2" in m' && m'["x2"] == m["x2"] &&
      "x3" in m' && m'["x3"] == m["x3"] &&
      "x4" in m' && m'["x4"] == m["x4"] &&
      "x5" in m' && m'["x5"] == m["x5"] &&
      "x6" in m' && m'["x6"] == m["x6"] &&
      "x7" in m' && m'["x7"] == m["x7"] &&
      "x8" in m' && m'["x8"] == m["x8"] &&
      "x9" in m' && m'["x9"] == m["x9"] &&
      "x10" in m' && m'["x10"] == m["x10"] &&
      "x11" in m' && m'["x11"] == m["x11"] &&
      "x12" in m' && m'["x12"] == m["x12"] &&
      "x13" in m' && m'["x13"] == m["x13"] &&
      "x14" in m' && m'["x14"] == m["x14"] &&
      "x15" in m' && m'["x15"] == m["x15"] &&
      "x17" in m' && m'["x17"] == m["x17"] &&
      "x18" in m' && m'["x18"] == m["x18"] &&
      "x19" in m' && m'["x19"] == m["x19"] &&
      "x20" in m' && m'["x20"] == m["x20"] &&
      "x21" in m' && m'["x21"] == m["x21"] &&
      "x22" in m' && m'["x22"] == m["x22"] &&
      "x23" in m' && m'["x23"] == m["x23"] &&
      "x24" in m' && m'["x24"] == m["x24"] &&
      "x25" in m' && m'["x25"] == m["x25"] &&
      "x26" in m' && m'["x26"] == m["x26"] &&
      "x27" in m' && m'["x27"] == m["x27"] &&
      "x28" in m' && m'["x28"] == m["x28"] &&
      "x29" in m' && m'["x29"] == m["x29"] &&
      "x30" in m' && m'["x30"] == m["x30"] &&
      "x31" in m' && m'["x31"] == m["x31"] &&
      "t0" in m' && m'["t0"] == sk.xor(m["x0"], m["x8"]) &&
      "t1" in m' && m'["t1"] == sk.xor(m["x16"], m["x24"]) &&
      "t2" in m' && m'["t2"] == sk.xor(m["x1"], m["x9"]) &&
      "t3" in m' && m'["t3"] == sk.xor(m["x17"], m["x25"])
  {
    var w0 := m;
    var w1 := w0["t0" := sk.xor(w0["x0"], w0["x8"])];
    assert Run(sk, gates, 0, w0) == Run(sk, gates, 1, w1);
    var w2 := w1["t1" := sk.xor(w1["x16"], w1["x24"])];
    assert Run(sk, gates, 1, w1) == Run(sk, gates, 2, w2);
    var w3 := w2["t2" := sk.xor(w2["x1"], w2["x9"])];
    assert Run(sk, gates, 2, w2) == Run(sk, gates, 3, w3);
    var w4 := w3["t3" := sk.xor(w3["x17"], w3["x25"])];
    assert Run(sk, gates, 3, w3) == Run(sk, gates, 4, w4);
    m' := w4;
  }

  lemma {:induction false} MixColsChunk0_1<V>(sk: Engine<V>, gates: seq<Gate>, m: map<string, V>) returns (m': map<string, V>)
    requires 8 <= |gates| && gates[4] == Xor("t4", "x2", "x10") && gates[5] == Xor("t5", "x18", "x26") && gates[6] == Xor("t6", "x3", "x11") && gates[7] == Xor("t7", "x19", "x27")
    requires "x1" in m && "x2" in m && "x3" in m && "x4" in m && "x5" in m && "x6" in m && "x7" in m && "x8" in m && "x9" in m && "x10" in m && "x11" in m && "x12" in m && "x13" in m && "x14" in m && "x15" in m && "x17" in m && "x18" in m && "x19" in m && "x20" in m && "x21" in m && "x22" in m && "x23" in m && "x24" in m && "x25" in m && "x26" in m && "x27" in m && "x28" in m && "x29" in m && "x30" in m && "x31" in m && "t0" in m && "t1" in m && "t2" in m && "t3" in m
    ensures Run(sk, gates, 4, m) == Run(sk, gates, 8, m') &&
      "x1" in m' && m'["x1"] == m["x1"] &&
      "x2" in m' && m'["x2"] == m["x2"] &&
      "x3" in m' && m'["x3"] == m["x3"] &&
      "x4" in m' && m'["x4"] == m["x4"] &&
      "x5" in m' && m'["x5"] == m["x5"] &&
      "x6" in m' && m'["x6"] == m["x6"] &&
      "x7" in m' && m'["x7"] == m["x7"] &&
      "x8" in m' && m'["x8"] == m["x8"] &&
      "x9" in m' && m'["x9"] == m["x9"] &&
      "x10" in m' && m'["x10"] == m["x10"] &&
      "x11" in m' && m'["x11"] == m["x11"] &&
      "x12" in m' && m'["x12"] == m["x12"] &&
      "x13" in m' && m'["x13"] == m["x13"] &&
      "x14" in m' && m'["x14"] == m["x14"] &&
      "x15" in m' && m'["x15"] == m["x15"] &&
      "x17" in m' && m'["x17"] == m["x17"] &&
      "x18" in m' && m'["x18"] == m["x18"] &&
      "x19" in m' && m'["x19"] == m["x19"] &&
      "x20" in m' && m'["x20"] == m["x20"] &&
      "x21" in m' && m'["x21"] == m["x21"] &&
      "x22" in m' && m'["x22"] == m["x22"] &&
      "x23" in m' && m'["x23"] == m["x23"] &&
      "x24" in m' && m'["x24"] == m["x24"] &&
      "x25" in m' && m'["x25"] == m["x25"] &&
      "x26" in m' && m'["x26"] == m["x26"] &&
      "x27" in m' && m'["x27"] == m["x27"] &&
      "x28" in m' && m'["x28"] == m["x28"] &&
      "x29" in m' && m'["x29"] == m["x29"] &&
      "x30" in m' && m'["x30"] == m["x30"] &&
      "x31" in m' && m'["x31"] == m["x31"] &&
      "t0" in m' && m'["t0"] == m["t0"] &&
      "t1" in m' && m'["t1"] == m["t1"] &&
      "t2" in m' && m'["t2"] == m["t2"] &&
      "t3" in m' && m'["t3"] == m["t3"] &&
      "t4" in m' && m'["t4"] == sk.xor(m["x2"], m["x10"]) &&
      "t5" in m' && m'["t5"] == sk.xor(m["x18"], m["x26"]) &&
      "t6" in m' && m'["t6"] == sk.xor(m["x3"], m["x11"]) &&
      "t7" in m' && m'["t7"] == sk.xor(m["x19"], m["x27"])
  {
    var w0 := m;
    var w1 := w0["t4" := sk.xor(w0["x2"], w0["x10"])];
    assert Run(sk, gates, 4, w0) == Run(sk, gates, 5, w1);
    var w2 := w1["t5" := sk.xor(w1["x18"], w1["x26"])];
    assert Run(sk, gates, 5, w1) == Run(sk, gates, 6, w2);
    var w3 := w2["t6" := sk.xor(w2["x3"], w2["x11"])];
    assert Run(sk, gates, 6, w2) == Run(sk, gates, 7, w3);
    var w4 := w3["t7" := sk.xor(w3["x19"], w3["x27"])];
    assert Run(sk, gates, 7, w3) == Run(sk, gates, 8, w4);
    m' := w4;
  }

  /** Every instruction of block 0 spells its gate. */
  lemma {:induction false} MixColsSpelled0()
    ensures |MIX_COLS_INSTR_0| == |MIX_COLS_GATES_0| == 8 &&
      (forall k :: 0 <= k < 8 ==> Spelled(MIX_COLS_INSTR_0, MIX_COLS_GATES_0, XorOnly, k))
  {
    forall k | 0 <= k < 8
      ensures Spelled(MIX_COLS_INSTR_0, MIX_COLS_GATES_0, XorOnly, k)
    {
      if k == 0 { MixColsSpelled0_0(); }
      else if k == 1 { MixColsSpelled0_0(); }
      else if k == 2 { MixColsSpelled0_1(); }
      else if k == 3 { MixColsSpelled0_1(); }
      else if k == 4 { MixColsSpelled0_2(); }
      else if k == 5 { MixColsSpelled0_2(); }
      else if k == 6 { MixColsSpelled0_3(); }
      else { MixColsSpelled0_3(); }
    }
  }

  /** Instructions 0 to 7 run from wires holding their live inputs. */
  lemma {:induction false} MixColsBlock0<V>(sk: Engine<V>, m: map<string, V>) returns (m': map<string, V>)
    requires "x0" in m && "x1" in m && "x2" in m && "x3" in m && "x4" in m && "x5" in m && "x6" in m && "x7" in m && "x8" in m && "x9" in m && "x10" in m && "x11" in m && "x12" in m && "x13" in m && "x14" in m && "x15" in m && "x16" in m && "x17" in m && "x18" in m && "x19" in m && "x20" in m && "x21" in m && "x22" in m && "x23" in m && "x24" in m && "x25" in m && "x26" in m && "x27" in m && "x28" in m && "x29" in m && "x30" in m && "x31" in m
    ensures Run(sk, MIX_COLS_GATES_0, 0, m) == Ok(m') &&
      "x1" in m' && m'["x1"] == m["x1"] &&
      "x2" in m' && m'["x2"] == m["x2"] &&
      "x3" in m' && m'["x3"] == m["x3"] &&
      "x4" in m' && m'["x4"] == m["x4"] &&
      "x5" in m' && m'["x5"] == m["x5"] &&
      "x6" in m' && m'["x6"] == m["x6"] &&
      "x7" in m' && m'["x7"] == m["x7"] &&
      "x8" in m' && m'["x8"] == m["x8"] &&
      "x9" in m' && m'["x9"] == m["x9"] &&
      "x10" in m' && m'["x10"] == m["x10"] &&
      "x11" in m' && m'["x11"] == m["x11"] &&
      "x12" in m' && m'["x12"] == m["x12"] &&
      "x13" in m' && m'["x13"] == m["x13"] &&
      "x14" in m' && m'["x14"] == m["x14"] &&
      "x15" in m' && m'["x15"] == m["x15"] &&
      "x17" in m' && m'["x17"] == m["x17"] &&
      "x18" in m' && m'["x18"] == m["x18"] &&
      "x19" in m' && m'["x19"] == m["x19"] &&
      "x20" in m' && m'["x20"] == m["x20"] &&
      "x21" in m' && m'["x21"] == m["x21"] &&
      "x22" in m' && m'["x22"] == m["x22"] &&
      "x23" in m' && m'["x23"] == m["x23"] &&
      "x24" in m' && m'["x24"] == m["x24"] &&
      "x25" in m' && m'["x25"] == m["x25"] &&
      "x26" in m' && m'["x26"] == m["x26"] &&
      "x27" in m' && m'["x27"] == m["x27"] &&
      "x28" in m' && m'["x28"] == m["x28"] &&
      "x29" in m' && m'["x29"] == m["x29"] &&
      "x30" in m' && m'["x30"] == m["x30"] &&
      "x31" in m' && m'["x31"] == m["x31"] &&
      "t0" in m' && m'["t0"] == sk.xor(m["x0"], m["x8"]) &&
      "t1" in m' && m'["t1"] == sk.xor(m["x16"], m["x24"]) &&
      "t2" in m' && m'["t2"] == sk.xor(m["x1"], m["x9"]) &&
      "t3" in m' && m'["t3"] == sk.xor(m["x17"], m["x25"]) &&
      "t4" in m' && m'["t4"] == sk.xor(m["x2"], m["x10"]) &&
      "t5" in m' && m'["t5"] == sk.xor(m["x18"], m["x26"]) &&
      "t6" in m' && m'["t6"] == sk.xor(m["x3"], m["x11"]) &&
      "t7" in m' && m'["t7"] == sk.xor(m["x19"], m["x27"])
  {
    var m1 := MixColsChunk0_0(sk, MIX_COLS_GATES_0, m);
    var m2 := MixColsChunk0_1(sk, MIX_COLS_GATES_0, m1);
    m' := m2;
  }

  lemma {:induction false} MixColsSpelled1_0()
    ensures Spelled(MIX_COLS_INSTR_1, MIX_COLS_GATES_1, XorOnly, 0) &&
      Spelled(MIX_COLS_INSTR_1, MIX_COLS_GATES_1, XorOnly, 1)
  {
  }

  lemma {:induction false} MixColsSpelled1_1()
    ensures Spelled(MIX_COLS_INSTR_1, MIX_COLS_GATES_1, XorOnly, 2) &&
      Spelled(MIX_COLS_INSTR_1, MIX_COLS_GATES_1, XorOnly, 3)
  {
  }

  lemma {:induction false} MixColsSpelled1_2()
    ensures Spelled(MIX_COLS_INSTR_1, MIX_COLS_GATES_1, XorOnly, 4) &&
      Spelled(MIX_COLS_INSTR_1, MIX_COLS_GATES_1, XorOnly, 5)
  {
  }

  lemma {:induction false} MixColsSpelled1_3()
    ensures Spelled(MIX_COLS_INSTR_1, MIX_COLS_GATES_1, XorOnly, 6) &&
      Spelled(MIX_COLS_INSTR_1, MIX_COLS_GATES_1, XorOnly, 7)
  {
  }

  lemma {:induction false} MixColsChunk1_0<V>(sk: Engine<V>, gates: seq<Gate>, m: map<string, V>) returns (m': map<string, V>)
    requires 4 <= |gates| && gates[0] == Xor("t8", "x4", "x12") && gates[1] == Xor("t9", "x20", "x28") && gates[2] == Xor("t10", "x5", "x13") && gates[3] == Xor("t11", "x21", "x29")
    requires "x1" in m && "x2" in m && "x3" in m && "x4" in m && "x5" in m && "x6" in m && "x7" in m && "x8" in m && "x9" in m && "x10" in m && "x11" in m && "x12" in m && "x13" in m && "x14" in m && "x15" in m && "x17" in m && "x18" in m && "x19" in m && "x20" in m && "x21" in m && "x22" in m && "x23" in m && "x24" in m && "x25" in m && "x26" in m && "x27" in m && "x28" in m && "x29" in m && "x30" in m && "x31" in m && "t0" in m && "t1" in m && "t2" in m && "t3" in m && "t4" in m && "t5" in m && "t6" in m && "t7" in m
    ensures Run(sk, gates, 0, m) == Run(sk, gates, 4, m') &&
      "x1" in m' && m'["x1"] == m["x1"] &&
      "x2" in m' && m'["x2"] == m["x2"] &&
      "x3" in m' && m'["x3"] == m["x3"] &&
      "x4" in m' && m'["x4"] == m["x4"] &&
      "x5" in m' && m'["x5"] == m["x5"] &&
      "x6" in m' && m'["x6"] == m["x6"] &&
      "x7" in m' && m'["x7"] == m["x7"] &&
      "x8" in m' && m'["x8"] == m["x8"] &&
      "x9" in m' && m'["x9"] == m["x9"] &&
      "x10" in m' && m'["x10"] == m["x10"] &&
      "x11" in m' && m'["x11"] == m["x11"] &&
      "x12" in m' && m'["x12"] == m["x12"] &&
      "x13" in m' && m'["x13"] == m["x13"] &&
      "x14" in m' && m'["x14"] == m["x14"] &&
      "x15" in m' && m'["x15"] == m["x15"] &&
      "x17" in m' && m'["x17"] == m["x17"] &&
      "x18" in m' && m'["x18"] == m["x18"] &&
      "x19" in m' && m'["x19"] == m["x19"] &&
      "x20" in m' && m'["x20"] == m["x20"] &&
      "x21" in m' && m'["x21"] == m["x21"] &&
      "x22" in m' && m'["x22"] == m["x22"] &&
      "x23" in m' && m'["x23"] == m["x23"] &&
      "x24" in m' && m'["x24"] == m["x24"] &&
      "x25" in m' && m'["x25"] == m["x25"] &&
      "x26" in m' && m'["x26"] == m["x26"] &&
      "x27" in m' && m'["x27"] == m["x27"] &&
      "x28" in m' && m'["x28"] == m["x28"] &&
      "x29" in m' && m'["x29"] == m["x29"] &&
      "x30" in m' && m'["x30"] == m["x30"] &&
      "x31" in m' && m'["x31"] == m["x31"] &&
      "t0" in m' && m'["t0"] == m["t0"] &&
      "t1" in m' && m'["t1"] == m["t1"] &&
      "t2" in m' && m'["t2"] == m["t2"] &&
      "t3" in m' && m'["t3"] == m["t3"] &&
      "t4" in m' && m'["t4"] == m["t4"] &&
      "t5" in m' && m'["t5"] == m["t5"] &&
      "t6" in m' && m'["t6"] == m["t6"] &&
      "t7" in m' && m'["t7"] == m["t7"] &&
      "t8" in m' && m'["t8"] == sk.xor(m["x4"], m["x12"]) &&
      "t9" in m' && m'["t9"] == sk.xor(m["x20"], m["x28"]) &&
      "t10" in m' && m'["t10"] == sk.xor(m["x5"], m["x13"]) &&
      "t11" in m' && m'["t11"] == sk.xor(m["x21"], m["x29"])
  {
    var w0 := m;
    var w1 := w0["t8" := sk.xor(w0["x4"], w0["x12"])];
    assert Run(sk, gates, 0, w0) == Run(sk, gates, 1, w1);
    var w2 := w1["t9" := sk.xor(w1["x20"], w1["x28"])];
    assert Run(sk, gates, 1, w1) == Run(sk, gates, 2, w2);
    var w3 := w2["t10" := sk.xor(w2["x5"], w2["x13"])];
    assert Run(sk, gates, 2, w2) == Run(sk, gates, 3, w3);
    var w4 := w3["t11" := sk.xor(w3["x21"], w3["x29"])];
    assert Run(sk, gates, 3, w3) == Run(sk, gates, 4, w4);
    m' := w4;
  }

  lemma {:induction false} MixColsChunk1_1<V>(sk: Engine<V>, gates: seq<Gate>, m: map<string, V>) returns (m': map<string, V>)
    requires 8 <= |gates| && gates[4] == Xor("t12", "x6", "x14") && gates[5] == Xor("t13", "x22", "x30") && gates[6] == Xor("t14", "x23", "x31") && gates[7] == Xor("t15", "x7", "x15")
    requires "x1" in m && "x2" in m && "x3" in m && "x4" in m && "x5" in m && "x6" in m && "x7" in m && "x8" in m && "x9" in m && "x10" in m && "x11" in m && "x12" in m && "x13" in m && "x14" in m && "x15" in m && "x17" in m && "x18" in m && "x19" in m && "x20" in m && "x21" in m && "x22" in m && "x23" in m && "x24" in m && "x25" in m && "x26" in m && "x27" in m && "x28" in m && "x29" in m && "x30" in m && "x31" in m && "t0" in m && "t1" in m && "t2" in m && "t3" in m && "t4" in m && "t5" in m && "t6" in m && "t7" in m && "t8" in m && "t9" in m && "t10" in m && "t11" in m
    ensures Run(sk, gates, 4, m) == Run(sk, gates, 8, m') &&
      "x1" in m' && m'["x1"] == m["x1"] &&
      "x2" in m' && m'["x2"] == m["x2"] &&
      "x3" in m' && m'["x3"] == m["x3"] &&
      "x4" in m' && m'["x4"] == m["x4"] &&
      "x5" in m' && m'["x5"] == m["x5"] &&
      "x7" in m' && m'["x7"] == m["x7"] &&
      "x8" in m' && m'["x8"] == m["x8"] &&
      "x9" in m' && m'["x9"] == m["x9"] &&
      "x10" in m' && m'["x10"] == m["x10"] &&
      "x11" in m' && m'["x11"] == m["x11"] &&
      "x12" in m' && m'["x12"] == m["x12"] &&
      "x13" in m' && m'["x13"] == m["x13"] &&
      "x14" in m' && m'["x14"] == m["x14"] &&
      "x15" in m' && m'["x15"] == m["x15"] &&
      "x17" in m' && m'["x17"] == m["x17"] &&
      "x18" in m' && m'["x18"] == m["x18"] &&
      "x19" in m' && m'["x19"] == m["x19"] &&
      "x20" in m' && m'["x20"] == m["x20"] &&
      "x21" in m' && m'["x21"] == m["x21"] &&
      "x22" in m' && m'["x22"] == m["x22"] &&
      "x23" in m' && m'["x23"] == m["x23"] &&
      "x24" in m' && m'["x24"] == m["x24"] &&
      "x25" in m' && m'["x25"] == m["x25"] &&
      "x26" in m' && m'["x26"] == m["x26"] &&
      "x27" in m' && m'["x27"] == m["x27"] &&
      "x28" in m' && m'["x28"] == m["x28"] &&
      "x29" in m' && m'["x29"] == m["x29"] &&
      "x30" in m' && m'["x30"] == m["x30"] &&
      "x31" in m' && m'["x31"] == m["x31"] &&
      "t0" in m' && m'["t0"] == m["t0"] &&
      "t1" in m' && m'["t1"] == m["t1"] &&
      "t2" in m' && m'["t2"] == m["t2"] &&
      "t3" in m' && m'["t3"] == m["t3"] &&
      "t4" in m' && m'["t4"] == m["t4"] &&
      "t5" in m' && m'["t5"] == m["t5"] &&
      "t6" in m' && m'["t6"] == m["t6"] &&
      "t7" in m' && m'["t7"] == m["t7"] &&
      "t8" in m' && m'["t8"] == m["t8"] &&
      "t9" in m' && m'["t9"] == m["t9"] &&
      "t10" in m' && m'["t10"] == m["t10"] &&
      "t11" in m' && m'["t11"] == m["t11"] &&
      "t12" in m' && m'["t12"] == sk.xor(m["x6"], m["x14"]) &&
      "t13" in m' && m'["t13"] == sk.xor(m["x22"], m["x30"]) &&
      "t14" in m' && m'["t14"] == sk.xor(m["x23"], m["x31"]) &&
      "t15" in m' && m'["t15"] == sk.xor(m["x7"], m["x15"])
  {
    var w0 := m;
    var w1 := w0["t12" := sk.xor(w0["x6"], w0["x14"])];
    assert Run(sk, gates, 4, w0) == Run(sk, gates, 5, w1);
    var w2 := w1["t13" := sk.xor(w1["x22"], w1["x30"])];
    assert Run(sk, gates, 5, w1) == Run(sk, gates, 6, w2);
    var w3 := w2["t14" := sk.xor(w2["x23"], w2["x31"])];
    assert Run(sk, gates, 6, w2) == Run(sk, gates, 7, w3);
    var w4 := w3["t15" := sk.xor(w3["x7"], w3["x15"])];
    assert Run(sk, gates, 7, w3) == Run(sk, gates, 8, w4);
    m' := w4;
  }

  /** Every instruction of block 1 spells its gate. */
  lemma {:induction false} MixColsSpelled1()
    ensures |MIX_COLS_INSTR_1| == |MIX_COLS_GATES_1| == 8 &&
      (forall k :: 0 <= k < 8 ==> Spelled(MIX_COLS_INSTR_1, MIX_COLS_GATES_1, XorOnly, k))
  {
    forall k | 0 <= k < 8
      ensures Spelled(MIX_COLS_INSTR_1, MIX_COLS_GATES_1, XorOnly, k)
    {
      if k == 0 { MixColsSpelled1_0(); }
      else if k == 1 { MixColsSpelled1_0(); }
      else if k == 2 { MixColsSpelled1_1(); }
      else if k == 3 { MixColsSpelled1_1(); }
      else if k == 4 { MixColsSpelled1_2(); }
      else if k == 5 { MixColsSpelled1_2(); }
      else if k == 6 { MixColsSpelled1_3(); }
      else { MixColsSpelled1_3(); }
    }
  }

  /** Instructions 8 to 15 run from wires holding their live inputs. */
  lemma {:induction false} MixColsBlock1<V>(sk: Engine<V>, m: map<string, V>) returns (m': map<string, V>)
    requires "x1" in m && "x2" in m && "x3" in m && "x4" in m && "x5" in m && "x6" in m && "x7" in m && "x8" in m && "x9" in m && "x10" in m && "x11" in m && "x12" in m && "x13" in m && "x14" in m && "x15" in m && "x17" in m && "x18" in m && "x19" in m && "x20" in m && "x21" in m && "x22" in m && "x23" in m && "x24" in m && "x25" in m && "x26" in m && "x27" in m && "x28" in m && "x29" in m && "x30" in m && "x31" in m && "t0" in m && "t1" in m && "t2" in m && "t3" in m && "t4" in m && "t5" in m && "t6" in m && "t7" in m
    ensures Run(sk, MIX_COLS_GATES_1, 0, m) == Ok(m') &&
      "x1" in m' && m'["x1"] == m["x1"] &&
      "x2" in m' && m'["x2"] == m["x2"] &&
      "x3" in m' && m'["x3"] == m["x3"] &&
      "x4" in m' && m'["x4"] == m["x4"] &&
      "x5" in m' && m'["x5"] == m["x5"] &&
      "x7" in m' && m'["x7"] == m["x7"] &&
      "x8" in m' && m'["x8"] == m["x8"] &&
      "x9" in m' && m'["x9"] == m["x9"] &&
      "x10" in m' && m'["x10"] == m["x10"] &&
      "x11" in m' && m'["x11"] == m["x11"] &&
      "x12" in m' && m'["x12"] == m["x12"] &&
      "x13" in m' && m'["x13"] == m["x13"] &&
      "x14" in m' && m'["x14"] == m["x14"] &&
      "x15" in m' && m'["x15"] == m["x15"] &&
      "x17" in m' && m'["x17"] == m["x17"] &&
      "x18" in m' && m'["x18"] == m["x18"] &&
      "x19" in m' && m'["x19"] == m["x19"] &&
      "x20" in m' && m'["x20"] == m["x20"] &&
      "x21" in m' && m'["x21"] == m["x21"] &&
      "x22" in m' && m'["x22"] == m["x22"] &&
      "x23" in m' && m'["x23"] == m["x23"] &&
      "x24" in m' && m'["x24"] == m["x24"] &&
      "x25" in m' && m'["x25"] == m["x25"] &&
      "x26" in m' && m'["x26"] == m["x26"] &&
      "x27" in m' && m'["x27"] == m["x27"] &&
      "x28" in m' && m'["x28"] == m["x28"] &&
      "x29" in m' && m'["x29"] == m["x29"] &&
      "x30" in m' && m'["x30"] == m["x30"] &&
      "x31" in m' && m'["x31"] == m["x31"] &&
      "t0" in m' && m'["t0"] == m["t0"] &&
      "t1" in m' && m'["t1"] == m["t1"] &&
      "t2" in m' && m'["t2"] == m["t2"] &&
      "t3" in m' && m'["t3"] == m["t3"] &&
      "t4" in m' && m'["t4"] == m["t4"] &&
      "t5" in m' && m'["t5"] == m["t5"] &&
      "t6" in m' && m'["t6"] == m["t6"] &&
      "t7" in m' && m'["t7"] == m["t7"] &&
      "t8" in m' && m'["t8"] == sk.xor(m["x4"], m["x12"]) &&
      "t9" in m' && m'["t9"] == sk.xor(m["x20"], m["x28"]) &&
      "t10" in m' && m'["t10"] == sk.xor(m["x5"], m["x13"]) &&
      "t11" in m' && m'["t11"] == sk.xor(m["x21"], m["x29"]) &&
      "t12" in m' && m'["t12"] == sk.xor(m["x6"], m["x14"]) &&
      "t13" in m' && m'["t13"] == sk.xor(m["x22"], m["x30"]) &&
      "t14" in m' && m'["t14"] == sk.xor(m["x23"], m["x31"]) &&
      "t15" in m' && m'["t15"] == sk.xor(m["x7"], m["x15"])
  {
    var m1 := MixColsChunk1_0(sk, MIX_COLS_GATES_1, m);
    var m2 := MixColsChunk1_1(sk, MIX_COLS_GATES_1, m1);
    m' := m2;
  }

  lemma {:induction false} MixColsSpelled2_0()
    ensures Spelled(MIX_COLS_INSTR_2, MIX_COLS_GATES_2, XorOnly, 0) &&
      Spelled(MIX_COLS_INSTR_2, MIX_COLS_GATES_2, XorOnly, 1)
  {
  }

  lemma {:induction false} MixColsSpelled2_1()
    ensures Spelled(MIX_COLS_INSTR_2, MIX_COLS_GATES_2, XorOnly, 2) &&
      Spelled(MIX_COLS_INSTR_2, MIX_COLS_GATES_2, XorOnly, 3)
  {
  }

  lemma {:induction false} MixColsSpelled2_2()
    ensures Spelled(MIX_COLS_INSTR_2, MIX_COLS_GATES_2, XorOnly, 4) &&
      Spelled(MIX_COLS_INSTR_2, MIX_COLS_GATES_2, XorOnly, 5)
  {
  }

  lemma {:induction false} MixColsSpelled2_3()
    ensures Spelled(MIX_COLS_INSTR_2, MIX_COLS_GATES_2, XorOnly, 6) &&
      Spelled(MIX_COLS_INSTR_2, MIX_COLS_GATES_2, XorOnly, 7)
  {
  }

  lemma {:induction false} MixColsChunk2_0<V>(sk: Engine<V>, gates: seq<Gate>, m: map<string, V>) returns (m': map<string, V>)
    requires 4 <= |gates| && gates[0] == Xor("t16", "x8", "t1") && gates[1] == Xor("y0", "t15", "t16") && gates[2] == Xor("t17", "x7", "x23") && gates[3] == Xor("t18", "x24", "t0")
    requires "x1" in m && "x2" in m && "x3" in m && "x4" in m && "x5" in m && "x7" in m && "x8" in m && "x9" in m && "x10" in m && "x11" in m && "x12" in m && "x13" in m && "x14" in m && "x15" in m && "x17" in m && "x18" in m && "x19" in m && "x20" in m && "x21" in m && "x22" in m && "x23" in m && "x24" in m && "x25" in m && "x26" in m && "x27" in m && "x28" in m && "x29" in m && "x30" in m && "x31" in m && "t0" in m && "t1" in m && "t2" in m && "t3" in m && "t4" in m && "t5" in m && "t6" in m && "t7" in m && "t8" in m && "t9" in m && "t10" in m && "t11" in m && "t12" in m && "t13" in m && "t14" in m && "t15" in m
    ensures Run(sk, gates, 0, m) == Run(sk, gates, 4, m') &&
      "x1" in m' && m'["x1"] == m["x1"] &&
      "x2" in m' && m'["x2"] == m["x2"] &&
      "x3" in m' && m'["x3"] == m["x3"] &&
      "x4" in m' && m'["x4"] == m["x4"] &&
      "x5" in m' && m'["x5"] == m["x5"] &&
      "x9" in m' && m'["x9"] == m["x9"] &&
      "x10" in m' && m'["x10"] == m["x10"] &&
      "x11" in m' && m'["x11"] == m["x11"] &&
      "x12" in m' && m'["x12"] == m["x12"] &&
      "x13" in m' && m'["x13"] == m["x13"] &&
      "x14" in m' && m'["x14"] == m["x14"] &&
      "x15" in m' && m'["x15"] == m["x15"] &&
      "x17" in m' && m'["x17"] == m["x17"] &&
      "x18" in m' && m'["x18"] == m["x18"] &&
      "x19" in m' && m'["x19"] == m["x19"] &&
      "x20" in m' && m'["x20"] == m["x20"] &&
      "x21" in m' && m'["x21"] == m["x21"] &&
      "x22" in m' && m'["x22"] == m["x22"] &&
      "x25" in m' && m'["x25"] == m["x25"] &&
      "x26" in m' && m'["x26"] == m["x26"] &&
      "x27" in m' && m'["x27"] == m["x27"] &&
      "x28" in m' && m'["x28"] == m["x28"] &&
      "x29" in m' && m'["x29"] == m["x29"] &&
      "x30" in m' && m'["x30"] == m["x30"] &&
      "x31" in m' && m'["x31"] == m["x31"] &&
      "t0" in m' && m'["t0"] == m["t0"] &&
      "t1" in m' && m'["t1"] == m["t1"] &&
      "t2" in m' && m'["t2"] == m["t2"] &&
      "t3" in m' && m'["t3"] == m["t3"] &&
      "t4" in m' && m'["t4"] == m["t4"] &&
      "t5" in m' && m'["t5"] == m["t5"] &&
      "t6" in m' && m'["t6"] == m["t6"] &&
      "t7" in m' && m'["t7"] == m["t7"] &&
      "t8" in m' && m'["t8"] == m["t8"] &&
      "t9" in m' && m'["t9"] == m["t9"] &&
      "t10" in m' && m'["t10"] == m["t10"] &&
      "t11" in m' && m'["t11"] == m["t11"] &&
      "t12" in m' && m'["t12"] == m["t12"] &&
      "t13" in m' && m'["t13"] == m["t13"] &&
      "t14" in m' && m'["t14"] == m["t14"] &&
      "t15" in m' && m'["t15"] == m["t15"] &&
      "t16" in m' && m'["t16"] == sk.xor(m["x8"], m["t1"]) &&
      "y0" in m' && m'["y0"] == sk.xor(m["t15"], sk.xor(m["x8"], m["t1"])) &&
      "t17" in m' && m'["t17"] == sk.xor(m["x7"], m["x23"]) &&
      "t18" in m' && m'["t18"] == sk.xor(m["x24"], m["t0"])
  {
    var w0 := m;
    var w1 := w0["t16" := sk.xor(w0["x8"], w0["t1"])];
    assert Run(sk, gates, 0, w0) == Run(sk, gates, 1, w1);
    var w2 := w1["y0" := sk.xor(w1["t15"], w1["t16"])];
    assert Run(sk, gates, 1, w1) == Run(sk, gates, 2, w2);
    var w3 := w2["t17" := sk.xor(w2["x7"], w2["x23"])];
    assert Run(sk, gates, 2, w2) == Run(sk, gates, 3, w3);
    var w4 := w3["t18" := sk.xor(w3["x24"], w3["t0"])];
    assert Run(sk, gates, 3, w3) == Run(sk, gates, 4, w4);
    m' := w4;
  }

  lemma {:induction false} MixColsChunk2_1<V>(sk: Engine<V>, gates: seq<Gate>, m: map<string, V>) returns (m': map<string, V>)
    requires 8 <= |gates| && gates[4] == Xor("y16", "t14", "t18") && gates[5] == Xor("t19", "t1", "y16") && gates[6] == Xor("y24", "t17", "t19") && gates[7] == Xor("t20", "x27", "t14")
    requires "x1" in m && "x2" in m && "x3" in m && "x4" in m && "x5" in m && "x9" in m && "x10" in m && "x11" in m && "x12" in m && "x13" in m && "x14" in m && "x15" in m && "x17" in m && "x18" in m && "x19" in m && "x20" in m && "x21" in m && "x22" in m && "x25" in m && "x26" in m && "x27" in m && "x28" in m && "x29" in m && "x30" in m && "x31" in m && "t0" in m && "t1" in m && "t2" in m && "t3" in m && "t4" in m && "t5" in m && "t6" in m && "t7" in m && "t8" in m && "t9" in m && "t10" in m && "t11" in m && "t12" in m && "t13" in m && "t14" in m && "t15" in m && "t16" in m && "y0" in m && "t17" in m && "t18" in m
    ensures Run(sk, gates, 4, m) == Run(sk, gates, 8, m') &&
      "x1" in m' && m'["x1"] == m["x1"] &&
      "x2" in m' && m'["x2"] == m["x2"] &&
      "x3" in m' && m'["x3"] == m["x3"] &&
      "x4" in m' && m'["x4"] == m["x4"] &&
      "x5" in m' && m'["x5"] == m["x5"] &&
      "x9" in m' && m'["x9"] == m["x9"] &&
      "x10" in m' && m'["x10"] == m["x10"] &&
      "x11" in m' && m'["x11"] == m["x11"] &&
      "x12" in m' && m'["x12"] == m["x12"] &&
      "x13" in m' && m'["x13"] == m["x13"] &&
      "x14" in m' && m'["x14"] == m["x14"] &&
      "x15" in m' && m'["x15"] == m["x15"] &&
      "x17" in m' && m'["x17"] == m["x17"] &&
      "x18" in m' && m'["x18"] == m["x18"] &&
      "x19" in m' && m'["x19"] == m["x19"] &&
      "x20" in m' && m'["x20"] == m["x20"] &&
      "x21" in m' && m'["x21"] == m["x21"] &&
      "x22" in m' && m'["x22"] == m["x22"] &&
      "x25" in m' && m'["x25"] == m["x25"] &&
      "x26" in m' && m'["x26"] == m["x26"] &&
      "x28" in m' && m'["x28"] == m["x28"] &&
      "x29" in m' && m'["x29"] == m["x29"] &&
      "x30" in m' && m'["x30"] == m["x30"] &&
      "x31" in m' && m'["x31"] == m["x31"] &&
      "t0" in m' && m'["t0"] == m["t0"] &&
      "t2" in m' && m'["t2"] == m["t2"] &&
      "t3" in m' && m'["t3"] == m["t3"] &&
      "t4" in m' && m'["t4"] == m["t4"] &&
      "t5" in m' && m'["t5"] == m["t5"] &&
      "t6" in m' && m'["t6"] == m["t6"] &&
      "t7" in m' && m'["t7"] == m["t7"] &&
      "t8" in m' && m'["t8"] == m["t8"] &&
      "t9" in m' && m'["t9"] == m["t9"] &&
      "t10" in m' && m'["t10"] == m["t10"] &&
      "t11" in m' && m'["t11"] == m["t11"] &&
      "t12" in m' && m'["t12"] == m["t12"] &&
      "t13" in m' && m'["t13"] == m["t13"] &&
      "t14" in m' && m'["t14"] == m["t14"] &&
      "t15" in m' && m'["t15"] == m["t15"] &&
      "t16" in m' && m'["t16"] == m["t16"] &&
      "y0" in m' && m'["y0"] == m["y0"] &&
      "t17" in m' && m'["t17"] == m["t17"] &&
      "t18" in m' && m'["t18"] == m["t18"] &&
      "y16" in m' && m'["y16"] == sk.xor(m["t14"], m["t18"]) &&
      "t19" in m' && m'["t19"] == sk.xor(m["t1"], sk.xor(m["t14"], m["t18"])) &&
      "y24" in m' && m'["y24"] == sk.xor(m["t17"], sk.xor(m["t1"], sk.xor(m["t14"], m["t18"]))) &&
      "t20" in m' && m'["t20"] == sk.xor(m["x27"], m["t14"])
  {
    var w0 := m;
    var w1 := w0["y16" := sk.xor(w0["t14"], w0["t18"])];
    assert Run(sk, gates, 4, w0) == Run(sk, gates, 5, w1);
    var w2 := w1["t19" := sk.xor(w1["t1"], w1["y16"])];
    assert Run(sk, gates, 5, w1) == Run(sk, gates, 6, w2);
    var w3 := w2["y24" := sk.xor(w2["t17"], w2["t19"])];
    assert Run(sk, gates, 6, w2) == Run(sk, gates, 7, w3);
    var w4 := w3["t20" := sk.xor(w3["x27"], w3["t14"])];
    assert Run(sk, gates, 7, w3) == Run(sk, gates, 8, w4);
    m' := w4;
  }

  /** Every instruction of block 2 spells its gate. */
  lemma {:induction false} MixColsSpelled2()
    ensures |MIX_COLS_INSTR_2| == |MIX_COLS_GATES_2| == 8 &&
      (forall k :: 0 <= k < 8 ==> Spelled(MIX_COLS_INSTR_2, MIX_COLS_GATES_2, XorOnly, k))
  {
    forall k | 0 <= k < 8
      ensures Spelled(MIX_COLS_INSTR_2, MIX_COLS_GATES_2, XorOnly, k)
    {
      if k == 0 { MixColsSpelled2_0(); }
      else if k == 1 { MixColsSpelled2_0(); }
      else if k == 2 { MixColsSpelled2_1(); }
      else if k == 3 { MixColsSpelled2_1(); }
      else if k == 4 { MixColsSpelled2_2(); }
      else if k == 5 { MixColsSpelled2_2(); }
      else if k == 6 { MixColsSpelled2_3(); }
      else { MixColsSpelled2_3(); }
    }
  }

  /** Instructions 16 to 23 run from wires holding their live inputs. */
  lemma {:induction false} MixColsBlock2<V>(sk: Engine<V>, m: map<string, V>) returns (m': map<string, V>)
    requires "x1" in m && "x2" in m && "x3" in m && "x4" in m && "x5" in m && "x7" in m && "x8" in m && "x9" in m && "x10" in m && "x11" in m && "x12" in m && "x13" in m && "x14" in m && "x15" in m && "x17" in m && "x18" in m && "x19" in m && "x20" in m && "x21" in m && "x22" in m && "x23" in m && "x24" in m && "x25" in m && "x26" in m && "x27" in m && "x28" in m && "x29" in m && "x30" in m && "x31" in m && "t0" in m && "t1" in m && "t2" in m && "t3" in m && "t4" in m && "t5" in m && "t6" in m && "t7" in m && "t8" in m && "t9" in m && "t10" in m && "t11" in m && "t12" in m && "t13" in m && "t14" in m && "t15" in m
    ensures Run(sk, MIX_COLS_GATES_2, 0, m) == Ok(m') &&
      "x1" in m' && m'["x1"] == m["x1"] &&
      "x2" in m' && m'["x2"] == m["x2"] &&
      "x3" in m' && m'["x3"] == m["x3"] &&
      "x4" in m' && m'["x4"] == m["x4"] &&
      "x5" in m' && m'["x5"] == m["x5"] &&
      "x9" in m' && m'["x9"] == m["x9"] &&
      "x10" in m' && m'["x10"] == m["x10"] &&
      "x11" in m' && m'["x11"] == m["x11"] &&
      "x12" in m' && m'["x12"] == m["x12"] &&
      "x13" in m' && m'["x13"] == m["x13"] &&
      "x14" in m' && m'["x14"] == m["x14"] &&
      "x15" in m' && m'["x15"] == m["x15"] &&
      "x17" in m' && m'["x17"] == m["x17"] &&
      "x18" in m' && m'["x18"] == m["x18"] &&
      "x19" in m' && m'["x19"] == m["x19"] &&
      "x20" in m' && m'["x20"] == m["x20"] &&
      "x21" in m' && m'["x21"] == m["x21"] &&
      "x22" in m' && m'["x22"] == m["x22"] &&
      "x25" in m' && m'["x25"] == m["x25"] &&
      "x26" in m' && m'["x26"] == m["x26"] &&
      "x28" in m' && m'["x28"] == m["x28"] &&
      "x29" in m' && m'["x29"] == m["x29"] &&
      "x30" in m' && m'["x30"] == m["x30"] &&
      "x31" in m' && m'["x31"] == m["x31"] &&
      "t0" in m' && m'["t0"] == m["t0"] &&
      "t2" in m' && m'["t2"] == m["t2"] &&
      "t3" in m' && m'["t3"] == m["t3"] &&
      "t4" in m' && m'["t4"] == m["t4"] &&
      "t5" in m' && m'["t5"] == m["t5"] &&
      "t6" in m' && m'["t6"] == m["t6"] &&
      "t7" in m' && m'["t7"] == m["t7"] &&
      "t8" in m' && m'["t8"] == m["t8"] &&
      "t9" in m' && m'["t9"] == m["t9"] &&
      "t10" in m' && m'["t10"] == m["t10"] &&
      "t11" in m' && m'["t11"] == m["t11"] &&
      "t12" in m' && m'["t12"] == m["t12"] &&
      "t13" in m' && m'["t13"] == m["t13"] &&
      "t14" in m' && m'["t14"] == m["t14"] &&
      "t15" in m' && m'["t15"] == m["t15"] &&
      "t16" in m' && m'["t16"] == sk.xor(m["x8"], m["t1"]) &&
      "y0" in m' && m'["y0"] == sk.xor(m["t15"], sk.xor(m["x8"], m["t1"])) &&
      "t17" in m' && m'["t17"] == sk.xor(m["x7"], m["x23"]) &&
      "t18" in m' && m'["t18"] == sk.xor(m["x24"], m["t0"]) &&
      "y16" in m' && m'["y16"] == sk.xor(m["t14"], sk.xor(m["x24"], m["t0"])) &&
      "t19" in m' && m'["t19"] == sk.xor(m["t1"], sk.xor(m["t14"], sk.xor(m["x24"], m["t0"]))) &&
      "y24" in m' && m'["y24"] == sk.xor(sk.xor(m["x7"], m["x23"]), sk.xor(m["t1"], sk.xor(m["t14"], sk.xor(m["x24"], m["t0"])))) &&
      "t20" in m' && m'["t20"] == sk.xor(m["x27"], m["t14"])
  {
    var m1 := MixColsChunk2_0(sk, MIX_COLS_GATES_2, m);
    var m2 := MixColsChunk2_1(sk, MIX_COLS_GATES_2, m1);
    m' := m2;
  }

  lemma {:induction false} MixColsSpelled3_0()
    ensures Spelled(MIX_COLS_INSTR_3, MIX_COLS_GATES_3, XorOnly, 0) &&
      Spelled(MIX_COLS_INSTR_3, MIX_COLS_GATES_3, XorOnly, 1)
  {
  }

  lemma {:induction false} MixColsSpelled3_1()
    ensures Spelled(MIX_COLS_INSTR_3, MIX_COLS_GATES_3, XorOnly, 2) &&
      Spelled(MIX_COLS_INSTR_3, MIX_COLS_GATES_3, XorOnly, 3)
  {
  }

  lemma {:induction false} MixColsSpelled3_2()
    ensures Spelled(MIX_COLS_INSTR_3, MIX_COLS_GATES_3, XorOnly, 4) &&
      Spelled(MIX_COLS_INSTR_3, MIX_COLS_GATES_3, XorOnly, 5)
  {
  }

  lemma {:induction false} MixColsSpelled3_3()
    ensures Spelled(MIX_COLS_INSTR_3, MIX_COLS_GATES_3, XorOnly, 6) &&
      Spelled(MIX_COLS_INSTR_3, MIX_COLS_GATES_3, XorOnly, 7)
  {
  }

  lemma {:induction false} MixColsChunk3_0<V>(sk: Engine<V>, gates: seq<Gate>, m: map<string, V>) returns (m': map<string, V>)
    requires 4 <= |gates| && gates[0] == Xor("t21", "t0", "y0") && gates[1] == Xor("y8", "t17", "t21") && gates[2] == Xor("t22", "t5", "t20") && gates[3] == Xor("y19", "t6", "t22")
    requires "x1" in m && "x2" in m && "x3" in m && "x4" in m && "x5" in m && "x9" in m && "x10" in m && "x11" in m && "x12" in m && "x13" in m && "x14" in m && "x15" in m && "x17" in m && "x18" in m && "x19" in m && "x20" in m && "x21" in m && "x22" in m && "x25" in m && "x26" in m && "x28" in m && "x29" in m && "x30" in m && "x31" in m && "t0" in m && "t2" in m && "t3" in m && "t4" in m && "t5" in m && "t6" in m && "t7" in m && "t8" in m && "t9" in m && "t10" in m && "t11" in m && "t12" in m && "t13" in m && "t14" in m && "t15" in m && "t16" in m && "y0" in m && "t17" in m && "t18" in m && "y16" in m && "t19" in m && "y24" in m && "t20" in m
    ensures Run(sk, gates, 0, m) == Run(sk, gates, 4, m') &&
      "x1" in m' && m'["x1"] == m["x1"] &&
      "x2" in m' && m'["x2"] == m["x2"] &&
      "x3" in m' && m'["x3"] == m["x3"] &&
      "x4" in m' && m'["x4"] == m["x4"] &&
      "x5" in m' && m'["x5"] == m["x5"] &&
      "x9" in m' && m'["x9"] == m["x9"] &&
      "x10" in m' && m'["x10"] == m["x10"] &&
      "x11" in m' && m'["x11"] == m["x11"] &&
      "x12" in m' && m'["x12"] == m["x12"] &&
      "x13" in m' && m'["x13"] == m["x13"] &&
      "x14" in m' && m'["x14"] == m["x14"] &&
      "x15" in m' && m'["x15"] == m["x15"] &&
      "x17" in m' && m'["x17"] == m["x17"] &&
      "x18" in m' && m'["x18"] == m["x18"] &&
      "x19" in m' && m'["x19"] == m["x19"] &&
      "x20" in m' && m'["x20"] == m["x20"] &&
      "x21" in m' && m'["x21"] == m["x21"] &&
      "x22" in m' && m'["x22"] == m["x22"] &&
      "x25" in m' && m'["x25"] == m["x25"] &&
      "x26" in m' && m'["x26"] == m["x26"] &&
      "x28" in m' && m'["x28"] == m["x28"] &&
      "x29" in m' && m'["x29"] == m["x29"] &&
      "x30" in m' && m'["x30"] == m["x30"] &&
      "x31" in m' && m'["x31"] == m["x31"] &&
      "t2" in m' && m'["t2"] == m["t2"] &&
      "t3" in m' && m'["t3"] == m["t3"] &&
      "t4" in m' && m'["t4"] == m["t4"] &&
      "t5" in m' && m'["t5"] == m["t5"] &&
      "t6" in m' && m'["t6"] == m["t6"] &&
      "t7" in m' && m'["t7"] == m["t7"] &&
      "t8" in m' && m'["t8"] == m["t8"] &&
      "t9" in m' && m'["t9"] == m["t9"] &&
      "t10" in m' && m'["t10"] == m["t10"] &&
      "t11" in m' && m'["t11"] == m["t11"] &&
      "t12" in m' && m'["t12"] == m["t12"] &&
      "t13" in m' && m'["t13"] == m["t13"] &&
      "t14" in m' && m'["t14"] == m["t14"] &&
      "t15" in m' && m'["t15"] == m["t15"] &&
      "t16" in m' && m'["t16"] == m["t16"] &&
      "y0" in m' && m'["y0"] == m["y0"] &&
      "t17" in m' && m'["t17"] == m["t17"] &&
      "t18" in m' && m'["t18"] == m["t18"] &&
      "y16" in m' && m'["y16"] == m["y16"] &&
      "t19" in m' && m'["t19"] == m["t19"] &&
      "y24" in m' && m'["y24"] == m["y24"] &&
      "t20" in m' && m'["t20"] == m["t20"] &&
      "t21" in m' && m'["t21"] == sk.xor(m["t0"], m["y0"]) &&
      "y8" in m' && m'["y8"] == sk.xor(m["t17"], sk.xor(m["t0"], m["y0"])) &&
      "y19" in m' && m'["y19"] == sk.xor(m["t6"], sk.xor(m["t5"], m["t20"]))
  {
    var w0 := m;
    var w1 := w0["t21" := sk.xor(w0["t0"], w0["y0"])];
    assert Run(sk, gates, 0, w0) == Run(sk, gates, 1, w1);
    var w2 := w1["y8" := sk.xor(w1["t17"], w1["t21"])];
    assert Run(sk, gates, 1, w1) == Run(sk, gates, 2, w2);
    var w3 := w2["t22" := sk.xor(w2["t5"], w2["t20"])];
    assert Run(sk, gates, 2, w2) == Run(sk, gates, 3, w3);
    var w4 := w3["y19" := sk.xor(w3["t6"], w3["t22"])];
    assert Run(sk, gates, 3, w3) == Run(sk, gates, 4, w4);
    m' := w4;
  }

  lemma {:induction false} MixColsChunk3_1<V>(sk: Engine<V>, gates: seq<Gate>, m: map<string, V>) returns (m': map<string, V>)
    requires 8 <= |gates| && gates[4] == Xor("t23", "x11", "t15") && gates[5] == Xor("t24", "t7", "t23") && gates[6] == Xor("y3", "t4", "t24") && gates[7] == Xor("t25", "x2", "x18")
    requires "x1" in m && "x2" in m && "x3" in m && "x4" in m && "x5" in m && "x9" in m && "x10" in m && "x11" in m && "x12" in m && "x13" in m && "x14" in m && "x15" in m && "x17" in m && "x18" in m && "x19" in m && "x20" in m && "x21" in m && "x22" in m && "x25" in m && "x26" in m && "x28" in m && "x29" in m && "x30" in m && "x31" in m && "t2" in m && "t3" in m && "t4" in m && "t5" in m && "t6" in m && "t7" in m && "t8" in m && "t9" in m && "t10" in m && "t11" in m && "t12" in m && "t13" in m && "t14" in m && "t15" in m && "t16" in m && "y0" in m && "t17" in m && "t18" in m && "y16" in m && "t19" in m && "y24" in m && "t20" in m && "t21" in m && "y8" in m && "y19" in m
    ensures Run(sk, gates, 4, m) == Run(sk, gates, 8, m') &&
      "x1" in m' && m'["x1"] == m["x1"] &&
      "x3" in m' && m'["x3"] == m["x3"] &&
      "x4" in m' && m'["x4"] == m["x4"] &&
      "x5" in m' && m'["x5"] == m["x5"] &&
      "x9" in m' && m'["x9"] == m["x9"] &&
      "x10" in m' && m'["x10"] == m["x10"] &&
      "x12" in m' && m'["x12"] == m["x12"] &&
      "x13" in m' && m'["x13"] == m["x13"] &&
      "x14" in m' && m'["x14"] == m["x14"] &&
      "x15" in m' && m'["x15"] == m["x15"] &&
      "x17" in m' && m'["x17"] == m["x17"] &&
      "x19" in m' && m'["x19"] == m["x19"] &&
      "x20" in m' && m'["x20"] == m["x20"] &&
      "x21" in m' && m'["x21"] == m["x21"] &&
      "x22" in m' && m'["x22"] == m["x22"] &&
      "x25" in m' && m'["x25"] == m["x25"] &&
      "x26" in m' && m'["x26"] == m["x26"] &&
      "x28" in m' && m'["x28"] == m["x28"] &&
      "x29" in m' && m'["x29"] == m["x29"] &&
      "x30" in m' && m'["x30"] == m["x30"] &&
      "x31" in m' && m'["x31"] == m["x31"] &&
      "t2" in m' && m'["t2"] == m["t2"] &&
      "t3" in m' && m'["t3"] == m["t3"] &&
      "t4" in m' && m'["t4"] == m["t4"] &&
      "t5" in m' && m'["t5"] == m["t5"] &&
      "t6" in m' && m'["t6"] == m["t6"] &&
      "t7" in m' && m'["t7"] == m["t7"] &&
      "t8" in m' && m'["t8"] == m["t8"] &&
      "t9" in m' && m'["t9"] == m["t9"] &&
      "t10" in m' && m'["t10"] == m["t10"] &&
      "t11" in m' && m'["t11"] == m["t11"] &&
      "t12" in m' && m'["t12"] == m["t12"] &&
      "t13" in m' && m'["t13"] == m["t13"] &&
      "t14" in m' && m'["t14"] == m["t14"] &&
      "t15" in m' && m'["t15"] == m["t15"] &&
      "t16" in m' && m'["t16"] == m["t16"] &&
      "y0" in m' && m'["y0"] == m["y0"] &&
      "t17" in m' && m'["t17"] == m["t17"] &&
      "t18" in m' && m'["t18"] == m["t18"] &&
      "y16" in m' && m'["y16"] == m["y16"] &&
      "t19" in m' && m'["t19"] == m["t19"] &&
      "y24" in m' && m'["y24"] == m["y24"] &&
      "t20" in m' && m'["t20"] == m["t20"] &&
      "t21" in m' && m'["t21"] == m["t21"] &&
      "y8" in m' && m'["y8"] == m["y8"] &&
      "y19" in m' && m'["y19"] == m["y19"] &&
      "t23" in m' && m'["t23"] == sk.xor(m["x11"], m["t15"]) &&
      "y3" in m' && m'["y3"] == sk.xor(m["t4"], sk.xor(m["t7"], sk.xor(m["x11"], m["t15"]))) &&
      "t25" in m' && m'["t25"] == sk.xor(m["x2"], m["x18"])
  {
    var w0 := m;
    var w1 := w0["t23" := sk.xor(w0["x11"], w0["t15"])];
    assert Run(sk, gates, 4, w0) == Run(sk, gates, 5, w1);
    var w2 := w1["t24" := sk.xor(w1["t7"], w1["t23"])];
    assert Run(sk, gates, 5, w1) == Run(sk, gates, 6, w2);
    var w3 := w2["y3" := sk.xor(w2["t4"], w2["t24"])];
    assert Run(sk, gates, 6, w2) == Run(sk, gates, 7, w3);
    var w4 := w3["t25" := sk.xor(w3["x2"], w3["x18"])];
    assert Run(sk, gates, 7, w3) == Run(sk, gates, 8, w4);
    m' := w4;
  }

  /** Every instruction of block 3 spells its gate. */
  lemma {:induction false} MixColsSpelled3()
    ensures |MIX_COLS_INSTR_3| == |MIX_COLS_GATES_3| == 8 &&
      (forall k :: 0 <= k < 8 ==> Spelled(MIX_COLS_INSTR_3, MIX_COLS_GATES_3, XorOnly, k))
  {
    forall k | 0 <= k < 8
      ensures Spelled(MIX_COLS_INSTR_3, MIX_COLS_GATES_3, XorOnly, k)
    {
      if k == 0 { MixColsSpelled3_0(); }
      else if k == 1 { MixColsSpelled3_0(); }
      else if k == 2 { MixColsSpelled3_1(); }
      else if k == 3 { MixColsSpelled3_1(); }
      else if k == 4 { MixColsSpelled3_2(); }
      else if k == 5 { MixColsSpelled3_2(); }
      else if k == 6 { MixColsSpelled3_3(); }
      else { MixColsSpelled3_3(); }
    }
  }

  /** Instructions 24 to 31 run from wires holding their live inputs. */
  lemma {:induction false} MixColsBlock3<V>(sk: Engine<V>, m: map<string, V>) returns (m': map<string, V>)
    requires "x1" in m && "x2" in m && "x3" in m && "x4" in m && "x5" in m && "x9" in m && "x10" in m && "x11" in m && "x12" in m && "x13" in m && "x14" in m && "x15" in m && "x17" in m && "x18" in m && "x19" in m && "x20" in m && "x21" in m && "x22" in m && "x25" in m && "x26" in m && "x28" in m && "x29" in m && "x30" in m && "x31" in m && "t0" in m && "t2" in m && "t3" in m && "t4" in m && "t5" in m && "t6" in m && "t7" in m && "t8" in m && "t9" in m && "t10" in m && "t11" in m && "t12" in m && "t13" in m && "t14" in m && "t15" in m && "t16" in m && "y0" in m && "t17" in m && "t18" in m && "y16" in m && "t19" in m && "y24" in m && "t20" in m
    ensures Run(sk, MIX_COLS_GATES_3, 0, m) == Ok(m') &&
      "x1" in m' && m'["x1"] == m["x1"] &&
      "x3" in m' && m'["x3"] == m["x3"] &&
      "x4" in m' && m'["x4"] == m["x4"] &&
      "x5" in m' && m'["x5"] == m["x5"] &&
      "x9" in m' && m'["x9"] == m["x9"] &&
      "x10" in m' && m'["x10"] == m["x10"] &&
      "x12" in m' && m'["x12"] == m["x12"] &&
      "x13" in m' && m'["x13"] == m["x13"] &&
      "x14" in m' && m'["x14"] == m["x14"] &&
      "x15" in m' && m'["x15"] == m["x15"] &&
      "x17" in m' && m'["x17"] == m["x17"] &&
      "x19" in m' && m'["x19"] == m["x19"] &&
      "x20" in m' && m'["x20"] == m["x20"] &&
      "x21" in m' && m'["x21"] == m["x21"] &&
      "x22" in m' && m'["x22"] == m["x22"] &&
      "x25" in m' && m'["x25"] == m["x25"] &&
      "x26" in m' && m'["x26"] == m["x26"] &&
      "x28" in m' && m'["x28"] == m["x28"] &&
      "x29" in m' && m'["x29"] == m["x29"] &&
      "x30" in m' && m'["x30"] == m["x30"] &&
      "x31" in m' && m'["x31"] == m["x31"] &&
      "t2" in m' && m'["t2"] == m["t2"] &&
      "t3" in m' && m'["t3"] == m["t3"] &&
      "t4" in m' && m'["t4"] == m["t4"] &&
      "t5" in m' && m'["t5"] == m["t5"] &&
      "t6" in m' && m'["t6"] == m["t6"] &&
      "t7" in m' && m'["t7"] == m["t7"] &&
      "t8" in m' && m'["t8"] == m["t8"] &&
      "t9" in m' && m'["t9"] == m["t9"] &&
      "t10" in m' && m'["t10"] == m["t10"] &&
      "t11" in m' && m'["t11"] == m["t11"] &&
      "t12" in m' && m'["t12"] == m["t12"] &&
      "t13" in m' && m'["t13"] == m["t13"] &&
      "t14" in m' && m'["t14"] == m["t14"] &&
      "t15" in m' && m'["t15"] == m["t15"] &&
      "t16" in m' && m'["t16"] == m["t16"] &&
      "y0" in m' && m'["y0"] == m["y0"] &&
      "t17" in m' && m'["t17"] == m["t17"] &&
      "t18" in m' && m'["t18"] == m["t18"] &&
      "y16" in m' && m'["y16"] == m["y16"] &&
      "t19" in m' && m'["t19"] == m["t19"] &&
      "y24" in m' && m'["y24"] == m["y24"] &&
      "t20" in m' && m'["t20"] == m["t20"] &&
      "t21" in m' && m'["t21"] == sk.xor(m["t0"], m["y0"]) &&
      "y8" in m' && m'["y8"] == sk.xor(m["t17"], sk.xor(m["t0"], m["y0"])) &&
      "y19" in m' && m'["y19"] == sk.xor(m["t6"], sk.xor(m["t5"], m["t20"])) &&
      "t23" in m' && m'["t23"] == sk.xor(m["x11"], m["t15"]) &&
      "y3" in m' && m'["y3"] == sk.xor(m["t4"], sk.xor(m["t7"], sk.xor(m["x11"], m["t15"]))) &&
      "t25" in m' && m'["t25"] == sk.xor(m["x2"], m["x18"])
  {
    var m1 := MixColsChunk3_0(sk, MIX_COLS_GATES_3, m);
    var m2 := MixColsChunk3_1(sk, MIX_COLS_GATES_3, m1);
    m' := m2;
  }

  lemma {:induction false} MixColsSpelled4_0()
    ensures Spelled(MIX_COLS_INSTR_4, MIX_COLS_GATES_4, XorOnly, 0) &&
      Spelled(MIX_COLS_INSTR_4, MIX_COLS_GATES_4, XorOnly, 1)
  {
  }

  lemma {:induction false} MixColsSpelled4_1()
    ensures Spelled(MIX_COLS_INSTR_4, MIX_COLS_GATES_4, XorOnly, 2) &&
      Spelled(MIX_COLS_INSTR_4, MIX_COLS_GATES_4, XorOnly, 3)
  {
  }

  lemma {:induction false} MixColsSpelled4_2()
    ensures Spelled(MIX_COLS_INSTR_4, MIX_COLS_GATES_4, XorOnly, 4) &&
      Spelled(MIX_COLS_INSTR_4, MIX_COLS_GATES_4, XorOnly, 5)
  {
  }

  lemma {:induction false} MixColsSpelled4_3()
    ensures Spelled(MIX_COLS_INSTR_4, MIX_COLS_GATES_4, XorOnly, 6) &&
      Spelled(MIX_COLS_INSTR_4, MIX_COLS_GATES_4, XorOnly, 7)
  {
  }

  lemma {:induction false} MixColsChunk4_0<V>(sk: Engine<V>, gates: seq<Gate>, m: map<string, V>) returns (m': map<string, V>)
    requires 4 <= |gates| && gates[0] == Xor("t26", "t17", "t25") && gates[1] == Xor("t27", "t9", "t23") && gates[2] == Xor("t28", "t8", "t20") && gates[3] == Xor("t29", "x10", "t2")
    requires "x1" in m && "x3" in m && "x4" in m && "x5" in m && "x9" in m && "x10" in m && "x12" in m && "x13" in m && "x14" in m && "x15" in m && "x17" in m && "x19" in m && "x20" in m && "x21" in m && "x22" in m && "x25" in m && "x26" in m && "x28" in m && "x29" in m && "x30" in m && "x31" in m && "t2" in m && "t3" in m && "t4" in m && "t5" in m && "t6" in m && "t7" in m && "t8" in m && "t9" in m && "t10" in m && "t11" in m && "t12" in m && "t13" in m && "t14" in m && "t15" in m && "t16" in m && "y0" in m && "t17" in m && "t18" in m && "y16" in m && "t19" in m && "y24" in m && "t20" in m && "t21" in m && "y8" in m && "y19" in m && "t23" in m && "y3" in m && "t25" in m
    ensures Run(sk, gates, 0, m) == Run(sk, gates, 4, m') &&
      "x1" in m' && m'["x1"] == m["x1"] &&
      "x3" in m' && m'["x3"] == m["x3"] &&
      "x4" in m' && m'["x4"] == m["x4"] &&
      "x5" in m' && m'["x5"] == m["x5"] &&
      "x9" in m' && m'["x9"] == m["x9"] &&
      "x12" in m' && m'["x12"] == m["x12"] &&
      "x13" in m' && m'["x13"] == m["x13"] &&
      "x14" in m' && m'["x14"] == m["x14"] &&
      "x15" in m' && m'["x15"] == m["x15"] &&
      "x17" in m' && m'["x17"] == m["x17"] &&
      "x19" in m' && m'["x19"] == m["x19"] &&
      "x20" in m' && m'["x20"] == m["x20"] &&
      "x21" in m' && m'["x21"] == m["x21"] &&
      "x22" in m' && m'["x22"] == m["x22"] &&
      "x25" in m' && m'["x25"] == m["x25"] &&
      "x26" in m' && m'["x26"] == m["x26"] &&
      "x28" in m' && m'["x28"] == m["x28"] &&
      "x29" in m' && m'["x29"] == m["x29"] &&
      "x30" in m' && m'["x30"] == m["x30"] &&
      "x31" in m' && m'["x31"] == m["x31"] &&
      "t2" in m' && m'["t2"] == m["t2"] &&
      "t3" in m' && m'["t3"] == m["t3"] &&
      "t4" in m' && m'["t4"] == m["t4"] &&
      "t5" in m' && m'["t5"] == m["t5"] &&
      "t6" in m' && m'["t6"] == m["t6"] &&
      "t7" in m' && m'["t7"] == m["t7"] &&
      "t8" in m' && m'["t8"] == m["t8"] &&
      "t9" in m' && m'["t9"] == m["t9"] &&
      "t10" in m' && m'["t10"] == m["t10"] &&
      "t11" in m' && m'["t11"] == m["t11"] &&
      "t12" in m' && m'["t12"] == m["t12"] &&
      "t13" in m' && m'["t13"] == m["t13"] &&
      "t14" in m' && m'["t14"] == m["t14"] &&
      "t15" in m' && m'["t15"] == m["t15"] &&
      "t16" in m' && m'["t16"] == m["t16"] &&
      "y0" in m' && m'["y0"] == m["y0"] &&
      "t17" in m' && m'["t17"] == m["t17"] &&
      "t18" in m' && m'["t18"] == m["t18"] &&
      "y16" in m' && m'["y16"] == m["y16"] &&
      "t19" in m' && m'["t19"] == m["t19"] &&
      "y24" in m' && m'["y24"] == m["y24"] &&
      "t21" in m' && m'["t21"] == m["t21"] &&
      "y8" in m' && m'["y8"] == m["y8"] &&
      "y19" in m' && m'["y19"] == m["y19"] &&
      "y3" in m' && m'["y3"] == m["y3"] &&
      "t25" in m' && m'["t25"] == m["t25"] &&
      "t26" in m' && m'["t26"] == sk.xor(m["t17"], m["t25"]) &&
      "t27" in m' && m'["t27"] == sk.xor(m["t9"], m["t23"]) &&
      "t28" in m' && m'["t28"] == sk.xor(m["t8"], m["t20"]) &&
      "t29" in m' && m'["t29"] == sk.xor(m["x10"], m["t2"])
  {
    var w0 := m;
    var w1 := w0["t26" := sk.xor(w0["t17"], w0["t25"])];
    assert Run(sk, gates, 0, w0) == Run(sk, gates, 1, w1);
    var w2 := w1["t27" := sk.xor(w1["t9"], w1["t23"])];
    assert Run(sk, gates, 1, w1) == Run(sk, gates, 2, w2);
    var w3 := w2["t28" := sk.xor(w2["t8"], w2["t20"])];
    assert Run(sk, gates, 2, w2) == Run(sk, gates, 3, w3);
    var w4 := w3["t29" := sk.xor(w3["x10"], w3["t2"])];
    assert Run(sk, gates, 3, w3) == Run(sk, gates, 4, w4);
    m' := w4;
  }

  lemma {:induction false} MixColsChunk4_1<V>(sk: Engine<V>, gates: seq<Gate>, m: map<string, V>) returns (m': map<string, V>)
    requires 8 <= |gates| && gates[4] == Xor("y2", "t5", "t29") && gates[5] == Xor("t30", "x26", "t3") && gates[6] == Xor("y18", "t4", "t30") && gates[7] == Xor("t31", "x9", "x25")
    requires "x1" in m && "x3" in m && "x4" in m && "x5" in m && "x9" in m && "x12" in m && "x13" in m && "x14" in m && "x15" in m && "x17" in m && "x19" in m && "x20" in m && "x21" in m && "x22" in m && "x25" in m && "x26" in m && "x28" in m && "x29" in m && "x30" in m && "x31" in m && "t2" in m && "t3" in m && "t4" in m && "t5" in m && "t6" in m && "t7" in m && "t8" in m && "t9" in m && "t10" in m && "t11" in m && "t12" in m && "t13" in m && "t14" in m && "t15" in m && "t16" in m && "y0" in m && "t17" in m && "t18" in m && "y16" in m && "t19" in m && "y24" in m && "t21" in m && "y8" in m && "y19" in m && "y3" in m && "t25" in m && "t26" in m && "t27" in m && "t28" in m && "t29" in m
    ensures Run(sk, gates, 4, m) == Run(sk, gates, 8, m') &&
      "x1" in m' && m'["x1"] == m["x1"] &&
      "x3" in m' && m'["x3"] == m["x3"] &&
      "x4" in m' && m'["x4"] == m["x4"] &&
      "x5" in m' && m'["x5"] == m["x5"] &&
      "x12" in m' && m'["x12"] == m["x12"] &&
      "x13" in m' && m'["x13"] == m["x13"] &&
      "x14" in m' && m'["x14"] == m["x14"] &&
      "x15" in m' && m'["x15"] == m["x15"] &&
      "x17" in m' && m'["x17"] == m["x17"] &&
      "x19" in m' && m'["x19"] == m["x19"] &&
      "x20" in m' && m'["x20"] == m["x20"] &&
      "x21" in m' && m'["x21"] == m["x21"] &&
      "x22" in m' && m'["x22"] == m["x22"] &&
      "x28" in m' && m'["x28"] == m["x28"] &&
      "x29" in m' && m'["x29"] == m["x29"] &&
      "x30" in m' && m'["x30"] == m["x30"] &&
      "x31" in m' && m'["x31"] == m["x31"] &&
      "t2" in m' && m'["t2"] == m["t2"] &&
      "t3" in m' && m'["t3"] == m["t3"] &&
      "t6" in m' && m'["t6"] == m["t6"] &&
      "t7" in m' && m'["t7"] == m["t7"] &&
      "t8" in m' && m'["t8"] == m["t8"] &&
      "t9" in m' && m'["t9"] == m["t9"] &&
      "t10" in m' && m'["t10"] == m["t10"] &&
      "t11" in m' && m'["t11"] == m["t11"] &&
      "t12" in m' && m'["t12"] == m["t12"] &&
      "t13" in m' && m'["t13"] == m["t13"] &&
      "t14" in m' && m'["t14"] == m["t14"] &&
      "t15" in m' && m'["t15"] == m["t15"] &&
      "t16" in m' && m'["t16"] == m["t16"] &&
      "y0" in m' && m'["y0"] == m["y0"] &&
      "t17" in m' && m'["t17"] == m["t17"] &&
      "t18" in m' && m'["t18"] == m["t18"] &&
      "y16" in m' && m'["y16"] == m["y16"] &&
      "t19" in m' && m'["t19"] == m["t19"] &&
      "y24" in m' && m'["y24"] == m["y24"] &&
      "t21" in m' && m'["t21"] == m["t21"] &&
      "y8" in m' && m'["y8"] == m["y8"] &&
      "y19" in m' && m'["y19"] == m["y19"] &&
      "y3" in m' && m'["y3"] == m["y3"] &&
      "t25" in m' && m'["t25"] == m["t25"] &&
      "t26" in m' && m'["t26"] == m["t26"] &&
      "t27" in m' && m'["t27"] == m["t27"] &&
      "t28" in m' && m'["t28"] == m["t28"] &&
      "t29" in m' && m'["t29"] == m["t29"] &&
      "y2" in m' && m'["y2"] == sk.xor(m["t5"], m["t29"]) &&
      "t30" in m' && m'["t30"] == sk.xor(m["x26"], m["t3"]) &&
      "y18" in m' && m'["y18"] == sk.xor(m["t4"], sk.xor(m["x26"], m["t3"])) &&
      "t31" in m' && m'["t31"] == sk.xor(m["x9"], m["x25"])
  {
    var w0 := m;
    var w1 := w0["y2" := sk.xor(w0["t5"], w0["t29"])];
    assert Run(sk, gates, 4, w0) == Run(sk, gates, 5, w1);
    var w2 := w1["t30" := sk.xor(w1["x26"], w1["t3"])];
    assert Run(sk, gates, 5, w1) == Run(sk, gates, 6, w2);
    var w3 := w2["y18" := sk.xor(w2["t4"], w2["t30"])];
    assert Run(sk, gates, 6, w2) == Run(sk, gates, 7, w3);
    var w4 := w3["t31" := sk.xor(w3["x9"], w3["x25"])];
    assert Run(sk, gates, 7, w3) == Run(sk, gates, 8, w4);
    m' := w4;
  }

  /** Every instruction of block 4 spells its gate. */
  lemma {:induction false} MixColsSpelled4()
    ensures |MIX_COLS_INSTR_4| == |MIX_COLS_GATES_4| == 8 &&
      (forall k :: 0 <= k < 8 ==> Spelled(MIX_COLS_INSTR_4, MIX_COLS_GATES_4, XorOnly, k))
  {
    forall k | 0 <= k < 8
      ensures Spelled(MIX_COLS_INSTR_4, MIX_COLS_GATES_4, XorOnly, k)
    {
      if k == 0 { MixColsSpelled4_0(); }
      else if k == 1 { MixColsSpelled4_0(); }
      else if k == 2 { MixColsSpelled4_1(); }
      else if k == 3 { MixColsSpelled4_1(); }
      else if k == 4 { MixColsSpelled4_2(); }
      else if k == 5 { MixColsSpelled4_2(); }
      else if k == 6 { MixColsSpelled4_3(); }
      else { MixColsSpelled4_3(); }
    }
  }

  /** Instructions 32 to 39 run from wires holding their live inputs. */
  lemma {:induction false} MixColsBlock4<V>(sk: Engine<V>, m: map<string, V>) returns (m': map<string, V>)
    requires "x1" in m && "x3" in m && "x4" in m && "x5" in m && "x9" in m && "x10" in m && "x12" in m && "x13" in m && "x14" in m && "x15" in m && "x17" in m && "x19" in m && "x20" in m && "x21" in m && "x22" in m && "x25" in m && "x26" in m && "x28" in m && "x29" in m && "x30" in m && "x31" in m && "t2" in m && "t3" in m && "t4" in m && "t5" in m && "t6" in m && "t7" in m && "t8" in m && "t9" in m && "t10" in m && "t11" in m && "t12" in m && "t13" in m && "t14" in m && "t15" in m && "t16" in m && "y0" in m && "t17" in m && "t18" in m && "y16" in m && "t19" in m && "y24" in m && "t20" in m && "t21" in m && "y8" in m && "y19" in m && "t23" in m && "y3" in m && "t25" in m
    ensures Run(sk, MIX_COLS_GATES_4, 0, m) == Ok(m') &&
      "x1" in m' && m'["x1"] == m["x1"] &&
      "x3" in m' && m'["x3"] == m["x3"] &&
      "x4" in m' && m'["x4"] == m["x4"] &&
      "x5" in m' && m'["x5"] == m["x5"] &&
      "x12" in m' && m'["x12"] == m["x12"] &&
      "x13" in m' && m'["x13"] == m["x13"] &&
      "x14" in m' && m'["x14"] == m["x14"] &&
      "x15" in m' && m'["x15"] == m["x15"] &&
      "x17" in m' && m'["x17"] == m["x17"] &&
      "x19" in m' && m'["x19"] == m["x19"] &&
      "x20" in m' && m'["x20"] == m["x20"] &&
      "x21" in m' && m'["x21"] == m["x21"] &&
      "x22" in m' && m'["x22"] == m["x22"] &&
      "x28" in m' && m'["x28"] == m["x28"] &&
      "x29" in m' && m'["x29"] == m["x29"] &&
      "x30" in m' && m'["x30"] == m["x30"] &&
      "x31" in m' && m'["x31"] == m["x31"] &&
      "t2" in m' && m'["t2"] == m["t2"] &&
      "t3" in m' && m'["t3"] == m["t3"] &&
      "t6" in m' && m'["t6"] == m["t6"] &&
      "t7" in m' && m'["t7"] == m["t7"] &&
      "t8" in m' && m'["t8"] == m["t8"] &&
      "t9" in m' && m'["t9"] == m["t9"] &&
      "t10" in m' && m'["t10"] == m["t10"] &&
      "t11" in m' && m'["t11"] == m["t11"] &&
      "t12" in m' && m'["t12"] == m["t12"] &&
      "t13" in m' && m'["t13"] == m["t13"] &&
      "t14" in m' && m'["t14"] == m["t14"] &&
      "t15" in m' && m'["t15"] == m["t15"] &&
      "t16" in m' && m'["t16"] == m["t16"] &&
      "y0" in m' && m'["y0"] == m["y0"] &&
      "t17" in m' && m'["t17"] == m["t17"] &&
      "t18" in m' && m'["t18"] == m["t18"] &&
      "y16" in m' && m'["y16"] == m["y16"] &&
      "t19" in m' && m'["t19"] == m["t19"] &&
      "y24" in m' && m'["y24"] == m["y24"] &&
      "t21" in m' && m'["t21"] == m["t21"] &&
      "y8" in m' && m'["y8"] == m["y8"] &&
      "y19" in m' && m'["y19"] == m["y19"] &&
      "y3" in m' && m'["y3"] == m["y3"] &&
      "t25" in m' && m'["t25"] == m["t25"] &&
      "t26" in m' && m'["t26"] == sk.xor(m["t17"], m["t25"]) &&
      "t27" in m' && m'["t27"] == sk.xor(m["t9"], m["t23"]) &&
      "t28" in m' && m'["t28"] == sk.xor(m["t8"], m["t20"]) &&
      "t29" in m' && m'["t29"] == sk.xor(m["x10"], m["t2"]) &&
      "y2" in m' && m'["y2"] == sk.xor(m["t5"], sk.xor(m["x10"], m["t2"])) &&
      "t30" in m' && m'["t30"] == sk.xor(m["x26"], m["t3"]) &&
      "y18" in m' && m'["y18"] == sk.xor(m["t4"], sk.xor(m["x26"], m["t3"])) &&
      "t31" in m' && m'["t31"] == sk.xor(m["x9"], m["x25"])
  {
    var m1 := MixColsChunk4_0(sk, MIX_COLS_GATES_4, m);
    var m2 := MixColsChunk4_1(sk, MIX_COLS_GATES_4, m1);
    m' := m2;
  }

  lemma {:induction false} MixColsSpelled5_0()
    ensures Spelled(MIX_COLS_INSTR_5, MIX_COLS_GATES_5, XorOnly, 0) &&
      Spelled(MIX_COLS_INSTR_5, MIX_COLS_GATES_5, XorOnly, 1)
  {
  }

  lemma {:induction false} MixColsSpelled5_1()
    ensures Spelled(MIX_COLS_INSTR_5, MIX_COLS_GATES_5, XorOnly, 2) &&
      Spelled(MIX_COLS_INSTR_5, MIX_COLS_GATES_5, XorOnly, 3)
  {
  }

  lemma {:induction false} MixColsSpelled5_2()
    ensures Spelled(MIX_COLS_INSTR_5, MIX_COLS_GATES_5, XorOnly, 4) &&
      Spelled(MIX_COLS_INSTR_5, MIX_COLS_GATES_5, XorOnly, 5)
  {
  }

  lemma {:induction false} MixColsSpelled5_3()
    ensures Spelled(MIX_COLS_INSTR_5, MIX_COLS_GATES_5, XorOnly, 6) &&
      Spelled(MIX_COLS_INSTR_5, MIX_COLS_GATES_5, XorOnly, 7)
  {
  }

  lemma {:induction false} MixColsChunk5_0<V>(sk: Engine<V>, gates: seq<Gate>, m: map<string, V>) returns (m': map<string, V>)
    requires 4 <= |gates| && gates[0] == Xor("t32", "t25", "t31") && gates[1] == Xor("y10", "t30", "t32") && gates[2] == Xor("y26", "t29", "t32") && gates[3] == Xor("t33", "x1", "t18")
    requires "x1" in m && "x3" in m && "x4" in m && "x5" in m && "x12" in m && "x13" in m && "x14" in m && "x15" in m && "x17" in m && "x19" in m && "x20" in m && "x21" in m && "x22" in m && "x28" in m && "x29" in m && "x30" in m && "x31" in m && "t2" in m && "t3" in m && "t6" in m && "t7" in m && "t8" in m && "t9" in m && "t10" in m && "t11" in m && "t12" in m && "t13" in m && "t14" in m && "t15" in m && "t16" in m && "y0" in m && "t17" in m && "t18" in m && "y16" in m && "t19" in m && "y24" in m && "t21" in m && "y8" in m && "y19" in m && "y3" in m && "t25" in m && "t26" in m && "t27" in m && "t28" in m && "t29" in m && "y2" in m && "t30" in m && "y18" in m && "t31" in m
    ensures Run(sk, gates, 0, m) == Run(sk, gates, 4, m') &&
      "x3" in m' && m'["x3"] == m["x3"] &&
      "x4" in m' && m'["x4"] == m["x4"] &&
      "x5" in m' && m'["x5"] == m["x5"] &&
      "x12" in m' && m'["x12"] == m["x12"] &&
      "x13" in m' && m'["x13"] == m["x13"] &&
      "x14" in m' && m'["x14"] == m["x14"] &&
      "x15" in m' && m'["x15"] == m["x15"] &&
      "x17" in m' && m'["x17"] == m["x17"] &&
      "x19" in m' && m'["x19"] == m["x19"] &&
      "x20" in m' && m'["x20"] == m["x20"] &&
      "x21" in m' && m'["x21"] == m["x21"] &&
      "x22" in m' && m'["x22"] == m["x22"] &&
      "x28" in m' && m'["x28"] == m["x28"] &&
      "x29" in m' && m'["x29"] == m["x29"] &&
      "x30" in m' && m'["x30"] == m["x30"] &&
      "x31" in m' && m'["x31"] == m["x31"] &&
      "t2" in m' && m'["t2"] == m["t2"] &&
      "t3" in m' && m'["t3"] == m["t3"] &&
      "t6" in m' && m'["t6"] == m["t6"] &&
      "t7" in m' && m'["t7"] == m["t7"] &&
      "t8" in m' && m'["t8"] == m["t8"] &&
      "t9" in m' && m'["t9"] == m["t9"] &&
      "t10" in m' && m'["t10"] == m["t10"] &&
      "t11" in m' && m'["t11"] == m["t11"] &&
      "t12" in m' && m'["t12"] == m["t12"] &&
      "t13" in m' && m'["t13"] == m["t13"] &&
      "t14" in m' && m'["t14"] == m["t14"] &&
      "t15" in m' && m'["t15"] == m["t15"] &&
      "t16" in m' && m'["t16"] == m["t16"] &&
      "y0" in m' && m'["y0"] == m["y0"] &&
      "t17" in m' && m'["t17"] == m["t17"] &&
      "y16" in m' && m'["y16"] == m["y16"] &&
      "t19" in m' && m'["t19"] == m["t19"] &&
      "y24" in m' && m'["y24"] == m["y24"] &&
      "t21" in m' && m'["t21"] == m["t21"] &&
      "y8" in m' && m'["y8"] == m["y8"] &&
      "y19" in m' && m'["y19"] == m["y19"] &&
      "y3" in m' && m'["y3"] == m["y3"] &&
      "t26" in m' && m'["t26"] == m["t26"] &&
      "t27" in m' && m'["t27"] == m["t27"] &&
      "t28" in m' && m'["t28"] == m["t28"] &&
      "y2" in m' && m'["y2"] == m["y2"] &&
      "y18" in m' && m'["y18"] == m["y18"] &&
      "t31" in m' && m'["t31"] == m["t31"] &&
      "y10" in m' && m'["y10"] == sk.xor(m["t30"], sk.xor(m["t25"], m["t31"])) &&
      "y26" in m' && m'["y26"] == sk.xor(m["t29"], sk.xor(m["t25"], m["t31"])) &&
      "t33" in m' && m'["t33"] == sk.xor(m["x1"], m["t18"])
  {
    var w0 := m;
    var w1 := w0["t32" := sk.xor(w0["t25"], w0["t31"])];
    assert Run(sk, gates, 0, w0) == Run(sk, gates, 1, w1);
    var w2 := w1["y10" := sk.xor(w1["t30"], w1["t32"])];
    assert Run(sk, gates, 1, w1) == Run(sk, gates, 2, w2);
    var w3 := w2["y26" := sk.xor(w2["t29"], w2["t32"])];
    assert Run(sk, gates, 2, w2) == Run(sk, gates, 3, w3);
    var w4 := w3["t33" := sk.xor(w3["x1"], w3["t18"])];
    assert Run(sk, gates, 3, w3) == Run(sk, gates, 4, w4);
    m' := w4;
  }

  lemma {:induction false} MixColsChunk5_1<V>(sk: Engine<V>, gates: seq<Gate>, m: map<string, V>) returns (m': map<string, V>)
    requires 8 <= |gates| && gates[4] == Xor("t34", "x30", "t11") && gates[5] == Xor("y22", "t12", "t34") && gates[6] == Xor("t35", "x14", "t13") && gates[7] == Xor("y6", "t10", "t35")
    requires "x3" in m && "x4" in m && "x5" in m && "x12" in m && "x13" in m && "x14" in m && "x15" in m && "x17" in m && "x19" in m && "x20" in m && "x21" in m && "x22" in m && "x28" in m && "x29" in m && "x30" in m && "x31" in m && "t2" in m && "t3" in m && "t6" in m && "t7" in m && "t8" in m && "t9" in m && "t10" in m && "t11" in m && "t12" in m && "t13" in m && "t14" in m && "t15" in m && "t16" in m && "y0" in m && "t17" in m && "y16" in m && "t19" in m && "y24" in m && "t21" in m && "y8" in m && "y19" in m && "y3" in m && "t26" in m && "t27" in m && "t28" in m && "y2" in m && "y18" in m && "t31" in m && "y10" in m && "y26" in m && "t33" in m
    ensures Run(sk, gates, 4, m) == Run(sk, gates, 8, m') &&
      "x3" in m' && m'["x3"] == m["x3"] &&
      "x4" in m' && m'["x4"] == m["x4"] &&
      "x5" in m' && m'["x5"] == m["x5"] &&
      "x12" in m' && m'["x12"] == m["x12"] &&
      "x13" in m' && m'["x13"] == m["x13"] &&
      "x14" in m' && m'["x14"] == m["x14"] &&
      "x15" in m' && m'["x15"] == m["x15"] &&
      "x17" in m' && m'["x17"] == m["x17"] &&
      "x19" in m' && m'["x19"] == m["x19"] &&
      "x20" in m' && m'["x20"] == m["x20"] &&
      "x21" in m' && m'["x21"] == m["x21"] &&
      "x22" in m' && m'["x22"] == m["x22"] &&
      "x28" in m' && m'["x28"] == m["x28"] &&
      "x29" in m' && m'["x29"] == m["x29"] &&
      "x30" in m' && m'["x30"] == m["x30"] &&
      "x31" in m' && m'["x31"] == m["x31"] &&
      "t2" in m' && m'["t2"] == m["t2"] &&
      "t3" in m' && m'["t3"] == m["t3"] &&
      "t6" in m' && m'["t6"] == m["t6"] &&
      "t7" in m' && m'["t7"] == m["t7"] &&
      "t8" in m' && m'["t8"] == m["t8"] &&
      "t9" in m' && m'["t9"] == m["t9"] &&
      "t10" in m' && m'["t10"] == m["t10"] &&
      "t11" in m' && m'["t11"] == m["t11"] &&
      "t12" in m' && m'["t12"] == m["t12"] &&
      "t13" in m' && m'["t13"] == m["t13"] &&
      "t14" in m' && m'["t14"] == m["t14"] &&
      "t15" in m' && m'["t15"] == m["t15"] &&
      "t16" in m' && m'["t16"] == m["t16"] &&
      "y0" in m' && m'["y0"] == m["y0"] &&
      "t17" in m' && m'["t17"] == m["t17"] &&
      "y16" in m' && m'["y16"] == m["y16"] &&
      "t19" in m' && m'["t19"] == m["t19"] &&
      "y24" in m' && m'["y24"] == m["y24"] &&
      "t21" in m' && m'["t21"] == m["t21"] &&
      "y8" in m' && m'["y8"] == m["y8"] &&
      "y19" in m' && m'["y19"] == m["y19"] &&
      "y3" in m' && m'["y3"] == m["y3"] &&
      "t26" in m' && m'["t26"] == m["t26"] &&
      "t27" in m' && m'["t27"] == m["t27"] &&
      "t28" in m' && m'["t28"] == m["t28"] &&
      "y2" in m' && m'["y2"] == m["y2"] &&
      "y18" in m' && m'["y18"] == m["y18"] &&
      "t31" in m' && m'["t31"] == m["t31"] &&
      "y10" in m' && m'["y10"] == m["y10"] &&
      "y26" in m' && m'["y26"] == m["y26"] &&
      "t33" in m' && m'["t33"] == m["t33"] &&
      "y22" in m' && m'["y22"] == sk.xor(m["t12"], sk.xor(m["x30"], m["t11"])) &&
      "y6" in m' && m'["y6"] == sk.xor(m["t10"], sk.xor(m["x14"], m["t13"]))
  {
    var w0 := m;
    var w1 := w0["t34" := sk.xor(w0["x30"], w0["t11"])];
    assert Run(sk, gates, 4, w0) == Run(sk, gates, 5, w1);
    var w2 := w1["y22" := sk.xor(w1["t12"], w1["t34"])];
    assert Run(sk, gates, 5, w1) == Run(sk, gates, 6, w2);
    var w3 := w2["t35" := sk.xor(w2["x14"], w2["t13"])];
    assert Run(sk, gates, 6, w2) == Run(sk, gates, 7, w3);
    var w4 := w3["y6" := sk.xor(w3["t10"], w3["t35"])];
    assert Run(sk, gates, 7, w3) == Run(sk, gates, 8, w4);
    m' := w4;
  }

  /** Every instruction of block 5 spells its gate. */
  lemma {:induction false} MixColsSpelled5()
    ensures |MIX_COLS_INSTR_5| == |MIX_COLS_GATES_5| == 8 &&
      (forall k :: 0 <= k < 8 ==> Spelled(MIX_COLS_INSTR_5, MIX_COLS_GATES_5, XorOnly, k))
  {
    forall k | 0 <= k < 8
      ensures Spelled(MIX_COLS_INSTR_5, MIX_COLS_GATES_5, XorOnly, k)
    {
      if k == 0 { MixColsSpelled5_0(); }
      else if k == 1 { MixColsSpelled5_0(); }
      else if k == 2 { MixColsSpelled5_1(); }
      else if k == 3 { MixColsSpelled5_1(); }
      else if k == 4 { MixColsSpelled5_2(); }
      else if k == 5 { MixColsSpelled5_2(); }
      else if k == 6 { MixColsSpelled5_3(); }
      else { MixColsSpelled5_3(); }
    }
  }

  /** Instructions 40 to 47 run from wires holding their live inputs. */
  lemma {:induction false} MixColsBlock5<V>(sk: Engine<V>, m: map<string, V>) returns (m': map<string, V>)
    requires "x1" in m && "x3" in m && "x4" in m && "x5" in m && "x12" in m && "x13" in m && "x14" in m && "x15" in m && "x17" in m && "x19" in m && "x20" in m && "x21" in m && "x22" in m && "x28" in m && "x29" in m && "x30" in m && "x31" in m && "t2" in m && "t3" in m && "t6" in m && "t7" in m && "t8" in m && "t9" in m && "t10" in m && "t11" in m && "t12" in m && "t13" in m && "t14" in m && "t15" in m && "t16" in m && "y0" in m && "t17" in m && "t18" in m && "y16" in m && "t19" in m && "y24" in m && "t21" in m && "y8" in m && "y19" in m && "y3" in m && "t25" in m && "t26" in m && "t27" in m && "t28" in m && "t29" in m && "y2" in m && "t30" in m && "y18" in m && "t31" in m
    ensures Run(sk, MIX_COLS_GATES_5, 0, m) == Ok(m') &&
      "x3" in m' && m'["x3"] == m["x3"] &&
      "x4" in m' && m'["x4"] == m["x4"] &&
      "x5" in m' && m'["x5"] == m["x5"] &&
      "x12" in m' && m'["x12"] == m["x12"] &&
      "x13" in m' && m'["x13"] == m["x13"] &&
      "x14" in m' && m'["x14"] == m["x14"] &&
      "x15" in m' && m'["x15"] == m["x15"] &&
      "x17" in m' && m'["x17"] == m["x17"] &&
      "x19" in m' && m'["x19"] == m["x19"] &&
      "x20" in m' && m'["x20"] == m["x20"] &&
      "x21" in m' && m'["x21"] == m["x21"] &&
      "x22" in m' && m'["x22"] == m["x22"] &&
      "x28" in m' && m'["x28"] == m["x28"] &&
      "x29" in m' && m'["x29"] == m["x29"] &&
      "x30" in m' && m'["x30"] == m["x30"] &&
      "x31" in m' && m'["x31"] == m["x31"] &&
      "t2" in m' && m'["t2"] == m["t2"] &&
      "t3" in m' && m'["t3"] == m["t3"] &&
      "t6" in m' && m'["t6"] == m["t6"] &&
      "t7" in m' && m'["t7"] == m["t7"] &&
      "t8" in m' && m'["t8"] == m["t8"] &&
      "t9" in m' && m'["t9"] == m["t9"] &&
      "t10" in m' && m'["t10"] == m["t10"] &&
      "t11" in m' && m'["t11"] == m["t11"] &&
      "t12" in m' && m'["t12"] == m["t12"] &&
      "t13" in m' && m'["t13"] == m["t13"] &&
      "t14" in m' && m'["t14"] == m["t14"] &&
      "t15" in m' && m'["t15"] == m["t15"] &&
      "t16" in m' && m'["t16"] == m["t16"] &&
      "y0" in m' && m'["y0"] == m["y0"] &&
      "t17" in m' && m'["t17"] == m["t17"] &&
      "y16" in m' && m'["y16"] == m["y16"] &&
      "t19" in m' && m'["t19"] == m["t19"] &&
      "y24" in m' && m'["y24"] == m["y24"] &&
      "t21" in m' && m'["t21"] == m["t21"] &&
      "y8" in m' && m'["y8"] == m["y8"] &&
      "y19" in m' && m'["y19"] == m["y19"] &&
      "y3" in m' && m'["y3"] == m["y3"] &&
      "t26" in m' && m'["t26"] == m["t26"] &&
      "t27" in m' && m'["t27"] == m["t27"] &&
      "t28" in m' && m'["t28"] == m["t28"] &&
      "y2" in m' && m'["y2"] == m["y2"] &&
      "y18" in m' && m'["y18"] == m["y18"] &&
      "t31" in m' && m'["t31"] == m["t31"] &&
      "y10" in m' && m'["y10"] == sk.xor(m["t30"], sk.xor(m["t25"], m["t31"])) &&
      "y26" in m' && m'["y26"] == sk.xor(m["t29"], sk.xor(m["t25"], m["t31"])) &&
      "t33" in m' && m'["t33"] == sk.xor(m["x1"], m["t18"]) &&
      "y22" in m' && m'["y22"] == sk.xor(m["t12"], sk.xor(m["x30"], m["t11"])) &&
      "y6" in m' && m'["y6"] == sk.xor(m["t10"], sk.xor(m["x14"], m["t13"]))
  {
    var m1 := MixColsChunk5_0(sk, MIX_COLS_GATES_5, m);
    var m2 := MixColsChunk5_1(sk, MIX_COLS_GATES_5, m1);
    m' := m2;
  }

  lemma {:induction false} MixColsSpelled6_0()
    ensures Spelled(MIX_COLS_INSTR_6, MIX_COLS_GATES_6, XorOnly, 0) &&
      Spelled(MIX_COLS_INSTR_6, MIX_COLS_GATES_6, XorOnly, 1)
  {
  }

  lemma {:induction false} MixColsSpelled6_1()
    ensures Spelled(MIX_COLS_INSTR_6, MIX_COLS_GATES_6, XorOnly, 2) &&
      Spelled(MIX_COLS_INSTR_6, MIX_COLS_GATES_6, XorOnly, 3)
  {
  }

  lemma {:induction false} MixColsSpelled6_2()
    ensures Spelled(MIX_COLS_INSTR_6, MIX_COLS_GATES_6, XorOnly, 4) &&
      Spelled(MIX_COLS_INSTR_6, MIX_COLS_GATES_6, XorOnly, 5)
  {
  }

  lemma {:induction false} MixColsSpelled6_3()
    ensures Spelled(MIX_COLS_INSTR_6, MIX_COLS_GATES_6, XorOnly, 6) &&
      Spelled(MIX_COLS_INSTR_6, MIX_COLS_GATES_6, XorOnly, 7)
  {
  }

  lemma {:induction false} MixColsChunk6_0<V>(sk: Engine<V>, gates: seq<Gate>, m: map<string, V>) returns (m': map<string, V>)
    requires 4 <= |gates| && gates[0] == Xor("t36", "x5", "x21") && gates[1] == Xor("t37", "x30", "t17") && gates[2] == Xor("t38", "x17", "t16") && gates[3] == Xor("t39", "x13", "t8")
    requires "x3" in m && "x4" in m && "x5" in m && "x12" in m && "x13" in m && "x14" in m && "x15" in m && "x17" in m && "x19" in m && "x20" in m && "x21" in m && "x22" in m && "x28" in m && "x29" in m && "x30" in m && "x31" in m && "t2" in m && "t3" in m && "t6" in m && "t7" in m && "t8" in m && "t9" in m && "t10" in m && "t11" in m && "t12" in m && "t13" in m && "t14" in m && "t15" in m && "t16" in m && "y0" in m && "t17" in m && "y16" in m && "t19" in m && "y24" in m && "t21" in m && "y8" in m && "y19" in m && "y3" in m && "t26" in m && "t27" in m && "t28" in m && "y2" in m && "y18" in m && "t31" in m && "y10" in m && "y26" in m && "t33" in m && "y22" in m && "y6" in m
    ensures Run(sk, gates, 0, m) == Run(sk, gates, 4, m') &&
      "x3" in m' && m'["x3"] == m["x3"] &&
      "x4" in m' && m'["x4"] == m["x4"] &&
      "x12" in m' && m'["x12"] == m["x12"] &&
      "x14" in m' && m'["x14"] == m["x14"] &&
      "x15" in m' && m'["x15"] == m["x15"] &&
      "x19" in m' && m'["x19"] == m["x19"] &&
      "x20" in m' && m'["x20"] == m["x20"] &&
      "x22" in m' && m'["x22"] == m["x22"] &&
      "x28" in m' && m'["x28"] == m["x28"] &&
      "x29" in m' && m'["x29"] == m["x29"] &&
      "x31" in m' && m'["x31"] == m["x31"] &&
      "t2" in m' && m'["t2"] == m["t2"] &&
      "t3" in m' && m'["t3"] == m["t3"] &&
      "t6" in m' && m'["t6"] == m["t6"] &&
      "t7" in m' && m'["t7"] == m["t7"] &&
      "t9" in m' && m'["t9"] == m["t9"] &&
      "t10" in m' && m'["t10"] == m["t10"] &&
      "t11" in m' && m'["t11"] == m["t11"] &&
      "t12" in m' && m'["t12"] == m["t12"] &&
      "t13" in m' && m'["t13"] == m["t13"] &&
      "t14" in m' && m'["t14"] == m["t14"] &&
      "t15" in m' && m'["t15"] == m["t15"] &&
      "y0" in m' && m'["y0"] == m["y0"] &&
      "t17" in m' && m'["t17"] == m["t17"] &&
      "y16" in m' && m'["y16"] == m["y16"] &&
      "t19" in m' && m'["t19"] == m["t19"] &&
      "y24" in m' && m'["y24"] == m["y24"] &&
      "t21" in m' && m'["t21"] == m["t21"] &&
      "y8" in m' && m'["y8"] == m["y8"] &&
      "y19" in m' && m'["y19"] == m["y19"] &&
      "y3" in m' && m'["y3"] == m["y3"] &&
      "t26" in m' && m'["t26"] == m["t26"] &&
      "t27" in m' && m'["t27"] == m["t27"] &&
      "t28" in m' && m'["t28"] == m["t28"] &&
      "y2" in m' && m'["y2"] == m["y2"] &&
      "y18" in m' && m'["y18"] == m["y18"] &&
      "t31" in m' && m'["t31"] == m["t31"] &&
      "y10" in m' && m'["y10"] == m["y10"] &&
      "y26" in m' && m'["y26"] == m["y26"] &&
      "t33" in m' && m'["t33"] == m["t33"] &&
      "y22" in m' && m'["y22"] == m["y22"] &&
      "y6" in m' && m'["y6"] == m["y6"] &&
      "t36" in m' && m'["t36"] == sk.xor(m["x5"], m["x21"]) &&
      "t37" in m' && m'["t37"] == sk.xor(m["x30"], m["t17"]) &&
      "t38" in m' && m'["t38"] == sk.xor(m["x17"], m["t16"]) &&
      "t39" in m' && m'["t39"] == sk.xor(m["x13"], m["t8"])
  {
    var w0 := m;
    var w1 := w0["t36" := sk.xor(w0["x5"], w0["x21"])];
    assert Run(sk, gates, 0, w0) == Run(sk, gates, 1, w1);
    var w2 := w1["t37" := sk.xor(w1["x30"], w1["t17"])];
    assert Run(sk, gates, 1, w1) == Run(sk, gates, 2, w2);
    var w3 := w2["t38" := sk.xor(w2["x17"], w2["t16"])];
    assert Run(sk, gates, 2, w2) == Run(sk, gates, 3, w3);
    var w4 := w3["t39" := sk.xor(w3["x13"], w3["t8"])];
    assert Run(sk, gates, 3, w3) == Run(sk, gates, 4, w4);
    m' := w4;
  }

  lemma {:induction false} MixColsChunk6_1<V>(sk: Engine<V>, gates: seq<Gate>, m: map<string, V>) returns (m': map<string, V>)
    requires 8 <= |gates| && gates[4] == Xor("y5", "t11", "t39") && gates[5] == Xor("t40", "x12", "t36") && gates[6] == Xor("t41", "x29", "t9") && gates[7] == Xor("y21", "t10", "t41")
    requires "x3" in m && "x4" in m && "x12" in m && "x14" in m && "x15" in m && "x19" in m && "x20" in m && "x22" in m && "x28" in m && "x29" in m && "x31" in m && "t2" in m && "t3" in m && "t6" in m && "t7" in m && "t9" in m && "t10" in m && "t11" in m && "t12" in m && "t13" in m && "t14" in m && "t15" in m && "y0" in m && "t17" in m && "y16" in m && "t19" in m && "y24" in m && "t21" in m && "y8" in m && "y19" in m && "y3" in m && "t26" in m && "t27" in m && "t28" in m && "y2" in m && "y18" in m && "t31" in m && "y10" in m && "y26" in m && "t33" in m && "y22" in m && "y6" in m && "t36" in m && "t37" in m && "t38" in m && "t39" in m
    ensures Run(sk, gates, 4, m) == Run(sk, gates, 8, m') &&
      "x3" in m' && m'["x3"] == m["x3"] &&
      "x4" in m' && m'["x4"] == m["x4"] &&
      "x12" in m' && m'["x12"] == m["x12"] &&
      "x14" in m' && m'["x14"] == m["x14"] &&
      "x15" in m' && m'["x15"] == m["x15"] &&
      "x19" in m' && m'["x19"] == m["x19"] &&
      "x20" in m' && m'["x20"] == m["x20"] &&
      "x22" in m' && m'["x22"] == m["x22"] &&
      "x28" in m' && m'["x28"] == m["x28"] &&
      "x31" in m' && m'["x31"] == m["x31"] &&
      "t2" in m' && m'["t2"] == m["t2"] &&
      "t3" in m' && m'["t3"] == m["t3"] &&
      "t6" in m' && m'["t6"] == m["t6"] &&
      "t7" in m' && m'["t7"] == m["t7"] &&
      "t11" in m' && m'["t11"] == m["t11"] &&
      "t12" in m' && m'["t12"] == m["t12"] &&
      "t13" in m' && m'["t13"] == m["t13"] &&
      "t14" in m' && m'["t14"] == m["t14"] &&
      "t15" in m' && m'["t15"] == m["t15"] &&
      "y0" in m' && m'["y0"] == m["y0"] &&
      "t17" in m' && m'["t17"] == m["t17"] &&
      "y16" in m' && m'["y16"] == m["y16"] &&
      "t19" in m' && m'["t19"] == m["t19"] &&
      "y24" in m' && m'["y24"] == m["y24"] &&
      "t21" in m' && m'["t21"] == m["t21"] &&
      "y8" in m' && m'["y8"] == m["y8"] &&
      "y19" in m' && m'["y19"] == m["y19"] &&
      "y3" in m' && m'["y3"] == m["y3"] &&
      "t26" in m' && m'["t26"] == m["t26"] &&
      "t27" in m' && m'["t27"] == m["t27"] &&
      "t28" in m' && m'["t28"] == m["t28"] &&
      "y2" in m' && m'["y2"] == m["y2"] &&
      "y18" in m' && m'["y18"] == m["y18"] &&
      "t31" in m' && m'["t31"] == m["t31"] &&
      "y10" in m' && m'["y10"] == m["y10"] &&
      "y26" in m' && m'["y26"] == m["y26"] &&
      "t33" in m' && m'["t33"] == m["t33"] &&
      "y22" in m' && m'["y22"] == m["y22"] &&
      "y6" in m' && m'["y6"] == m["y6"] &&
      "t36" in m' && m'["t36"] == m["t36"] &&
      "t37" in m' && m'["t37"] == m["t37"] &&
      "t38" in m' && m'["t38"] == m["t38"] &&
      "t39" in m' && m'["t39"] == m["t39"] &&
      "y5" in m' && m'["y5"] == sk.xor(m["t11"], m["t39"]) &&
      "t40" in m' && m'["t40"] == sk.xor(m["x12"], m["t36"]) &&
      "t41" in m' && m'["t41"] == sk.xor(m["x29"], m["t9"]) &&
      "y21" in m' && m'["y21"] == sk.xor(m["t10"], sk.xor(m["x29"], m["t9"]))
  {
    var w0 := m;
    var w1 := w0["y5" := sk.xor(w0["t11"], w0["t39"])];
    assert Run(sk, gates, 4, w0) == Run(sk, gates, 5, w1);
    var w2 := w1["t40" := sk.xor(w1["x12"], w1["t36"])];
    assert Run(sk, gates, 5, w1) == Run(sk, gates, 6, w2);
    var w3 := w2["t41" := sk.xor(w2["x29"], w2["t9"])];
    assert Run(sk, gates, 6, w2) == Run(sk, gates, 7, w3);
    var w4 := w3["y21" := sk.xor(w3["t10"], w3["t41"])];
    assert Run(sk, gates, 7, w3) == Run(sk, gates, 8, w4);
    m' := w4;
  }

  /** Every instruction of block 6 spells its gate. */
  lemma {:induction false} MixColsSpelled6()
    ensures |MIX_COLS_INSTR_6| == |MIX_COLS_GATES_6| == 8 &&
      (forall k :: 0 <= k < 8 ==> Spelled(MIX_COLS_INSTR_6, MIX_COLS_GATES_6, XorOnly, k))
  {
    forall k | 0 <= k < 8
      ensures Spelled(MIX_COLS_INSTR_6, MIX_COLS_GATES_6, XorOnly, k)
    {
      if k == 0 { MixColsSpelled6_0(); }
      else if k == 1 { MixColsSpelled6_0(); }
      else if k == 2 { MixColsSpelled6_1(); }
      else if k == 3 { MixColsSpelled6_1(); }
      else if k == 4 { MixColsSpelled6_2(); }
      else if k == 5 { MixColsSpelled6_2(); }
      else if k == 6 { MixColsSpelled6_3(); }
      else { MixColsSpelled6_3(); }
    }
  }

  /** Instructions 48 to 55 run from wires holding their live inputs. */
  lemma {:induction false} MixColsBlock6<V>(sk: Engine<V>, m: map<string, V>) returns (m': map<string, V>)
    requires "x3" in m && "x4" in m && "x5" in m && "x12" in m && "x13" in m && "x14" in m && "x15" in m && "x17" in m && "x19" in m && "x20" in m && "x21" in m && "x22" in m && "x28" in m && "x29" in m && "x30" in m && "x31" in m && "t2" in m && "t3" in m && "t6" in m && "t7" in m && "t8" in m && "t9" in m && "t10" in m && "t11" in m && "t12" in m && "t13" in m && "t14" in m && "t15" in m && "t16" in m && "y0" in m && "t17" in m && "y16" in m && "t19" in m && "y24" in m && "t21" in m && "y8" in m && "y19" in m && "y3" in m && "t26" in m && "t27" in m && "t28" in m && "y2" in m && "y18" in m && "t31" in m && "y10" in m && "y26" in m && "t33" in m && "y22" in m && "y6" in m
    ensures Run(sk, MIX_COLS_GATES_6, 0, m) == Ok(m') &&
      "x3" in m' && m'["x3"] == m["x3"] &&
      "x4" in m' && m'["x4"] == m["x4"] &&
      "x12" in m' && m'["x12"] == m["x12"] &&
      "x14" in m' && m'["x14"] == m["x14"] &&
      "x15" in m' && m'["x15"] == m["x15"] &&
      "x19" in m' && m'["x19"] == m["x19"] &&
      "x20" in m' && m'["x20"] == m["x20"] &&
      "x22" in m' && m'["x22"] == m["x22"] &&
      "x28" in m' && m'["x28"] == m["x28"] &&
      "x31" in m' && m'["x31"] == m["x31"] &&
      "t2" in m' && m'["t2"] == m["t2"] &&
      "t3" in m' && m'["t3"] == m["t3"] &&
      "t6" in m' && m'["t6"] == m["t6"] &&
      "t7" in m' && m'["t7"] == m["t7"] &&
      "t11" in m' && m'["t11"] == m["t11"] &&
      "t12" in m' && m'["t12"] == m["t12"] &&
      "t13" in m' && m'["t13"] == m["t13"] &&
      "t14" in m' && m'["t14"] == m["t14"] &&
      "t15" in m' && m'["t15"] == m["t15"] &&
      "y0" in m' && m'["y0"] == m["y0"] &&
      "t17" in m' && m'["t17"] == m["t17"] &&
      "y16" in m' && m'["y16"] == m["y16"] &&
      "t19" in m' && m'["t19"] == m["t19"] &&
      "y24" in m' && m'["y24"] == m["y24"] &&
      "t21" in m' && m'["t21"] == m["t21"] &&
      "y8" in m' && m'["y8"] == m["y8"] &&
      "y19" in m' && m'["y19"] == m["y19"] &&
      "y3" in m' && m'["y3"] == m["y3"] &&
      "t26" in m' && m'["t26"] == m["t26"] &&
      "t27" in m' && m'["t27"] == m["t27"] &&
      "t28" in m' && m'["t28"] == m["t28"] &&
      "y2" in m' && m'["y2"] == m["y2"] &&
      "y18" in m' && m'["y18"] == m["y18"] &&
      "t31" in m' && m'["t31"] == m["t31"] &&
      "y10" in m' && m'["y10"] == m["y10"] &&
      "y26" in m' && m'["y26"] == m["y26"] &&
      "t33" in m' && m'["t33"] == m["t33"] &&
      "y22" in m' && m'["y22"] == m["y22"] &&
      "y6" in m' && m'["y6"] == m["y6"] &&
      "t36" in m' && m'["t36"] == sk.xor(m["x5"], m["x21"]) &&
      "t37" in m' && m'["t37"] == sk.xor(m["x30"], m["t17"]) &&
      "t38" in m' && m'["t38"] == sk.xor(m["x17"], m["t16"]) &&
      "t39" in m' && m'["t39"] == sk.xor(m["x13"], m["t8"]) &&
      "y5" in m' && m'["y5"] == sk.xor(m["t11"], sk.xor(m["x13"], m["t8"])) &&
      "t40" in m' && m'["t40"] == sk.xor(m["x12"], sk.xor(m["x5"], m["x21"])) &&
      "t41" in m' && m'["t41"] == sk.xor(m["x29"], m["t9"]) &&
      "y21" in m' && m'["y21"] == sk.xor(m["t10"], sk.xor(m["x29"], m["t9"]))
  {
    var m1 := MixColsChunk6_0(sk, MIX_COLS_GATES_6, m);
    var m2 := MixColsChunk6_1(sk, MIX_COLS_GATES_6, m1);
    m' := m2;
  }

  lemma {:induction false} MixColsSpelled7_0()
    ensures Spelled(MIX_COLS_INSTR_7, MIX_COLS_GATES_7, XorOnly, 0) &&
      Spelled(MIX_COLS_INSTR_7, MIX_COLS_GATES_7, XorOnly, 1)
  {
  }

  lemma {:induction false} MixColsSpelled7_1()
    ensures Spelled(MIX_COLS_INSTR_7, MIX_COLS_GATES_7, XorOnly, 2) &&
      Spelled(MIX_COLS_INSTR_7, MIX_COLS_GATES_7, XorOnly, 3)
  {
  }

  lemma {:induction false} MixColsSpelled7_2()
    ensures Spelled(MIX_COLS_INSTR_7, MIX_COLS_GATES_7, XorOnly, 4) &&
      Spelled(MIX_COLS_INSTR_7, MIX_COLS_GATES_7, XorOnly, 5)
  {
  }

  lemma {:induction false} MixColsSpelled7_3()
    ensures Spelled(MIX_COLS_INSTR_7, MIX_COLS_GATES_7, XorOnly, 6) &&
      Spelled(MIX_COLS_INSTR_7, MIX_COLS_GATES_7, XorOnly, 7)
  {
  }

  lemma {:induction false} MixColsChunk7_0<V>(sk: Engine<V>, gates: seq<Gate>, m: map<string, V>) returns (m': map<string, V>)
    requires 4 <= |gates| && gates[0] == Xor("t42", "x28", "t40") && gates[1] == Xor("y13", "t41", "t42") && gates[2] == Xor("y29", "t39", "t42") && gates[3] == Xor("t43", "x15", "t12")
    requires "x3" in m && "x4" in m && "x12" in m && "x14" in m && "x15" in m && "x19" in m && "x20" in m && "x22" in m && "x28" in m && "x31" in m && "t2" in m && "t3" in m && "t6" in m && "t7" in m && "t11" in m && "t12" in m && "t13" in m && "t14" in m && "t15" in m && "y0" in m && "t17" in m && "y16" in m && "t19" in m && "y24" in m && "t21" in m && "y8" in m && "y19" in m && "y3" in m && "t26" in m && "t27" in m && "t28" in m && "y2" in m && "y18" in m && "t31" in m && "y10" in m && "y26" in m && "t33" in m && "y22" in m && "y6" in m && "t36" in m && "t37" in m && "t38" in m && "t39" in m && "y5" in m && "t40" in m && "t41" in m && "y21" in m
    ensures Run(sk, gates, 0, m) == Run(sk, gates, 4, m') &&
      "x3" in m' && m'["x3"] == m["x3"] &&
      "x4" in m' && m'["x4"] == m["x4"] &&
      "x12" in m' && m'["x12"] == m["x12"] &&
      "x14" in m' && m'["x14"] == m["x14"] &&
      "x19" in m' && m'["x19"] == m["x19"] &&
      "x20" in m' && m'["x20"] == m["x20"] &&
      "x22" in m' && m'["x22"] == m["x22"] &&
      "x28" in m' && m'["x28"] == m["x28"] &&
      "x31" in m' && m'["x31"] == m["x31"] &&
      "t2" in m' && m'["t2"] == m["t2"] &&
      "t3" in m' && m'["t3"] == m["t3"] &&
      "t6" in m' && m'["t6"] == m["t6"] &&
      "t7" in m' && m'["t7"] == m["t7"] &&
      "t11" in m' && m'["t11"] == m["t11"] &&
      "t12" in m' && m'["t12"] == m["t12"] &&
      "t13" in m' && m'["t13"] == m["t13"] &&
      "t14" in m' && m'["t14"] == m["t14"] &&
      "t15" in m' && m'["t15"] == m["t15"] &&
      "y0" in m' && m'["y0"] == m["y0"] &&
      "t17" in m' && m'["t17"] == m["t17"] &&
      "y16" in m' && m'["y16"] == m["y16"] &&
      "t19" in m' && m'["t19"] == m["t19"] &&
      "y24" in m' && m'["y24"] == m["y24"] &&
      "t21" in m' && m'["t21"] == m["t21"] &&
      "y8" in m' && m'["y8"] == m["y8"] &&
      "y19" in m' && m'["y19"] == m["y19"] &&
      "y3" in m' && m'["y3"] == m["y3"] &&
      "t26" in m' && m'["t26"] == m["t26"] &&
      "t27" in m' && m'["t27"] == m["t27"] &&
      "t28" in m' && m'["t28"] == m["t28"] &&
      "y2" in m' && m'["y2"] == m["y2"] &&
      "y18" in m' && m'["y18"] == m["y18"] &&
      "t31" in m' && m'["t31"] == m["t31"] &&
      "y10" in m' && m'["y10"] == m["y10"] &&
      "y26" in m' && m'["y26"] == m["y26"] &&
      "t33" in m' && m'["t33"] == m["t33"] &&
      "y22" in m' && m'["y22"] == m["y22"] &&
      "y6" in m' && m'["y6"] == m["y6"] &&
      "t36" in m' && m'["t36"] == m["t36"] &&
      "t37" in m' && m'["t37"] == m["t37"] &&
      "t38" in m' && m'["t38"] == m["t38"] &&
      "y5" in m' && m'["y5"] == m["y5"] &&
      "y21" in m' && m'["y21"] == m["y21"] &&
      "y13" in m' && m'["y13"] == sk.xor(m["t41"], sk.xor(m["x28"], m["t40"])) &&
      "y29" in m' && m'["y29"] == sk.xor(m["t39"], sk.xor(m["x28"], m["t40"])) &&
      "t43" in m' && m'["t43"] == sk.xor(m["x15"], m["t12"])
  {
    var w0 := m;
    var w1 := w0["t42" := sk.xor(w0["x28"], w0["t40"])];
    assert Run(sk, gates, 0, w0) == Run(sk, gates, 1, w1);
    var w2 := w1["y13" := sk.xor(w1["t41"], w1["t42"])];
    assert Run(sk, gates, 1, w1) == Run(sk, gates, 2, w2);
    var w3 := w2["y29" := sk.xor(w2["t39"], w2["t42"])];
    assert Run(sk, gates, 2, w2) == Run(sk, gates, 3, w3);
    var w4 := w3["t43" := sk.xor(w3["x15"], w3["t12"])];
    assert Run(sk, gates, 3, w3) == Run(sk, gates, 4, w4);
    m' := w4;
  }

  lemma {:induction false} MixColsChunk7_1<V>(sk: Engine<V>, gates: seq<Gate>, m: map<string, V>) returns (m': map<string, V>)
    requires 8 <= |gates| && gates[4] == Xor("y7", "t14", "t43") && gates[5] == Xor("t44", "x14", "t37") && gates[6] == Xor("y31", "t43", "t44") && gates[7] == Xor("t45", "x31", "t13")
    requires "x3" in m && "x4" in m && "x12" in m && "x14" in m && "x19" in m && "x20" in m && "x22" in m && "x28" in m && "x31" in m && "t2" in m && "t3" in m && "t6" in m && "t7" in m && "t11" in m && "t12" in m && "t13" in m && "t14" in m && "t15" in m && "y0" in m && "t17" in m && "y16" in m && "t19" in m && "y24" in m && "t21" in m && "y8" in m && "y19" in m && "y3" in m && "t26" in m && "t27" in m && "t28" in m && "y2" in m && "y18" in m && "t31" in m && "y10" in m && "y26" in m && "t33" in m && "y22" in m && "y6" in m && "t36" in m && "t37" in m && "t38" in m && "y5" in m && "y21" in m && "y13" in m && "y29" in m && "t43" in m
    ensures Run(sk, gates, 4, m) == Run(sk, gates, 8, m') &&
      "x3" in m' && m'["x3"] == m["x3"] &&
      "x4" in m' && m'["x4"] == m["x4"] &&
      "x12" in m' && m'["x12"] == m["x12"] &&
      "x19" in m' && m'["x19"] == m["x19"] &&
      "x20" in m' && m'["x20"] == m["x20"] &&
      "x22" in m' && m'["x22"] == m["x22"] &&
      "x28" in m' && m'["x28"] == m["x28"] &&
      "t2" in m' && m'["t2"] == m["t2"] &&
      "t3" in m' && m'["t3"] == m["t3"] &&
      "t6" in m' && m'["t6"] == m["t6"] &&
      "t7" in m' && m'["t7"] == m["t7"] &&
      "t11" in m' && m'["t11"] == m["t11"] &&
      "t12" in m' && m'["t12"] == m["t12"] &&
      "t15" in m' && m'["t15"] == m["t15"] &&
      "y0" in m' && m'["y0"] == m["y0"] &&
      "t17" in m' && m'["t17"] == m["t17"] &&
      "y16" in m' && m'["y16"] == m["y16"] &&
      "t19" in m' && m'["t19"] == m["t19"] &&
      "y24" in m' && m'["y24"] == m["y24"] &&
      "t21" in m' && m'["t21"] == m["t21"] &&
      "y8" in m' && m'["y8"] == m["y8"] &&
      "y19" in m' && m'["y19"] == m["y19"] &&
      "y3" in m' && m'["y3"] == m["y3"] &&
      "t26" in m' && m'["t26"] == m["t26"] &&
      "t27" in m' && m'["t27"] == m["t27"] &&
      "t28" in m' && m'["t28"] == m["t28"] &&
      "y2" in m' && m'["y2"] == m["y2"] &&
      "y18" in m' && m'["y18"] == m["y18"] &&
      "t31" in m' && m'["t31"] == m["t31"] &&
      "y10" in m' && m'["y10"] == m["y10"] &&
      "y26" in m' && m'["y26"] == m["y26"] &&
      "t33" in m' && m'["t33"] == m["t33"] &&
      "y22" in m' && m'["y22"] == m["y22"] &&
      "y6" in m' && m'["y6"] == m["y6"] &&
      "t36" in m' && m'["t36"] == m["t36"] &&
      "t38" in m' && m'["t38"] == m["t38"] &&
      "y5" in m' && m'["y5"] == m["y5"] &&
      "y21" in m' && m'["y21"] == m["y21"] &&
      "y13" in m' && m'["y13"] == m["y13"] &&
      "y29" in m' && m'["y29"] == m["y29"] &&
      "y7" in m' && m'["y7"] == sk.xor(m["t14"], m["t43"]) &&
      "t44" in m' && m'["t44"] == sk.xor(m["x14"], m["t37"]) &&
      "y31" in m' && m'["y31"] == sk.xor(m["t43"], sk.xor(m["x14"], m["t37"])) &&
      "t45" in m' && m'["t45"] == sk.xor(m["x31"], m["t13"])
  {
    var w0 := m;
    var w1 := w0["y7" := sk.xor(w0["t14"], w0["t43"])];
    assert Run(sk, gates, 4, w0) == Run(sk, gates, 5, w1);
    var w2 := w1["t44" := sk.xor(w1["x14"], w1["t37"])];
    assert Run(sk, gates, 5, w1) == Run(sk, gates, 6, w2);
    var w3 := w2["y31" := sk.xor(w2["t43"], w2["t44"])];
    assert Run(sk, gates, 6, w2) == Run(sk, gates, 7, w3);
    var w4 := w3["t45" := sk.xor(w3["x31"], w3["t13"])];
    assert Run(sk, gates, 7, w3) == Run(sk, gates, 8, w4);
    m' := w4;
  }

  /** Every instruction of block 7 spells its gate. */
  lemma {:induction false} MixColsSpelled7()
    ensures |MIX_COLS_INSTR_7| == |MIX_COLS_GATES_7| == 8 &&
      (forall k :: 0 <= k < 8 ==> Spelled(MIX_COLS_INSTR_7, MIX_COLS_GATES_7, XorOnly, k))
  {
    forall k | 0 <= k < 8
      ensures Spelled(MIX_COLS_INSTR_7, MIX_COLS_GATES_7, XorOnly, k)
    {
      if k == 0 { MixColsSpelled7_0(); }
      else if k == 1 { MixColsSpelled7_0(); }
      else if k == 2 { MixColsSpelled7_1(); }
      else if k == 3 { MixColsSpelled7_1(); }
      else if k == 4 { MixColsSpelled7_2(); }
      else if k == 5 { MixColsSpelled7_2(); }
      else if k == 6 { MixColsSpelled7_3(); }
      else { MixColsSpelled7_3(); }
    }
  }

  /** Instructions 56 to 63 run from wires holding their live inputs. */
  lemma {:induction false} MixColsBlock7<V>(sk: Engine<V>, m: map<string, V>) returns (m': map<string, V>)
    requires "x3" in m && "x4" in m && "x12" in m && "x14" in m && "x15" in m && "x19" in m && "x20" in m && "x22" in m && "x28" in m && "x31" in m && "t2" in m && "t3" in m && "t6" in m && "t7" in m && "t11" in m && "t12" in m && "t13" in m && "t14" in m && "t15" in m && "y0" in m && "t17" in m && "y16" in m && "t19" in m && "y24" in m && "t21" in m && "y8" in m && "y19" in m && "y3" in m && "t26" in m && "t27" in m && "t28" in m && "y2" in m && "y18" in m && "t31" in m && "y10" in m && "y26" in m && "t33" in m && "y22" in m && "y6" in m && "t36" in m && "t37" in m && "t38" in m && "t39" in m && "y5" in m && "t40" in m && "t41" in m && "y21" in m
    ensures Run(sk, MIX_COLS_GATES_7, 0, m) == Ok(m') &&
      "x3" in m' && m'["x3"] == m["x3"] &&
      "x4" in m' && m'["x4"] == m["x4"] &&
      "x12" in m' && m'["x12"] == m["x12"] &&
      "x19" in m' && m'["x19"] == m["x19"] &&
      "x20" in m' && m'["x20"] == m["x20"] &&
      "x22" in m' && m'["x22"] == m["x22"] &&
      "x28" in m' && m'["x28"] == m["x28"] &&
      "t2" in m' && m'["t2"] == m["t2"] &&
      "t3" in m' && m'["t3"] == m["t3"] &&
      "t6" in m' && m'["t6"] == m["t6"] &&
      "t7" in m' && m'["t7"] == m["t7"] &&
      "t11" in m' && m'["t11"] == m["t11"] &&
      "t12" in m' && m'["t12"] == m["t12"] &&
      "t15" in m' && m'["t15"] == m["t15"] &&
      "y0" in m' && m'["y0"] == m["y0"] &&
      "t17" in m' && m'["t17"] == m["t17"] &&
      "y16" in m' && m'["y16"] == m["y16"] &&
      "t19" in m' && m'["t19"] == m["t19"] &&
      "y24" in m' && m'["y24"] == m["y24"] &&
      "t21" in m' && m'["t21"] == m["t21"] &&
      "y8" in m' && m'["y8"] == m["y8"] &&
      "y19" in m' && m'["y19"] == m["y19"] &&
      "y3" in m' && m'["y3"] == m["y3"] &&
      "t26" in m' && m'["t26"] == m["t26"] &&
      "t27" in m' && m'["t27"] == m["t27"] &&
      "t28" in m' && m'["t28"] == m["t28"] &&
      "y2" in m' && m'["y2"] == m["y2"] &&
      "y18" in m' && m'["y18"] == m["y18"] &&
      "t31" in m' && m'["t31"] == m["t31"] &&
      "y10" in m' && m'["y10"] == m["y10"] &&
      "y26" in m' && m'["y26"] == m["y26"] &&
      "t33" in m' && m'["t33"] == m["t33"] &&
      "y22" in m' && m'["y22"] == m["y22"] &&
      "y6" in m' && m'["y6"] == m["y6"] &&
      "t36" in m' && m'["t36"] == m["t36"] &&
      "t38" in m' && m'["t38"] == m["t38"] &&
      "y5" in m' && m'["y5"] == m["y5"] &&
      "y21" in m' && m'["y21"] == m["y21"] &&
      "y13" in m' && m'["y13"] == sk.xor(m["t41"], sk.xor(m["x28"], m["t40"])) &&
      "y29" in m' && m'["y29"] == sk.xor(m["t39"], sk.xor(m["x28"], m["t40"])) &&
      "y7" in m' && m'["y7"] == sk.xor(m["t14"], sk.xor(m["x15"], m["t12"])) &&
      "t44" in m' && m'["t44"] == sk.xor(m["x14"], m["t37"]) &&
      "y31" in m' && m'["y31"] == sk.xor(sk.xor(m["x15"], m["t12"]), sk.xor(m["x14"], m["t37"])) &&
      "t45" in m' && m'["t45"] == sk.xor(m["x31"], m["t13"])
  {
    var m1 := MixColsChunk7_0(sk, MIX_COLS_GATES_7, m);
    var m2 := MixColsChunk7_1(sk, MIX_COLS_GATES_7, m1);
    m' := m2;
  }

  lemma {:induction false} MixColsSpelled8_0()
    ensures Spelled(MIX_COLS_INSTR_8, MIX_COLS_GATES_8, XorOnly, 0) &&
      Spelled(MIX_COLS_INSTR_8, MIX_COLS_GATES_8, XorOnly, 1)
  {
  }

  lemma {:induction false} MixColsSpelled8_1()
    ensures Spelled(MIX_COLS_INSTR_8, MIX_COLS_GATES_8, XorOnly, 2) &&
      Spelled(MIX_COLS_INSTR_8, MIX_COLS_GATES_8, XorOnly, 3)
  {
  }

  lemma {:induction false} MixColsSpelled8_2()
    ensures Spelled(MIX_COLS_INSTR_8, MIX_COLS_GATES_8, XorOnly, 4) &&
      Spelled(MIX_COLS_INSTR_8, MIX_COLS_GATES_8, XorOnly, 5)
  {
  }

  lemma {:induction false} MixColsSpelled8_3()
    ensures Spelled(MIX_COLS_INSTR_8, MIX_COLS_GATES_8, XorOnly, 6) &&
      Spelled(MIX_COLS_INSTR_8, MIX_COLS_GATES_8, XorOnly, 7)
  {
  }

  lemma {:induction false} MixColsChunk8_0<V>(sk: Engine<V>, gates: seq<Gate>, m: map<string, V>) returns (m': map<string, V>)
    requires 4 <= |gates| && gates[0] == Xor("y15", "t44", "t45") && gates[1] == Xor("y23", "t15", "t45") && gates[2] == Xor("t46", "t12", "t36") && gates[3] == Xor("y14", "y6", "t46")
    requires "x3" in m && "x4" in m && "x12" in m && "x19" in m && "x20" in m && "x22" in m && "x28" in m && "t2" in m && "t3" in m && "t6" in m && "t7" in m && "t11" in m && "t12" in m && "t15" in m && "y0" in m && "t17" in m && "y16" in m && "t19" in m && "y24" in m && "t21" in m && "y8" in m && "y19" in m && "y3" in m && "t26" in m && "t27" in m && "t28" in m && "y2" in m && "y18" in m && "t31" in m && "y10" in m && "y26" in m && "t33" in m && "y22" in m && "y6" in m && "t36" in m && "t38" in m && "y5" in m && "y21" in m && "y13" in m && "y29" in m && "y7" in m && "t44" in m && "y31" in m && "t45" in m
    ensures Run(sk, gates, 0, m) == Run(sk, gates, 4, m') &&
      "x3" in m' && m'["x3"] == m["x3"] &&
      "x4" in m' && m'["x4"] == m["x4"] &&
      "x12" in m' && m'["x12"] == m["x12"] &&
      "x19" in m' && m'["x19"] == m["x19"] &&
      "x20" in m' && m'["x20"] == m["x20"] &&
      "x22" in m' && m'["x22"] == m["x22"] &&
      "x28" in m' && m'["x28"] == m["x28"] &&
      "t2" in m' && m'["t2"] == m["t2"] &&
      "t3" in m' && m'["t3"] == m["t3"] &&
      "t6" in m' && m'["t6"] == m["t6"] &&
      "t7" in m' && m'["t7"] == m["t7"] &&
      "t11" in m' && m'["t11"] == m["t11"] &&
      "y0" in m' && m'["y0"] == m["y0"] &&
      "t17" in m' && m'["t17"] == m["t17"] &&
      "y16" in m' && m'["y16"] == m["y16"] &&
      "t19" in m' && m'["t19"] == m["t19"] &&
      "y24" in m' && m'["y24"] == m["y24"] &&
      "t21" in m' && m'["t21"] == m["t21"] &&
      "y8" in m' && m'["y8"] == m["y8"] &&
      "y19" in m' && m'["y19"] == m["y19"] &&
      "y3" in m' && m'["y3"] == m["y3"] &&
      "t26" in m' && m'["t26"] == m["t26"] &&
      "t27" in m' && m'["t27"] == m["t27"] &&
      "t28" in m' && m'["t28"] == m["t28"] &&
      "y2" in m' && m'["y2"] == m["y2"] &&
      "y18" in m' && m'["y18"] == m["y18"] &&
      "t31" in m' && m'["t31"] == m["t31"] &&
      "y10" in m' && m'["y10"] == m["y10"] &&
      "y26" in m' && m'["y26"] == m["y26"] &&
      "t33" in m' && m'["t33"] == m["t33"] &&
      "y22" in m' && m'["y22"] == m["y22"] &&
      "y6" in m' && m'["y6"] == m["y6"] &&
      "t38" in m' && m'["t38"] == m["t38"] &&
      "y5" in m' && m'["y5"] == m["y5"] &&
      "y21" in m' && m'["y21"] == m["y21"] &&
      "y13" in m' && m'["y13"] == m["y13"] &&
      "y29" in m' && m'["y29"] == m["y29"] &&
      "y7" in m' && m'["y7"] == m["y7"] &&
      "y31" in m' && m'["y31"] == m["y31"] &&
      "y15" in m' && m'["y15"] == sk.xor(m["t44"], m["t45"]) &&
      "y23" in m' && m'["y23"] == sk.xor(m["t15"], m["t45"]) &&
      "t46" in m' && m'["t46"] == sk.xor(m["t12"], m["t36"]) &&
      "y14" in m' && m'["y14"] == sk.xor(m["y6"], sk.xor(m["t12"], m["t36"]))
  {
    var w0 := m;
    var w1 := w0["y15" := sk.xor(w0["t44"], w0["t45"])];
    assert Run(sk, gates, 0, w0) == Run(sk, gates, 1, w1);
    var w2 := w1["y23" := sk.xor(w1["t15"], w1["t45"])];
    assert Run(sk, gates, 1, w1) == Run(sk, gates, 2, w2);
    var w3 := w2["t46" := sk.xor(w2["t12"], w2["t36"])];
    assert Run(sk, gates, 2, w2) == Run(sk, gates, 3, w3);
    var w4 := w3["y14" := sk.xor(w3["y6"], w3["t46"])];
    assert Run(sk, gates, 3, w3) == Run(sk, gates, 4, w4);
    m' := w4;
  }

  lemma {:induction false} MixColsChunk8_1<V>(sk: Engine<V>, gates: seq<Gate>, m: map<string, V>) returns (m': map<string, V>)
    requires 8 <= |gates| && gates[4] == Xor("t47", "t31", "t33") && gates[5] == Xor("y17", "t19", "t47") && gates[6] == Xor("t48", "t6", "y3") && gates[7] == Xor("y11", "t26", "t48")
    requires "x3" in m && "x4" in m && "x12" in m && "x19" in m && "x20" in m && "x22" in m && "x28" in m && "t2" in m && "t3" in m && "t6" in m && "t7" in m && "t11" in m && "y0" in m && "t17" in m && "y16" in m && "t19" in m && "y24" in m && "t21" in m && "y8" in m && "y19" in m && "y3" in m && "t26" in m && "t27" in m && "t28" in m && "y2" in m && "y18" in m && "t31" in m && "y10" in m && "y26" in m && "t33" in m && "y22" in m && "y6" in m && "t38" in m && "y5" in m && "y21" in m && "y13" in m && "y29" in m && "y7" in m && "y31" in m && "y15" in m && "y23" in m && "t46" in m && "y14" in m
    ensures Run(sk, gates, 4, m) == Run(sk, gates, 8, m') &&
      "x3" in m' && m'["x3"] == m["x3"] &&
      "x4" in m' && m'["x4"] == m["x4"] &&
      "x12" in m' && m'["x12"] == m["x12"] &&
      "x19" in m' && m'["x19"] == m["x19"] &&
      "x20" in m' && m'["x20"] == m["x20"] &&
      "x22" in m' && m'["x22"] == m["x22"] &&
      "x28" in m' && m'["x28"] == m["x28"] &&
      "t2" in m' && m'["t2"] == m["t2"] &&
      "t3" in m' && m'["t3"] == m["t3"] &&
      "t7" in m' && m'["t7"] == m["t7"] &&
      "t11" in m' && m'["t11"] == m["t11"] &&
      "y0" in m' && m'["y0"] == m["y0"] &&
      "t17" in m' && m'["t17"] == m["t17"] &&
      "y16" in m' && m'["y16"] == m["y16"] &&
      "y24" in m' && m'["y24"] == m["y24"] &&
      "t21" in m' && m'["t21"] == m["t21"] &&
      "y8" in m' && m'["y8"] == m["y8"] &&
      "y19" in m' && m'["y19"] == m["y19"] &&
      "y3" in m' && m'["y3"] == m["y3"] &&
      "t26" in m' && m'["t26"] == m["t26"] &&
      "t27" in m' && m'["t27"] == m["t27"] &&
      "t28" in m' && m'["t28"] == m["t28"] &&
      "y2" in m' && m'["y2"] == m["y2"] &&
      "y18" in m' && m'["y18"] == m["y18"] &&
      "t31" in m' && m'["t31"] == m["t31"] &&
      "y10" in m' && m'["y10"] == m["y10"] &&
      "y26" in m' && m'["y26"] == m["y26"] &&
      "t33" in m' && m'["t33"] == m["t33"] &&
      "y22" in m' && m'["y22"] == m["y22"] &&
      "y6" in m' && m'["y6"] == m["y6"] &&
      "t38" in m' && m'["t38"] == m["t38"] &&
      "y5" in m' && m'["y5"] == m["y5"] &&
      "y21" in m' && m'["y21"] == m["y21"] &&
      "y13" in m' && m'["y13"] == m["y13"] &&
      "y29" in m' && m'["y29"] == m["y29"] &&
      "y7" in m' && m'["y7"] == m["y7"] &&
      "y31" in m' && m'["y31"] == m["y31"] &&
      "y15" in m' && m'["y15"] == m["y15"] &&
      "y23" in m' && m'["y23"] == m["y23"] &&
      "t46" in m' && m'["t46"] == m["t46"] &&
      "y14" in m' && m'["y14"] == m["y14"] &&
      "y17" in m' && m'["y17"] == sk.xor(m["t19"], sk.xor(m["t31"], m["t33"])) &&
      "y11" in m' && m'["y11"] == sk.xor(m["t26"], sk.xor(m["t6"], m["y3"]))
  {
    var w0 := m;
    var w1 := w0["t47" := sk.xor(w0["t31"], w0["t33"])];
    assert Run(sk, gates, 4, w0) == Run(sk, gates, 5, w1);
    var w2 := w1["y17" := sk.xor(w1["t19"], w1["t47"])];
    assert Run(sk, gates, 5, w1) == Run(sk, gates, 6, w2);
    var w3 := w2["t48" := sk.xor(w2["t6"], w2["y3"])];
    assert Run(sk, gates, 6, w2) == Run(sk, gates, 7, w3);
    var w4 := w3["y11" := sk.xor(w3["t26"], w3["t48"])];
    assert Run(sk, gates, 7, w3) == Run(sk, gates, 8, w4);
    m' := w4;
  }

  /** Every instruction of block 8 spells its gate. */
  lemma {:induction false} MixColsSpelled8()
    ensures |MIX_COLS_INSTR_8| == |MIX_COLS_GATES_8| == 8 &&
      (forall k :: 0 <= k < 8 ==> Spelled(MIX_COLS_INSTR_8, MIX_COLS_GATES_8, XorOnly, k))
  {
    forall k | 0 <= k < 8
      ensures Spelled(MIX_COLS_INSTR_8, MIX_COLS_GATES_8, XorOnly, k)
    {
      if k == 0 { MixColsSpelled8_0(); }
      else if k == 1 { MixColsSpelled8_0(); }
      else if k == 2 { MixColsSpelled8_1(); }
      else if k == 3 { MixColsSpelled8_1(); }
      else if k == 4 { MixColsSpelled8_2(); }
      else if k == 5 { MixColsSpelled8_2(); }
      else if k == 6 { MixColsSpelled8_3(); }
      else { MixColsSpelled8_3(); }
    }
  }

  /** Instructions 64 to 71 run from wires holding their live inputs. */
  lemma {:induction false} MixColsBlock8<V>(sk: Engine<V>, m: map<string, V>) returns (m': map<string, V>)
    requires "x3" in m && "x4" in m && "x12" in m && "x19" in m && "x20" in m && "x22" in m && "x28" in m && "t2" in m && "t3" in m && "t6" in m && "t7" in m && "t11" in m && "t12" in m && "t15" in m && "y0" in m && "t17" in m && "y16" in m && "t19" in m && "y24" in m && "t21" in m && "y8" in m && "y19" in m && "y3" in m && "t26" in m && "t27" in m && "t28" in m && "y2" in m && "y18" in m && "t31" in m && "y10" in m && "y26" in m && "t33" in m && "y22" in m && "y6" in m && "t36" in m && "t38" in m && "y5" in m && "y21" in m && "y13" in m && "y29" in m && "y7" in m && "t44" in m && "y31" in m && "t45" in m
    ensures Run(sk, MIX_COLS_GATES_8, 0, m) == Ok(m') &&
      "x3" in m' && m'["x3"] == m["x3"] &&
      "x4" in m' && m'["x4"] == m["x4"] &&
      "x12" in m' && m'["x12"] == m["x12"] &&
      "x19" in m' && m'["x19"] == m["x19"] &&
      "x20" in m' && m'["x20"] == m["x20"] &&
      "x22" in m' && m'["x22"] == m["x22"] &&
      "x28" in m' && m'["x28"] == m["x28"] &&
      "t2" in m' && m'["t2"] == m["t2"] &&
      "t3" in m' && m'["t3"] == m["t3"] &&
      "t7" in m' && m'["t7"] == m["t7"] &&
      "t11" in m' && m'["t11"] == m["t11"] &&
      "y0" in m' && m'["y0"] == m["y0"] &&
      "t17" in m' && m'["t17"] == m["t17"] &&
      "y16" in m' && m'["y16"] == m["y16"] &&
      "y24" in m' && m'["y24"] == m["y24"] &&
      "t21" in m' && m'["t21"] == m["t21"] &&
      "y8" in m' && m'["y8"] == m["y8"] &&
      "y19" in m' && m'["y19"] == m["y19"] &&
      "y3" in m' && m'["y3"] == m["y3"] &&
      "t26" in m' && m'["t26"] == m["t26"] &&
      "t27" in m' && m'["t27"] == m["t27"] &&
      "t28" in m' && m'["t28"] == m["t28"] &&
      "y2" in m' && m'["y2"] == m["y2"] &&
      "y18" in m' && m'["y18"] == m["y18"] &&
      "t31" in m' && m'["t31"] == m["t31"] &&
      "y10" in m' && m'["y10"] == m["y10"] &&
      "y26" in m' && m'["y26"] == m["y26"] &&
      "t33" in m' && m'["t33"] == m["t33"] &&
      "y22" in m' && m'["y22"] == m["y22"] &&
      "y6" in m' && m'["y6"] == m["y6"] &&
      "t38" in m' && m'["t38"] == m["t38"] &&
      "y5" in m' && m'["y5"] == m["y5"] &&
      "y21" in m' && m'["y21"] == m["y21"] &&
      "y13" in m' && m'["y13"] == m["y13"] &&
      "y29" in m' && m'["y29"] == m["y29"] &&
      "y7" in m' && m'["y7"] == m["y7"] &&
      "y31" in m' && m'["y31"] == m["y31"] &&
      "y15" in m' && m'["y15"] == sk.xor(m["t44"], m["t45"]) &&
      "y23" in m' && m'["y23"] == sk.xor(m["t15"], m["t45"]) &&
      "t46" in m' && m'["t46"] == sk.xor(m["t12"], m["t36"]) &&
      "y14" in m' && m'["y14"] == sk.xor(m["y6"], sk.xor(m["t12"], m["t36"])) &&
      "y17" in m' && m'["y17"] == sk.xor(m["t19"], sk.xor(m["t31"], m["t33"])) &&
      "y11" in m' && m'["y11"] == sk.xor(m["t26"], sk.xor(m["t6"], m["y3"]))
  {
    var m1 := MixColsChunk8_0(sk, MIX_COLS_GATES_8, m);
    var m2 := MixColsChunk8_1(sk, MIX_COLS_GATES_8, m1);
    m' := m2;
  }

  lemma {:induction false} MixColsSpelled9_0()
    ensures Spelled(MIX_COLS_INSTR_9, MIX_COLS_GATES_9, XorOnly, 0) &&
      Spelled(MIX_COLS_INSTR_9, MIX_COLS_GATES_9, XorOnly, 1)
  {
  }

  lemma {:induction false} MixColsSpelled9_1()
    ensures Spelled(MIX_COLS_INSTR_9, MIX_COLS_GATES_9, XorOnly, 2) &&
      Spelled(MIX_COLS_INSTR_9, MIX_COLS_GATES_9, XorOnly, 3)
  {
  }

  lemma {:induction false} MixColsSpelled9_2()
    ensures Spelled(MIX_COLS_INSTR_9, MIX_COLS_GATES_9, XorOnly, 4) &&
      Spelled(MIX_COLS_INSTR_9, MIX_COLS_GATES_9, XorOnly, 5)
  {
  }

  lemma {:induction false} MixColsSpelled9_3()
    ensures Spelled(MIX_COLS_INSTR_9, MIX_COLS_GATES_9, XorOnly, 6) &&
      Spelled(MIX_COLS_INSTR_9, MIX_COLS_GATES_9, XorOnly, 7)
  {
  }

  lemma {:induction false} MixColsChunk9_0<V>(sk: Engine<V>, gates: seq<Gate>, m: map<string, V>) returns (m': map<string, V>)
    requires 4 <= |gates| && gates[0] == Xor("t49", "t2", "t38") && gates[1] == Xor("y25", "y24", "t49") && gates[2] == Xor("t50", "t7", "y19") && gates[3] == Xor("y27", "t26", "t50")
    requires "x3" in m && "x4" in m && "x12" in m && "x19" in m && "x20" in m && "x22" in m && "x28" in m && "t2" in m && "t3" in m && "t7" in m && "t11" in m && "y0" in m && "t17" in m && "y16" in m && "y24" in m && "t21" in m && "y8" in m && "y19" in m && "y3" in m && "t26" in m && "t27" in m && "t28" in m && "y2" in m && "y18" in m && "t31" in m && "y10" in m && "y26" in m && "t33" in m && "y22" in m && "y6" in m && "t38" in m && "y5" in m && "y21" in m && "y13" in m && "y29" in m && "y7" in m && "y31" in m && "y15" in m && "y23" in m && "t46" in m && "y14" in m && "y17" in m && "y11" in m
    ensures Run(sk, gates, 0, m) == Run(sk, gates, 4, m') &&
      "x3" in m' && m'["x3"] == m["x3"] &&
      "x4" in m' && m'["x4"] == m["x4"] &&
      "x12" in m' && m'["x12"] == m["x12"] &&
      "x19" in m' && m'["x19"] == m["x19"] &&
      "x20" in m' && m'["x20"] == m["x20"] &&
      "x22" in m' && m'["x22"] == m["x22"] &&
      "x28" in m' && m'["x28"] == m["x28"] &&
      "t3" in m' && m'["t3"] == m["t3"] &&
      "t11" in m' && m'["t11"] == m["t11"] &&
      "y0" in m' && m'["y0"] == m["y0"] &&
      "t17" in m' && m'["t17"] == m["t17"] &&
      "y16" in m' && m'["y16"] == m["y16"] &&
      "y24" in m' && m'["y24"] == m["y24"] &&
      "t21" in m' && m'["t21"] == m["t21"] &&
      "y8" in m' && m'["y8"] == m["y8"] &&
      "y19" in m' && m'["y19"] == m["y19"] &&
      "y3" in m' && m'["y3"] == m["y3"] &&
      "t27" in m' && m'["t27"] == m["t27"] &&
      "t28" in m' && m'["t28"] == m["t28"] &&
      "y2" in m' && m'["y2"] == m["y2"] &&
      "y18" in m' && m'["y18"] == m["y18"] &&
      "t31" in m' && m'["t31"] == m["t31"] &&
      "y10" in m' && m'["y10"] == m["y10"] &&
      "y26" in m' && m'["y26"] == m["y26"] &&
      "t33" in m' && m'["t33"] == m["t33"] &&
      "y22" in m' && m'["y22"] == m["y22"] &&
      "y6" in m' && m'["y6"] == m["y6"] &&
      "t38" in m' && m'["t38"] == m["t38"] &&
      "y5" in m' && m'["y5"] == m["y5"] &&
      "y21" in m' && m'["y21"] == m["y21"] &&
      "y13" in m' && m'["y13"] == m["y13"] &&
      "y29" in m' && m'["y29"] == m["y29"] &&
      "y7" in m' && m'["y7"] == m["y7"] &&
      "y31" in m' && m'["y31"] == m["y31"] &&
      "y15" in m' && m'["y15"] == m["y15"] &&
      "y23" in m' && m'["y23"] == m["y23"] &&
      "t46" in m' && m'["t46"] == m["t46"] &&
      "y14" in m' && m'["y14"] == m["y14"] &&
      "y17" in m' && m'["y17"] == m["y17"] &&
      "y11" in m' && m'["y11"] == m["y11"] &&
      "y25" in m' && m'["y25"] == sk.xor(m["y24"], sk.xor(m["t2"], m["t38"])) &&
      "y27" in m' && m'["y27"] == sk.xor(m["t26"], sk.xor(m["t7"], m["y19"]))
  {
    var w0 := m;
    var w1 := w0["t49" := sk.xor(w0["t2"], w0["t38"])];
    assert Run(sk, gates, 0, w0) == Run(sk, gates, 1, w1);
    var w2 := w1["y25" := sk.xor(w1["y24"], w1["t49"])];
    assert Run(sk, gates, 1, w1) == Run(sk, gates, 2, w2);
    var w3 := w2["t50" := sk.xor(w2["t7"], w2["y19"])];
    assert Run(sk, gates, 2, w2) == Run(sk, gates, 3, w3);
    var w4 := w3["y27" := sk.xor(w3["t26"], w3["t50"])];
    assert Run(sk, gates, 3, w3) == Run(sk, gates, 4, w4);
    m' := w4;
  }

  lemma {:induction false} MixColsChunk9_1<V>(sk: Engine<V>, gates: seq<Gate>, m: map<string, V>) returns (m': map<string, V>)
    requires 8 <= |gates| && gates[4] == Xor("t51", "x22", "t46") && gates[5] == Xor("y30", "t11", "t51") && gates[6] == Xor("t52", "x19", "t28") && gates[7] == Xor("y20", "x28", "t52")
    requires "x3" in m && "x4" in m && "x12" in m && "x19" in m && "x20" in m && "x22" in m && "x28" in m && "t3" in m && "t11" in m && "y0" in m && "t17" in m && "y16" in m && "y24" in m && "t21" in m && "y8" in m && "y19" in m && "y3" in m && "t27" in m && "t28" in m && "y2" in m && "y18" in m && "t31" in m && "y10" in m && "y26" in m && "t33" in m && "y22" in m && "y6" in m && "t38" in m && "y5" in m && "y21" in m && "y13" in m && "y29" in m && "y7" in m && "y31" in m && "y15" in m && "y23" in m && "t46" in m && "y14" in m && "y17" in m && "y11" in m && "y25" in m && "y27" in m
    ensures Run(sk, gates, 4, m) == Run(sk, gates, 8, m') &&
      "x3" in m' && m'["x3"] == m["x3"] &&
      "x4" in m' && m'["x4"] == m["x4"] &&
      "x12" in m' && m'["x12"] == m["x12"] &&
      "x19" in m' && m'["x19"] == m["x19"] &&
      "x20" in m' && m'["x20"] == m["x20"] &&
      "t3" in m' && m'["t3"] == m["t3"] &&
      "y0" in m' && m'["y0"] == m["y0"] &&
      "t17" in m' && m'["t17"] == m["t17"] &&
      "y16" in m' && m'["y16"] == m["y16"] &&
      "y24" in m' && m'["y24"] == m["y24"] &&
      "t21" in m' && m'["t21"] == m["t21"] &&
      "y8" in m' && m'["y8"] == m["y8"] &&
      "y19" in m' && m'["y19"] == m["y19"] &&
      "y3" in m' && m'["y3"] == m["y3"] &&
      "t27" in m' && m'["t27"] == m["t27"] &&
      "t28" in m' && m'["t28"] == m["t28"] &&
      "y2" in m' && m'["y2"] == m["y2"] &&
      "y18" in m' && m'["y18"] == m["y18"] &&
      "t31" in m' && m'["t31"] == m["t31"] &&
      "y10" in m' && m'["y10"] == m["y10"] &&
      "y26" in m' && m'["y26"] == m["y26"] &&
      "t33" in m' && m'["t33"] == m["t33"] &&
      "y22" in m' && m'["y22"] == m["y22"] &&
      "y6" in m' && m'["y6"] == m["y6"] &&
      "t38" in m' && m'["t38"] == m["t38"] &&
      "y5" in m' && m'["y5"] == m["y5"] &&
      "y21" in m' && m'["y21"] == m["y21"] &&
      "y13" in m' && m'["y13"] == m["y13"] &&
      "y29" in m' && m'["y29"] == m["y29"] &&
      "y7" in m' && m'["y7"] == m["y7"] &&
      "y31" in m' && m'["y31"] == m["y31"] &&
      "y15" in m' && m'["y15"] == m["y15"] &&
      "y23" in m' && m'["y23"] == m["y23"] &&
      "y14" in m' && m'["y14"] == m["y14"] &&
      "y17" in m' && m'["y17"] == m["y17"] &&
      "y11" in m' && m'["y11"] == m["y11"] &&
      "y25" in m' && m'["y25"] == m["y25"] &&
      "y27" in m' && m'["y27"] == m["y27"] &&
      "y30" in m' && m'["y30"] == sk.xor(m["t11"], sk.xor(m["x22"], m["t46"])) &&
      "y20" in m' && m'["y20"] == sk.xor(m["x28"], sk.xor(m["x19"], m["t28"]))
  {
    var w0 := m;
    var w1 := w0["t51" := sk.xor(w0["x22"], w0["t46"])];
    assert Run(sk, gates, 4, w0) == Run(sk, gates, 5, w1);
    var w2 := w1["y30" := sk.xor(w1["t11"], w1["t51"])];
    assert Run(sk, gates, 5, w1) == Run(sk, gates, 6, w2);
    var w3 := w2["t52" := sk.xor(w2["x19"], w2["t28"])];
    assert Run(sk, gates, 6, w2) == Run(sk, gates, 7, w3);
    var w4 := w3["y20" := sk.xor(w3["x28"], w3["t52"])];
    assert Run(sk, gates, 7, w3) == Run(sk, gates, 8, w4);
    m' := w4;
  }

  /** Every instruction of block 9 spells its gate. */
  lemma {:induction false} MixColsSpelled9()
    ensures |MIX_COLS_INSTR_9| == |MIX_COLS_GATES_9| == 8 &&
      (forall k :: 0 <= k < 8 ==> Spelled(MIX_COLS_INSTR_9, MIX_COLS_GATES_9, XorOnly, k))
  {
    forall k | 0 <= k < 8
      ensures Spelled(MIX_COLS_INSTR_9, MIX_COLS_GATES_9, XorOnly, k)
    {
      if k == 0 { MixColsSpelled9_0(); }
      else if k == 1 { MixColsSpelled9_0(); }
      else if k == 2 { MixColsSpelled9_1(); }
      else if k == 3 { MixColsSpelled9_1(); }
      else if k == 4 { MixColsSpelled9_2(); }
      else if k == 5 { MixColsSpelled9_2(); }
      else if k == 6 { MixColsSpelled9_3(); }
      else { MixColsSpelled9_3(); }
    }
  }

  /** Instructions 72 to 79 run from wires holding their live inputs. */
  lemma {:induction false} MixColsBlock9<V>(sk: Engine<V>, m: map<string, V>) returns (m': map<string, V>)
    requires "x3" in m && "x4" in m && "x12" in m && "x19" in m && "x20" in m && "x22" in m && "x28" in m && "t2" in m && "t3" in m && "t7" in m && "t11" in m && "y0" in m && "t17" in m && "y16" in m && "y24" in m && "t21" in m && "y8" in m && "y19" in m && "y3" in m && "t26" in m && "t27" in m && "t28" in m && "y2" in m && "y18" in m && "t31" in m && "y10" in m && "y26" in m && "t33" in m && "y22" in m && "y6" in m && "t38" in m && "y5" in m && "y21" in m && "y13" in m && "y29" in m && "y7" in m && "y31" in m && "y15" in m && "y23" in m && "t46" in m && "y14" in m && "y17" in m && "y11" in m
    ensures Run(sk, MIX_COLS_GATES_9, 0, m) == Ok(m') &&
      "x3" in m' && m'["x3"] == m["x3"] &&
      "x4" in m' && m'["x4"] == m["x4"] &&
      "x12" in m' && m'["x12"] == m["x12"] &&
      "x19" in m' && m'["x19"] == m["x19"] &&
      "x20" in m' && m'["x20"] == m["x20"] &&
      "t3" in m' && m'["t3"] == m["t3"] &&
      "y0" in m' && m'["y0"] == m["y0"] &&
      "t17" in m' && m'["t17"] == m["t17"] &&
      "y16" in m' && m'["y16"] == m["y16"] &&
      "y24" in m' && m'["y24"] == m["y24"] &&
      "t21" in m' && m'["t21"] == m["t21"] &&
      "y8" in m' && m'["y8"] == m["y8"] &&
      "y19" in m' && m'["y19"] == m["y19"] &&
      "y3" in m' && m'["y3"] == m["y3"] &&
      "t27" in m' && m'["t27"] == m["t27"] &&
      "t28" in m' && m'["t28"] == m["t28"] &&
      "y2" in m' && m'["y2"] == m["y2"] &&
      "y18" in m' && m'["y18"] == m["y18"] &&
      "t31" in m' && m'["t31"] == m["t31"] &&
      "y10" in m' && m'["y10"] == m["y10"] &&
      "y26" in m' && m'["y26"] == m["y26"] &&
      "t33" in m' && m'["t33"] == m["t33"] &&
      "y22" in m' && m'["y22"] == m["y22"] &&
      "y6" in m' && m'["y6"] == m["y6"] &&
      "t38" in m' && m'["t38"] == m["t38"] &&
      "y5" in m' && m'["y5"] == m["y5"] &&
      "y21" in m' && m'["y21"] == m["y21"] &&
      "y13" in m' && m'["y13"] == m["y13"] &&
      "y29" in m' && m'["y29"] == m["y29"] &&
      "y7" in m' && m'["y7"] == m["y7"] &&
      "y31" in m' && m'["y31"] == m["y31"] &&
      "y15" in m' && m'["y15"] == m["y15"] &&
      "y23" in m' && m'["y23"] == m["y23"] &&
      "y14" in m' && m'["y14"] == m["y14"] &&
      "y17" in m' && m'["y17"] == m["y17"] &&
      "y11" in m' && m'["y11"] == m["y11"] &&
      "y25" in m' && m'["y25"] == sk.xor(m["y24"], sk.xor(m["t2"], m["t38"])) &&
      "y27" in m' && m'["y27"] == sk.xor(m["t26"], sk.xor(m["t7"], m["y19"])) &&
      "y30" in m' && m'["y30"] == sk.xor(m["t11"], sk.xor(m["x22"], m["t46"])) &&
      "y20" in m' && m'["y20"] == sk.xor(m["x28"], sk.xor(m["x19"], m["t28"]))
  {
    var m1 := MixColsChunk9_0(sk, MIX_COLS_GATES_9, m);
    var m2 := MixColsChunk9_1(sk, MIX_COLS_GATES_9, m1);
    m' := m2;
  }

  lemma {:induction false} MixColsSpelled10_0()
    ensures Spelled(MIX_COLS_INSTR_10, MIX_COLS_GATES_10, XorOnly, 0) &&
      Spelled(MIX_COLS_INSTR_10, MIX_COLS_GATES_10, XorOnly, 1)
  {
  }

  lemma {:induction false} MixColsSpelled10_1()
    ensures Spelled(MIX_COLS_INSTR_10, MIX_COLS_GATES_10, XorOnly, 2) &&
      Spelled(MIX_COLS_INSTR_10, MIX_COLS_GATES_10, XorOnly, 3)
  {
  }

  lemma {:induction false} MixColsSpelled10_2()
    ensures Spelled(MIX_COLS_INSTR_10, MIX_COLS_GATES_10, XorOnly, 4) &&
      Spelled(MIX_COLS_INSTR_10, MIX_COLS_GATES_10, XorOnly, 5)
  {
  }

  lemma {:induction false} MixColsSpelled10_3()
    ensures Spelled(MIX_COLS_INSTR_10, MIX_COLS_GATES_10, XorOnly, 6) &&
      Spelled(MIX_COLS_INSTR_10, MIX_COLS_GATES_10, XorOnly, 7)
  {
  }

  lemma {:induction false} MixColsChunk10_0<V>(sk: Engine<V>, gates: seq<Gate>, m: map<string, V>) returns (m': map<string, V>)
    requires 4 <= |gates| && gates[0] == Xor("t53", "x3", "t27") && gates[1] == Xor("y4", "x12", "t53") && gates[2] == Xor("t54", "t3", "t33") && gates[3] == Xor("y9", "y8", "t54")
    requires "x3" in m && "x4" in m && "x12" in m && "x19" in m && "x20" in m && "t3" in m && "y0" in m && "t17" in m && "y16" in m && "y24" in m && "t21" in m && "y8" in m && "y19" in m && "y3" in m && "t27" in m && "t28" in m && "y2" in m && "y18" in m && "t31" in m && "y10" in m && "y26" in m && "t33" in m && "y22" in m && "y6" in m && "t38" in m && "y5" in m && "y21" in m && "y13" in m && "y29" in m && "y7" in m && "y31" in m && "y15" in m && "y23" in m && "y14" in m && "y17" in m && "y11" in m && "y25" in m && "y27" in m && "y30" in m && "y20" in m
    ensures Run(sk, gates, 0, m) == Run(sk, gates, 4, m') &&
      "x3" in m' && m'["x3"] == m["x3"] &&
      "x4" in m' && m'["x4"] == m["x4"] &&
      "x19" in m' && m'["x19"] == m["x19"] &&
      "x20" in m' && m'["x20"] == m["x20"] &&
      "y0" in m' && m'["y0"] == m["y0"] &&
      "t17" in m' && m'["t17"] == m["t17"] &&
      "y16" in m' && m'["y16"] == m["y16"] &&
      "y24" in m' && m'["y24"] == m["y24"] &&
      "t21" in m' && m'["t21"] == m["t21"] &&
      "y8" in m' && m'["y8"] == m["y8"] &&
      "y19" in m' && m'["y19"] == m["y19"] &&
      "y3" in m' && m'["y3"] == m["y3"] &&
      "t27" in m' && m'["t27"] == m["t27"] &&
      "t28" in m' && m'["t28"] == m["t28"] &&
      "y2" in m' && m'["y2"] == m["y2"] &&
      "y18" in m' && m'["y18"] == m["y18"] &&
      "t31" in m' && m'["t31"] == m["t31"] &&
      "y10" in m' && m'["y10"] == m["y10"] &&
      "y26" in m' && m'["y26"] == m["y26"] &&
      "y22" in m' && m'["y22"] == m["y22"] &&
      "y6" in m' && m'["y6"] == m["y6"] &&
      "t38" in m' && m'["t38"] == m["t38"] &&
      "y5" in m' && m'["y5"] == m["y5"] &&
      "y21" in m' && m'["y21"] == m["y21"] &&
      "y13" in m' && m'["y13"] == m["y13"] &&
      "y29" in m' && m'["y29"] == m["y29"] &&
      "y7" in m' && m'["y7"] == m["y7"] &&
      "y31" in m' && m'["y31"] == m["y31"] &&
      "y15" in m' && m'["y15"] == m["y15"] &&
      "y23" in m' && m'["y23"] == m["y23"] &&
      "y14" in m' && m'["y14"] == m["y14"] &&
      "y17" in m' && m'["y17"] == m["y17"] &&
      "y11" in m' && m'["y11"] == m["y11"] &&
      "y25" in m' && m'["y25"] == m["y25"] &&
      "y27" in m' && m'["y27"] == m["y27"] &&
      "y30" in m' && m'["y30"] == m["y30"] &&
      "y20" in m' && m'["y20"] == m["y20"] &&
      "y4" in m' && m'["y4"] == sk.xor(m["x12"], sk.xor(m["x3"], m["t27"])) &&
      "y9" in m' && m'["y9"] == sk.xor(m["y8"], sk.xor(m["t3"], m["t33"]))
  {
    var w0 := m;
    var w1 := w0["t53" := sk.xor(w0["x3"], w0["t27"])];
    assert Run(sk, gates, 0, w0) == Run(sk, gates, 1, w1);
    var w2 := w1["y4" := sk.xor(w1["x12"], w1["t53"])];
    assert Run(sk, gates, 1, w1) == Run(sk, gates, 2, w2);
    var w3 := w2["t54" := sk.xor(w2["t3"], w2["t33"])];
    assert Run(sk, gates, 2, w2) == Run(sk, gates, 3, w3);
    var w4 := w3["y9" := sk.xor(w3["y8"], w3["t54"])];
    assert Run(sk, gates, 3, w3) == Run(sk, gates, 4, w4);
    m' := w4;
  }

  lemma {:induction false} MixColsChunk10_1<V>(sk: Engine<V>, gates: seq<Gate>, m: map<string, V>) returns (m': map<string, V>)
    requires 8 <= |gates| && gates[4] == Xor("t55", "t21", "t31") && gates[5] == Xor("y1", "t38", "t55") && gates[6] == Xor("t56", "x4", "t17") && gates[7] == Xor("t57", "x19", "t56")
    requires "x3" in m && "x4" in m && "x19" in m && "x20" in m && "y0" in m && "t17" in m && "y16" in m && "y24" in m && "t21" in m && "y8" in m && "y19" in m && "y3" in m && "t27" in m && "t28" in m && "y2" in m && "y18" in m && "t31" in m && "y10" in m && "y26" in m && "y22" in m && "y6" in m && "t38" in m && "y5" in m && "y21" in m && "y13" in m && "y29" in m && "y7" in m && "y31" in m && "y15" in m && "y23" in m && "y14" in m && "y17" in m && "y11" in m && "y25" in m && "y27" in m && "y30" in m && "y20" in m && "y4" in m && "y9" in m
    ensures Run(sk, gates, 4, m) == Run(sk, gates, 8, m') &&
      "x3" in m' && m'["x3"] == m["x3"] &&
      "x20" in m' && m'["x20"] == m["x20"] &&
      "y0" in m' && m'["y0"] == m["y0"] &&
      "t17" in m' && m'["t17"] == m["t17"] &&
      "y16" in m' && m'["y16"] == m["y16"] &&
      "y24" in m' && m'["y24"] == m["y24"] &&
      "y8" in m' && m'["y8"] == m["y8"] &&
      "y19" in m' && m'["y19"] == m["y19"] &&
      "y3" in m' && m'["y3"] == m["y3"] &&
      "t27" in m' && m'["t27"] == m["t27"] &&
      "t28" in m' && m'["t28"] == m["t28"] &&
      "y2" in m' && m'["y2"] == m["y2"] &&
      "y18" in m' && m'["y18"] == m["y18"] &&
      "y10" in m' && m'["y10"] == m["y10"] &&
      "y26" in m' && m'["y26"] == m["y26"] &&
      "y22" in m' && m'["y22"] == m["y22"] &&
      "y6" in m' && m'["y6"] == m["y6"] &&
      "y5" in m' && m'["y5"] == m["y5"] &&
      "y21" in m' && m'["y21"] == m["y21"] &&
      "y13" in m' && m'["y13"] == m["y13"] &&
      "y29" in m' && m'["y29"] == m["y29"] &&
      "y7" in m' && m'["y7"] == m["y7"] &&
      "y31" in m' && m'["y31"] == m["y31"] &&
      "y15" in m' && m'["y15"] == m["y15"] &&
      "y23" in m' && m'["y23"] == m["y23"] &&
      "y14" in m' && m'["y14"] == m["y14"] &&
      "y17" in m' && m'["y17"] == m["y17"] &&
      "y11" in m' && m'["y11"] == m["y11"] &&
      "y25" in m' && m'["y25"] == m["y25"] &&
      "y27" in m' && m'["y27"] == m["y27"] &&
      "y30" in m' && m'["y30"] == m["y30"] &&
      "y20" in m' && m'["y20"] == m["y20"] &&
      "y4" in m' && m'["y4"] == m["y4"] &&
      "y9" in m' && m'["y9"] == m["y9"] &&
      "y1" in m' && m'["y1"] == sk.xor(m["t38"], sk.xor(m["t21"], m["t31"])) &&
      "t57" in m' && m'["t57"] == sk.xor(m["x19"], sk.xor(m["x4"], m["t17"]))
  {
    var w0 := m;
    var w1 := w0["t55" := sk.xor(w0["t21"], w0["t31"])];
    assert Run(sk, gates, 4, w0) == Run(sk, gates, 5, w1);
    var w2 := w1["y1" := sk.xor(w1["t38"], w1["t55"])];
    assert Run(sk, gates, 5, w1) == Run(sk, gates, 6, w2);
    var w3 := w2["t56" := sk.xor(w2["x4"], w2["t17"])];
    assert Run(sk, gates, 6, w2) == Run(sk, gates, 7, w3);
    var w4 := w3["t57" := sk.xor(w3["x19"], w3["t56"])];
    assert Run(sk, gates, 7, w3) == Run(sk, gates, 8, w4);
    m' := w4;
  }

  /** Every instruction of block 10 spells its gate. */
  lemma {:induction false} MixColsSpelled10()
    ensures |MIX_COLS_INSTR_10| == |MIX_COLS_GATES_10| == 8 &&
      (forall k :: 0 <= k < 8 ==> Spelled(MIX_COLS_INSTR_10, MIX_COLS_GATES_10, XorOnly, k))
  {
    forall k | 0 <= k < 8
      ensures Spelled(MIX_COLS_INSTR_10, MIX_COLS_GATES_10, XorOnly, k)
    {
      if k == 0 { MixColsSpelled10_0(); }
      else if k == 1 { MixColsSpelled10_0(); }
      else if k == 2 { MixColsSpelled10_1(); }
      else if k == 3 { MixColsSpelled10_1(); }
      else if k == 4 { MixColsSpelled10_2(); }
      else if k == 5 { MixColsSpelled10_2(); }
      else if k == 6 { MixColsSpelled10_3(); }
      else { MixColsSpelled10_3(); }
    }
  }

  /** Instructions 80 to 87 run from wires holding their live inputs. */
  lemma {:induction false} MixColsBlock10<V>(sk: Engine<V>, m: map<string, V>) returns (m': map<string, V>)
    requires "x3" in m && "x4" in m && "x12" in m && "x19" in m && "x20" in m && "t3" in m && "y0" in m && "t17" in m && "y16" in m && "y24" in m && "t21" in m && "y8" in m && "y19" in m && "y3" in m && "t27" in m && "t28" in m && "y2" in m && "y18" in m && "t31" in m && "y10" in m && "y26" in m && "t33" in m && "y22" in m && "y6" in m && "t38" in m && "y5" in m && "y21" in m && "y13" in m && "y29" in m && "y7" in m && "y31" in m && "y15" in m && "y23" in m && "y14" in m && "y17" in m && "y11" in m && "y25" in m && "y27" in m && "y30" in m && "y20" in m
    ensures Run(sk, MIX_COLS_GATES_10, 0, m) == Ok(m') &&
      "x3" in m' && m'["x3"] == m["x3"] &&
      "x20" in m' && m'["x20"] == m["x20"] &&
      "y0" in m' && m'["y0"] == m["y0"] &&
      "t17" in m' && m'["t17"] == m["t17"] &&
      "y16" in m' && m'["y16"] == m["y16"] &&
      "y24" in m' && m'["y24"] == m["y24"] &&
      "y8" in m' && m'["y8"] == m["y8"] &&
      "y19" in m' && m'["y19"] == m["y19"] &&
      "y3" in m' && m'["y3"] == m["y3"] &&
      "t27" in m' && m'["t27"] == m["t27"] &&
      "t28" in m' && m'["t28"] == m["t28"] &&
      "y2" in m' && m'["y2"] == m["y2"] &&
      "y18" in m' && m'["y18"] == m["y18"] &&
      "y10" in m' && m'["y10"] == m["y10"] &&
      "y26" in m' && m'["y26"] == m["y26"] &&
      "y22" in m' && m'["y22"] == m["y22"] &&
      "y6" in m' && m'["y6"] == m["y6"] &&
      "y5" in m' && m'["y5"] == m["y5"] &&
      "y21" in m' && m'["y21"] == m["y21"] &&
      "y13" in m' && m'["y13"] == m["y13"] &&
      "y29" in m' && m'["y29"] == m["y29"] &&
      "y7" in m' && m'["y7"] == m["y7"] &&
      "y31" in m' && m'["y31"] == m["y31"] &&
      "y15" in m' && m'["y15"] == m["y15"] &&
      "y23" in m' && m'["y23"] == m["y23"] &&
      "y14" in m' && m'["y14"] == m["y14"] &&
      "y17" in m' && m'["y17"] == m["y17"] &&
      "y11" in m' && m'["y11"] == m["y11"] &&
      "y25" in m' && m'["y25"] == m["y25"] &&
      "y27" in m' && m'["y27"] == m["y27"] &&
      "y30" in m' && m'["y30"] == m["y30"] &&
      "y20" in m' && m'["y20"] == m["y20"] &&
      "y4" in m' && m'["y4"] == sk.xor(m["x12"], sk.xor(m["x3"], m["t27"])) &&
      "y9" in m' && m'["y9"] == sk.xor(m["y8"], sk.xor(m["t3"], m["t33"])) &&
      "y1" in m' && m'["y1"] == sk.xor(m["t38"], sk.xor(m["t21"], m["t31"])) &&
      "t57" in m' && m'["t57"] == sk.xor(m["x19"], sk.xor(m["x4"], m["t17"]))
  {
    var m1 := MixColsChunk10_0(sk, MIX_COLS_GATES_10, m);
    var m2 := MixColsChunk10_1(sk, MIX_COLS_GATES_10, m1);
    m' := m2;
  }

  lemma {:induction false} MixColsSpelled11_0()
    ensures Spelled(MIX_COLS_INSTR_11, MIX_COLS_GATES_11, XorOnly, 0) &&
      Spelled(MIX_COLS_INSTR_11, MIX_COLS_GATES_11, XorOnly, 1)
  {
  }

  lemma {:induction false} MixColsSpelled11_1()
    ensures Spelled(MIX_COLS_INSTR_11, MIX_COLS_GATES_11, XorOnly, 2) &&
      Spelled(MIX_COLS_INSTR_11, MIX_COLS_GATES_11, XorOnly, 3)
  {
  }

  lemma {:induction false} MixColsChunk11_0<V>(sk: Engine<V>, gates: seq<Gate>, m: map<string, V>) returns (m': map<string, V>)
    requires 4 <= |gates| && gates[0] == Xor("y12", "t27", "t57") && gates[1] == Xor("t58", "x3", "t28") && gates[2] == Xor("t59", "t17", "t58") && gates[3] == Xor("y28", "x20", "t59")
    requires "x3" in m && "x20" in m && "y0" in m && "t17" in m && "y16" in m && "y24" in m && "y8" in m && "y19" in m && "y3" in m && "t27" in m && "t28" in m && "y2" in m && "y18" in m && "y10" in m && "y26" in m && "y22" in m && "y6" in m && "y5" in m && "y21" in m && "y13" in m && "y29" in m && "y7" in m && "y31" in m && "y15" in m && "y23" in m && "y14" in m && "y17" in m && "y11" in m && "y25" in m && "y27" in m && "y30" in m && "y20" in m && "y4" in m && "y9" in m && "y1" in m && "t57" in m
    ensures Run(sk, gates, 0, m) == Run(sk, gates, 4, m') &&
      "y0" in m' && m'["y0"] == m["y0"] &&
      "y16" in m' && m'["y16"] == m["y16"] &&
      "y24" in m' && m'["y24"] == m["y24"] &&
      "y8" in m' && m'["y8"] == m["y8"] &&
      "y19" in m' && m'["y19"] == m["y19"] &&
      "y3" in m' && m'["y3"] == m["y3"] &&
      "y2" in m' && m'["y2"] == m["y2"] &&
      "y18" in m' && m'["y18"] == m["y18"] &&
      "y10" in m' && m'["y10"] == m["y10"] &&
      "y26" in m' && m'["y26"] == m["y26"] &&
      "y22" in m' && m'["y22"] == m["y22"] &&
      "y6" in m' && m'["y6"] == m["y6"] &&
      "y5" in m' && m'["y5"] == m["y5"] &&
      "y21" in m' && m'["y21"] == m["y21"] &&
      "y13" in m' && m'["y13"] == m["y13"] &&
      "y29" in m' && m'["y29"] == m["y29"] &&
      "y7" in m' && m'["y7"] == m["y7"] &&
      "y31" in m' && m'["y31"] == m["y31"] &&
      "y15" in m' && m'["y15"] == m["y15"] &&
      "y23" in m' && m'["y23"] == m["y23"] &&
      "y14" in m' && m'["y14"] == m["y14"] &&
      "y17" in m' && m'["y17"] == m["y17"] &&
      "y11" in m' && m'["y11"] == m["y11"] &&
      "y25" in m' && m'["y25"] == m["y25"] &&
      "y27" in m' && m'["y27"] == m["y27"] &&
      "y30" in m' && m'["y30"] == m["y30"] &&
      "y20" in m' && m'["y20"] == m["y20"] &&
      "y4" in m' && m'["y4"] == m["y4"] &&
      "y9" in m' && m'["y9"] == m["y9"] &&
      "y1" in m' && m'["y1"] == m["y1"] &&
      "y12" in m' && m'["y12"] == sk.xor(m["t27"], m["t57"]) &&
      "y28" in m' && m'["y28"] == sk.xor(m["x20"], sk.xor(m["t17"], sk.xor(m["x3"], m["t28"])))
  {
    var w0 := m;
    var w1 := w0["y12" := sk.xor(w0["t27"], w0["t57"])];
    assert Run(sk, gates, 0, w0) == Run(sk, gates, 1, w1);
    var w2 := w1["t58" := sk.xor(w1["x3"], w1["t28"])];
    assert Run(sk, gates, 1, w1) == Run(sk, gates, 2, w2);
    var w3 := w2["t59" := sk.xor(w2["t17"], w2["t58"])];
    assert Run(sk, gates, 2, w2) == Run(sk, gates, 3, w3);
    var w4 := w3["y28" := sk.xor(w3["x20"], w3["t59"])];
    assert Run(sk, gates, 3, w3) == Run(sk, gates, 4, w4);
    m' := w4;
  }

  /** Every instruction of block 11 spells its gate. */
  lemma {:induction false} MixColsSpelled11()
    ensures |MIX_COLS_INSTR_11| == |MIX_COLS_GATES_11| == 4 &&
      (forall k :: 0 <= k < 4 ==> Spelled(MIX_COLS_INSTR_11, MIX_COLS_GATES_11, XorOnly, k))
  {
    forall k | 0 <= k < 4
      ensures Spelled(MIX_COLS_INSTR_11, MIX_COLS_GATES_11, XorOnly, k)
    {
      if k == 0 { MixColsSpelled11_0(); }
      else if k == 1 { MixColsSpelled11_0(); }
      else if k == 2 { MixColsSpelled11_1(); }
      else { MixColsSpelled11_1(); }
    }
  }

  /** Instructions 88 to 91 run from wires holding their live inputs. */
  lemma {:induction false} MixColsBlock11<V>(sk: Engine<V>, m: map<string, V>) returns (m': map<string, V>)
    requires "x3" in m && "x20" in m && "y0" in m && "t17" in m && "y16" in m && "y24" in m && "y8" in m && "y19" in m && "y3" in m && "t27" in m && "t28" in m && "y2" in m && "y18" in m && "y10" in m && "y26" in m && "y22" in m && "y6" in m && "y5" in m && "y21" in m && "y13" in m && "y29" in m && "y7" in m && "y31" in m && "y15" in m && "y23" in m && "y14" in m && "y17" in m && "y11" in m && "y25" in m && "y27" in m && "y30" in m && "y20" in m && "y4" in m && "y9" in m && "y1" in m && "t57" in m
    ensures Run(sk, MIX_COLS_GATES_11, 0, m) == Ok(m') &&
      "y0" in m' && m'["y0"] == m["y0"] &&
      "y16" in m' && m'["y16"] == m["y16"] &&
      "y24" in m' && m'["y24"] == m["y24"] &&
      "y8" in m' && m'["y8"] == m["y8"] &&
      "y19" in m' && m'["y19"] == m["y19"] &&
      "y3" in m' && m'["y3"] == m["y3"] &&
      "y2" in m' && m'["y2"] == m["y2"] &&
      "y18" in m' && m'["y18"] == m["y18"] &&
      "y10" in m' && m'["y10"] == m["y10"] &&
      "y26" in m' && m'["y26"] == m["y26"] &&
      "y22" in m' && m'["y22"] == m["y22"] &&
      "y6" in m' && m'["y6"] == m["y6"] &&
      "y5" in m' && m'["y5"] == m["y5"] &&
      "y21" in m' && m'["y21"] == m["y21"] &&
      "y13" in m' && m'["y13"] == m["y13"] &&
      "y29" in m' && m'["y29"] == m["y29"] &&
      "y7" in m' && m'["y7"] == m["y7"] &&
      "y31" in m' && m'["y31"] == m["y31"] &&
      "y15" in m' && m'["y15"] == m["y15"] &&
      "y23" in m' && m'["y23"] == m["y23"] &&
      "y14" in m' && m'["y14"] == m["y14"] &&
      "y17" in m' && m'["y17"] == m["y17"] &&
      "y11" in m' && m'["y11"] == m["y11"] &&
      "y25" in m' && m'["y25"] == m["y25"] &&
      "y27" in m' && m'["y27"] == m["y27"] &&
      "y30" in m' && m'["y30"] == m["y30"] &&
      "y20" in m' && m'["y20"] == m["y20"] &&
      "y4" in m' && m'["y4"] == m["y4"] &&
      "y9" in m' && m'["y9"] == m["y9"] &&
      "y1" in m' && m'["y1"] == m["y1"] &&
      "y12" in m' && m'["y12"] == sk.xor(m["t27"], m["t57"]) &&
      "y28" in m' && m'["y28"] == sk.xor(m["x20"], sk.xor(m["t17"], sk.xor(m["x3"], m["t28"])))
  {
    var m1 := MixColsChunk11_0(sk, MIX_COLS_GATES_11, m);
    m' := m1;
  }

  /** Every instruction of the program spells the matching gate. */
  lemma {:induction false} MixColsSpelledAll()
    ensures |MIX_COLS_INSTR| == |MIX_COLS_GATES| == 92 &&
      (forall k :: 0 <= k < 92 ==> Spelled(MIX_COLS_INSTR, MIX_COLS_GATES, XorOnly, k))
  {
    MixColsSpelled0();
    MixColsSpelled1();
    SpelledAppend(XorOnly, MIX_COLS_INSTR_0, MIX_COLS_GATES_0, MIX_COLS_INSTR_1, MIX_COLS_GATES_1);
    MixColsSpelled2();
    SpelledAppend(XorOnly, MIX_COLS_INSTR_0 + MIX_COLS_INSTR_1, MIX_COLS_GATES_0 + MIX_COLS_GATES_1, MIX_COLS_INSTR_2, MIX_COLS_GATES_2);
    MixColsSpelled3();
    SpelledAppend(XorOnly, MIX_COLS_INSTR_0 + MIX_COLS_INSTR_1 + MIX_COLS_INSTR_2, MIX_COLS_GATES_0 + MIX_COLS_GATES_1 + MIX_COLS_GATES_2, MIX_COLS_INSTR_3, MIX_COLS_GATES_3);
    MixColsSpelled4();
    SpelledAppend(XorOnly, MIX_COLS_INSTR_0 + MIX_COLS_INSTR_1 + MIX_COLS_INSTR_2 + MIX_COLS_INSTR_3, MIX_COLS_GATES_0 + MIX_COLS_GATES_1 + MIX_COLS_GATES_2 + MIX_COLS_GATES_3, MIX_COLS_INSTR_4, MIX_COLS_GATES_4);
    MixColsSpelled5();
    SpelledAppend(XorOnly, MIX_COLS_INSTR_0 + MIX_COLS_INSTR_1 + MIX_COLS_INSTR_2 + MIX_COLS_INSTR_3 + MIX_COLS_INSTR_4, MIX_COLS_GATES_0 + MIX_COLS_GATES_1 + MIX_COLS_GATES_2 + MIX_COLS_GATES_3 + MIX_COLS_GATES_4, MIX_COLS_INSTR_5, MIX_COLS_GATES_5);
    MixColsSpelled6();
    SpelledAppend(XorOnly, MIX_COLS_INSTR_0 + MIX_COLS_INSTR_1 + MIX_COLS_INSTR_2 + MIX_COLS_INSTR_3 + MIX_COLS_INSTR_4 + MIX_COLS_INSTR_5, MIX_COLS_GATES_0 + MIX_COLS_GATES_1 + MIX_COLS_GATES_2 + MIX_COLS_GATES_3 + MIX_COLS_GATES_4 + MIX_COLS_GATES_5, MIX_COLS_INSTR_6, MIX_COLS_GATES_6);
    MixColsSpelled7();
    SpelledAppend(XorOnly, MIX_COLS_INSTR_0 + MIX_COLS_INSTR_1 + MIX_COLS_INSTR_2 + MIX_COLS_INSTR_3 + MIX_COLS_INSTR_4 + MIX_COLS_INSTR_5 + MIX_COLS_INSTR_6, MIX_COLS_GATES_0 + MIX_COLS_GATES_1 + MIX_COLS_GATES_2 + MIX_COLS_GATES_3 + MIX_COLS_GATES_4 + MIX_COLS_GATES_5 + MIX_COLS_GATES_6, MIX_COLS_INSTR_7, MIX_COLS_GATES_7);
    MixColsSpelled8();
    SpelledAppend(XorOnly, MIX_COLS_INSTR_0 + MIX_COLS_INSTR_1 + MIX_COLS_INSTR_2 + MIX_COLS_INSTR_3 + MIX_COLS_INSTR_4 + MIX_COLS_INSTR_5 + MIX_COLS_INSTR_6 + MIX_COLS_INSTR_7, MIX_COLS_GATES_0 + MIX_COLS_GATES_1 + MIX_COLS_GATES_2 + MIX_COLS_GATES_3 + MIX_COLS_GATES_4 + MIX_COLS_GATES_5 + MIX_COLS_GATES_6 + MIX_COLS_GATES_7, MIX_COLS_INSTR_8, MIX_COLS_GATES_8);
    MixColsSpelled9();
    SpelledAppend(XorOnly, MIX_COLS_INSTR_0 + MIX_COLS_INSTR_1 + MIX_COLS_INSTR_2 + MIX_COLS_INSTR_3 + MIX_COLS_INSTR_4 + MIX_COLS_INSTR_5 + MIX_COLS_INSTR_6 + MIX_COLS_INSTR_7 + MIX_COLS_INSTR_8, MIX_COLS_GATES_0 + MIX_COLS_GATES_1 + MIX_COLS_GATES_2 + MIX_COLS_GATES_3 + MIX_COLS_GATES_4 + MIX_COLS_GATES_5 + MIX_COLS_GATES_6 + MIX_COLS_GATES_7 + MIX_COLS_GATES_8, MIX_COLS_INSTR_9, MIX_COLS_GATES_9);
    MixColsSpelled10();
    SpelledAppend(XorOnly, MIX_COLS_INSTR_0 + MIX_COLS_INSTR_1 + MIX_COLS_INSTR_2 + MIX_COLS_INSTR_3 + MIX_COLS_INSTR_4 + MIX_COLS_INSTR_5 + MIX_COLS_INSTR_6 + MIX_COLS_INSTR_7 + MIX_COLS_INSTR_8 + MIX_COLS_INSTR_9, MIX_COLS_GATES_0 + MIX_COLS_GATES_1 + MIX_COLS_GATES_2 + MIX_COLS_GATES_3 + MIX_COLS_GATES_4 + MIX_COLS_GATES_5 + MIX_COLS_GATES_6 + MIX_COLS_GATES_7 + MIX_COLS_GATES_8 + MIX_COLS_GATES_9, MIX_COLS_INSTR_10, MIX_COLS_GATES_10);
    MixColsSpelled11();
    SpelledAppend(XorOnly, MIX_COLS_INSTR_0 + MIX_COLS_INSTR_1 + MIX_COLS_INSTR_2 + MIX_COLS_INSTR_3 + MIX_COLS_INSTR_4 + MIX_COLS_INSTR_5 + MIX_COLS_INSTR_6 + MIX_COLS_INSTR_7 + MIX_COLS_INSTR_8 + MIX_COLS_INSTR_9 + MIX_COLS_INSTR_10, MIX_COLS_GATES_0 + MIX_COLS_GATES_1 + MIX_COLS_GATES_2 + MIX_COLS_GATES_3 + MIX_COLS_GATES_4 + MIX_COLS_GATES_5 + MIX_COLS_GATES_6 + MIX_COLS_GATES_7 + MIX_COLS_GATES_8 + MIX_COLS_GATES_9 + MIX_COLS_GATES_10, MIX_COLS_INSTR_11, MIX_COLS_GATES_11);
  }

  /** Interpreting the instruction text runs the gates it spells. */
  lemma {:induction false} MixColsText<V>(sk: Engine<V>, m: map<string, V>)
    ensures Exec(sk, XorOnly, MIX_COLS_INSTR, 0, m) == Run(sk, MIX_COLS_GATES, 0, m)
  {
    MixColsSpelledAll();
    ExecText(sk, XorOnly, MIX_COLS_INSTR, MIX_COLS_GATES, 0, m);
  }

  /** Running the gates from wires holding the inputs leaves each output wire holding its XOR tree. */
  lemma {:induction false} MixColsGates<V>(sk: Engine<V>, m0: map<string, V>) returns (m': map<string, V>)
    requires "x0" in m0 && "x1" in m0 && "x2" in m0 && "x3" in m0 && "x4" in m0 && "x5" in m0 && "x6" in m0 && "x7" in m0 && "x8" in m0 && "x9" in m0 && "x10" in m0 && "x11" in m0 && "x12" in m0 && "x13" in m0 && "x14" in m0 && "x15" in m0 && "x16" in m0 && "x17" in m0 && "x18" in m0 && "x19" in m0 && "x20" in m0 && "x21" in m0 && "x22" in m0 && "x23" in m0 && "x24" in m0 && "x25" in m0 && "x26" in m0 && "x27" in m0 && "x28" in m0 && "x29" in m0 && "x30" in m0 && "x31" in m0
    ensures Run(sk, MIX_COLS_GATES, 0, m0) == Ok(m') &&
      "y0" in m' && m'["y0"] == sk.xor(sk.xor(m0["x7"], m0["x15"]), sk.xor(m0["x8"], sk.xor(m0["x16"], m0["x24"]))) &&
      "y1" in m' && m'["y1"] == sk.xor(sk.xor(m0["x17"], sk.xor(m0["x8"], sk.xor(m0["x16"], m0["x24"]))), sk.xor(sk.xor(sk.xor(m0["x0"], m0["x8"]), sk.xor(sk.xor(m0["x7"], m0["x15"]), sk.xor(m0["x8"], sk.xor(m0["x16"], m0["x24"])))), sk.xor(m0["x9"], m0["x25"]))) &&
      "y2" in m' && m'["y2"] == sk.xor(sk.xor(m0["x18"], m0["x26"]), sk.xor(m0["x10"], sk.xor(m0["x1"], m0["x9"]))) &&
      "y3" in m' && m'["y3"] == sk.xor(sk.xor(m0["x2"], m0["x10"]), sk.xor(sk.xor(m0["x19"], m0["x27"]), sk.xor(m0["x11"], sk.xor(m0["x7"], m0["x15"])))) &&
      "y4" in m' && m'["y4"] == sk.xor(m0["x12"], sk.xor(m0["x3"], sk.xor(sk.xor(m0["x20"], m0["x28"]), sk.xor(m0["x11"], sk.xor(m0["x7"], m0["x15"]))))) &&
      "y5" in m' && m'["y5"] == sk.xor(sk.xor(m0["x21"], m0["x29"]), sk.xor(m0["x13"], sk.xor(m0["x4"], m0["x12"]))) &&
      "y6" in m' && m'["y6"] == sk.xor(sk.xor(m0["x5"], m0["x13"]), sk.xor(m0["x14"], sk.xor(m0["x22"], m0["x30"]))) &&
      "y7" in m' && m'["y7"] == sk.xor(sk.xor(m0["x23"], m0["x31"]), sk.xor(m0["x15"], sk.xor(m0["x6"], m0["x14"]))) &&
      "y8" in m' && m'["y8"] == sk.xor(sk.xor(m0["x7"], m0["x23"]), sk.xor(sk.xor(m0["x0"], m0["x8"]), sk.xor(sk.xor(m0["x7"], m0["x15"]), sk.xor(m0["x8"], sk.xor(m0["x16"], m0["x24"]))))) &&
      "y9" in m' && m'["y9"] == sk.xor(sk.xor(sk.xor(m0["x7"], m0["x23"]), sk.xor(sk.xor(m0["x0"], m0["x8"]), sk.xor(sk.xor(m0["x7"], m0["x15"]), sk.xor(m0["x8"], sk.xor(m0["x16"], m0["x24"]))))), sk.xor(sk.xor(m0["x17"], m0["x25"]), sk.xor(m0["x1"], sk.xor(m0["x24"], sk.xor(m0["x0"], m0["x8"]))))) &&
      "y10" in m' && m'["y10"] == sk.xor(sk.xor(m0["x26"], sk.xor(m0["x17"], m0["x25"])), sk.xor(sk.xor(m0["x2"], m0["x18"]), sk.xor(m0["x9"], m0["x25"]))) &&
      "y11" in m' && m'["y11"] == sk.xor(sk.xor(sk.xor(m0["x7"], m0["x23"]), sk.xor(m0["x2"], m0["x18"])), sk.xor(sk.xor(m0["x3"], m0["x11"]), sk.xor(sk.xor(m0["x2"], m0["x10"]), sk.xor(sk.xor(m0["x19"], m0["x27"]), sk.xor(m0["x11"], sk.xor(m0["x7"], m0["x15"])))))) &&
      "y12" in m' && m'["y12"] == sk.xor(sk.xor(sk.xor(m0["x20"], m0["x28"]), sk.xor(m0["x11"], sk.xor(m0["x7"], m0["x15"]))), sk.xor(m0["x19"], sk.xor(m0["x4"], sk.xor(m0["x7"], m0["x23"])))) &&
      "y13" in m' && m'["y13"] == sk.xor(sk.xor(m0["x29"], sk.xor(m0["x20"], m0["x28"])), sk.xor(m0["x28"], sk.xor(m0["x12"], sk.xor(m0["x5"], m0["x21"])))) &&
      "y14" in m' && m'["y14"] == sk.xor(sk.xor(sk.xor(m0["x5"], m0["x13"]), sk.xor(m0["x14"], sk.xor(m0["x22"], m0["x30"]))), sk.xor(sk.xor(m0["x6"], m0["x14"]), sk.xor(m0["x5"], m0["x21"]))) &&
      "y15" in m' && m'["y15"] == sk.xor(sk.xor(m0["x14"], sk.xor(m0["x30"], sk.xor(m0["x7"], m0["x23"]))), sk.xor(m0["x31"], sk.xor(m0["x22"], m0["x30"]))) &&
      "y16" in m' && m'["y16"] == sk.xor(sk.xor(m0["x23"], m0["x31"]), sk.xor(m0["x24"], sk.xor(m0["x0"], m0["x8"]))) &&
      "y17" in m' && m'["y17"] == sk.xor(sk.xor(sk.xor(m0["x16"], m0["x24"]), sk.xor(sk.xor(m0["x23"], m0["x31"]), sk.xor(m0["x24"], sk.xor(m0["x0"], m0["x8"])))), sk.xor(sk.xor(m0["x9"], m0["x25"]), sk.xor(m0["x1"], sk.xor(m0["x24"], sk.xor(m0["x0"], m0["x8"]))))) &&
      "y18" in m' && m'["y18"] == sk.xor(sk.xor(m0["x2"], m0["x10"]), sk.xor(m0["x26"], sk.xor(m0["x17"], m0["x25"]))) &&
      "y19" in m' && m'["y19"] == sk.xor(sk.xor(m0["x3"], m0["x11"]), sk.xor(sk.xor(m0["x18"], m0["x26"]), sk.xor(m0["x27"], sk.xor(m0["x23"], m0["x31"])))) &&
      "y20" in m' && m'["y20"] == sk.xor(m0["x28"], sk.xor(m0["x19"], sk.xor(sk.xor(m0["x4"], m0["x12"]), sk.xor(m0["x27"], sk.xor(m0["x23"], m0["x31"]))))) &&
      "y21" in m' && m'["y21"] == sk.xor(sk.xor(m0["x5"], m0["x13"]), sk.xor(m0["x29"], sk.xor(m0["x20"], m0["x28"]))) &&
      "y22" in m' && m'["y22"] == sk.xor(sk.xor(m0["x6"], m0["x14"]), sk.xor(m0["x30"], sk.xor(m0["x21"], m0["x29"]))) &&
      "y23" in m' && m'["y23"] == sk.xor(sk.xor(m0["x7"], m0["x15"]), sk.xor(m0["x31"], sk.xor(m0["x22"], m0["x30"]))) &&
      "y24" in m' && m'["y24"] == sk.xor(sk.xor(m0["x7"], m0["x23"]), sk.xor(sk.xor(m0["x16"], m0["x24"]), sk.xor(sk.xor(m0["x23"], m0["x31"]), sk.xor(m0["x24"], sk.xor(m0["x0"], m0["x8"]))))) &&
      "y25" in m' && m'["y25"] == sk.xor(sk.xor(sk.xor(m0["x7"], m0["x23"]), sk.xor(sk.xor(m0["x16"], m0["x24"]), sk.xor(sk.xor(m0["x23"], m0["x31"]), sk.xor(m0["x24"], sk.xor(m0["x0"], m0["x8"]))))), sk.xor(sk.xor(m0["x1"], m0["x9"]), sk.xor(m0["x17"], sk.xor(m0["x8"], sk.xor(m0["x16"], m0["x24"]))))) &&
      "y26" in m' && m'["y26"] == sk.xor(sk.xor(m0["x10"], sk.xor(m0["x1"], m0["x9"])), sk.xor(sk.xor(m0["x2"], m0["x18"]), sk.xor(m0["x9"], m0["x25"]))) &&
      "y27" in m' && m'["y27"] == sk.xor(sk.xor(sk.xor(m0["x7"], m0["x23"]), sk.xor(m0["x2"], m0["x18"])), sk.xor(sk.xor(m0["x19"], m0["x27"]), sk.xor(sk.xor(m0["x3"], m0["x11"]), sk.xor(sk.xor(m0["x18"], m0["x26"]), sk.xor(m0["x27"], sk.xor(m0["x23"], m0["x31"])))))) &&
      "y28" in m' && m'["y28"] == sk.xor(m0["x20"], sk.xor(sk.xor(m0["x7"], m0["x23"]), sk.xor(m0["x3"], sk.xor(sk.xor(m0["x4"], m0["x12"]), sk.xor(m0["x27"], sk.xor(m0["x23"], m0["x31"])))))) &&
      "y29" in m' && m'["y29"] == sk.xor(sk.xor(m0["x13"], sk.xor(m0["x4"], m0["x12"])), sk.xor(m0["x28"], sk.xor(m0["x12"], sk.xor(m0["x5"], m0["x21"])))) &&
      "y30" in m' && m'["y30"] == sk.xor(sk.xor(m0["x21"], m0["x29"]), sk.xor(m0["x22"], sk.xor(sk.xor(m0["x6"], m0["x14"]), sk.xor(m0["x5"], m0["x21"])))) &&
      "y31" in m' && m'["y31"] == sk.xor(sk.xor(m0["x15"], sk.xor(m0["x6"], m0["x14"])), sk.xor(m0["x14"], sk.xor(m0["x30"], sk.xor(m0["x7"], m0["x23"]))))
  {
    var m1 := MixColsBlock0(sk, m0);
    var m2 := MixColsBlock1(sk, m1);
    var m3 := MixColsBlock2(sk, m2);
    var m4 := MixColsBlock3(sk, m3);
    var m5 := MixColsBlock4(sk, m4);
    var m6 := MixColsBlock5(sk, m5);
    var m7 := MixColsBlock6(sk, m6);
    var m8 := MixColsBlock7(sk, m7);
    var m9 := MixColsBlock8(sk, m8);
    var m10 := MixColsBlock9(sk, m9);
    var m11 := MixColsBlock10(sk, m10);
    var m12 := MixColsBlock11(sk, m11);
    RunAppend(sk, MIX_COLS_GATES_0, MIX_COLS_GATES_1, m0);
    RunAppend(sk, MIX_COLS_GATES_0 + MIX_COLS_GATES_1, MIX_COLS_GATES_2, m0);
    RunAppend(sk, MIX_COLS_GATES_0 + MIX_COLS_GATES_1 + MIX_COLS_GATES_2, MIX_COLS_GATES_3, m0);
    RunAppend(sk, MIX_COLS_GATES_0 + MIX_COLS_GATES_1 + MIX_COLS_GATES_2 + MIX_COLS_GATES_3, MIX_COLS_GATES_4, m0);
    RunAppend(sk, MIX_COLS_GATES_0 + MIX_COLS_GATES_1 + MIX_COLS_GATES_2 + MIX_COLS_GATES_3 + MIX_COLS_GATES_4, MIX_COLS_GATES_5, m0);
    RunAppend(sk, MIX_COLS_GATES_0 + MIX_COLS_GATES_1 + MIX_COLS_GATES_2 + MIX_COLS_GATES_3 + MIX_COLS_GATES_4 + MIX_COLS_GATES_5, MIX_COLS_GATES_6, m0);
    RunAppend(sk, MIX_COLS_GATES_0 + MIX_COLS_GATES_1 + MIX_COLS_GATES_2 + MIX_COLS_GATES_3 + MIX_COLS_GATES_4 + MIX_COLS_GATES_5 + MIX_COLS_GATES_6, MIX_COLS_GATES_7, m0);
    RunAppend(sk, MIX_COLS_GATES_0 + MIX_COLS_GATES_1 + MIX_COLS_GATES_2 + MIX_COLS_GATES_3 + MIX_COLS_GATES_4 + MIX_COLS_GATES_5 + MIX_COLS_GATES_6 + MIX_COLS_GATES_7, MIX_COLS_GATES_8, m0);
    RunAppend(sk, MIX_COLS_GATES_0 + MIX_COLS_GATES_1 + MIX_COLS_GATES_2 + MIX_COLS_GATES_3 + MIX_COLS_GATES_4 + MIX_COLS_GATES_5 + MIX_COLS_GATES_6 + MIX_COLS_GATES_7 + MIX_COLS_GATES_8, MIX_COLS_GATES_9, m0);
    RunAppend(sk, MIX_COLS_GATES_0 + MIX_COLS_GATES_1 + MIX_COLS_GATES_2 + MIX_COLS_GATES_3 + MIX_COLS_GATES_4 + MIX_COLS_GATES_5 + MIX_COLS_GATES_6 + MIX_COLS_GATES_7 + MIX_COLS_GATES_8 + MIX_COLS_GATES_9, MIX_COLS_GATES_10, m0);
    RunAppend(sk, MIX_COLS_GATES_0 + MIX_COLS_GATES_1 + MIX_COLS_GATES_2 + MIX_COLS_GATES_3 + MIX_COLS_GATES_4 + MIX_COLS_GATES_5 + MIX_COLS_GATES_6 + MIX_COLS_GATES_7 + MIX_COLS_GATES_8 + MIX_COLS_GATES_9 + MIX_COLS_GATES_10, MIX_COLS_GATES_11, m0);
    m' := m12;
  }

  /** Output bits 0 to 7: the XOR trees are the straight-line circuit. */
  lemma {:induction false} MixColsTrees0<V>(sk: Engine<V>, inp: seq<V>, m0: map<string, V>, m: map<string, V>)
    requires |inp| == 32 &&
      "x0" in m0 && m0["x0"] == inp[0] &&
      "x1" in m0 && m0["x1"] == inp[1] &&
      "x2" in m0 && m0["x2"] == inp[2] &&
      "x3" in m0 && m0["x3"] == inp[3] &&
      "x4" in m0 && m0["x4"] == inp[4] &&
      "x5" in m0 && m0["x5"] == inp[5] &&
      "x6" in m0 && m0["x6"] == inp[6] &&
      "x7" in m0 && m0["x7"] == inp[7] &&
      "x8" in m0 && m0["x8"] == inp[8] &&
      "x9" in m0 && m0["x9"] == inp[9] &&
      "x10" in m0 && m0["x10"] == inp[10] &&
      "x11" in m0 && m0["x11"] == inp[11] &&
      "x12" in m0 && m0["x12"] == inp[12] &&
      "x13" in m0 && m0["x13"] == inp[13] &&
      "x14" in m0 && m0["x14"] == inp[14] &&
      "x15" in m0 && m0["x15"] == inp[15] &&
      "x16" in m0 && m0["x16"] == inp[16] &&
      "x17" in m0 && m0["x17"] == inp[17] &&
      "x18" in m0 && m0["x18"] == inp[18] &&
      "x19" in m0 && m0["x19"] == inp[19] &&
      "x20" in m0 && m0["x20"] == inp[20] &&
      "x21" in m0 && m0["x21"] == inp[21] &&
      "x22" in m0 && m0["x22"] == inp[22] &&
      "x23" in m0 && m0["x23"] == inp[23] &&
      "x24" in m0 && m0["x24"] == inp[24] &&
      "x25" in m0 && m0["x25"] == inp[25] &&
      "x26" in m0 && m0["x26"] == inp[26] &&
      "x27" in m0 && m0["x27"] == inp[27] &&
      "x28" in m0 && m0["x28"] == inp[28] &&
      "x29" in m0 && m0["x29"] == inp[29] &&
      "x30" in m0 && m0["x30"] == inp[30] &&
      "x31" in m0 && m0["x31"] == inp[31]
    requires "y0" in m && m["y0"] == sk.xor(sk.xor(m0["x7"], m0["x15"]), sk.xor(m0["x8"], sk.xor(m0["x16"], m0["x24"]))) &&
      "y1" in m && m["y1"] == sk.xor(sk.xor(m0["x17"], sk.xor(m0["x8"], sk.xor(m0["x16"], m0["x24"]))), sk.xor(sk.xor(sk.xor(m0["x0"], m0["x8"]), sk.xor(sk.xor(m0["x7"], m0["x15"]), sk.xor(m0["x8"], sk.xor(m0["x16"], m0["x24"])))), sk.xor(m0["x9"], m0["x25"]))) &&
      "y2" in m && m["y2"] == sk.xor(sk.xor(m0["x18"], m0["x26"]), sk.xor(m0["x10"], sk.xor(m0["x1"], m0["x9"]))) &&
      "y3" in m && m["y3"] == sk.xor(sk.xor(m0["x2"], m0["x10"]), sk.xor(sk.xor(m0["x19"], m0["x27"]), sk.xor(m0["x11"], sk.xor(m0["x7"], m0["x15"])))) &&
      "y4" in m && m["y4"] == sk.xor(m0["x12"], sk.xor(m0["x3"], sk.xor(sk.xor(m0["x20"], m0["x28"]), sk.xor(m0["x11"], sk.xor(m0["x7"], m0["x15"]))))) &&
      "y5" in m && m["y5"] == sk.xor(sk.xor(m0["x21"], m0["x29"]), sk.xor(m0["x13"], sk.xor(m0["x4"], m0["x12"]))) &&
      "y6" in m && m["y6"] == sk.xor(sk.xor(m0["x5"], m0["x13"]), sk.xor(m0["x14"], sk.xor(m0["x22"], m0["x30"]))) &&
      "y7" in m && m["y7"] == sk.xor(sk.xor(m0["x23"], m0["x31"]), sk.xor(m0["x15"], sk.xor(m0["x6"], m0["x14"])))
    ensures m["y0"] == MixColsCircuit(sk, inp)[0] &&
      m["y1"] == MixColsCircuit(sk, inp)[1] &&
      m["y2"] == MixColsCircuit(sk, inp)[2] &&
      m["y3"] == MixColsCircuit(sk, inp)[3] &&
      m["y4"] == MixColsCircuit(sk, inp)[4] &&
      m["y5"] == MixColsCircuit(sk, inp)[5] &&
      m["y6"] == MixColsCircuit(sk, inp)[6] &&
      m["y7"] == MixColsCircuit(sk, inp)[7]
  {
    var out := MixColsCircuit(sk, inp);
    assert out[0] == m["y0"];
    assert out[1] == m["y1"];
    assert out[2] == m["y2"];
    assert out[3] == m["y3"];
    assert out[4] == m["y4"];
    assert out[5] == m["y5"];
    assert out[6] == m["y6"];
    assert out[7] == m["y7"];
  }

  /** Output bits 8 to 15: the XOR trees are the straight-line circuit. */
  lemma {:induction false} MixColsTrees1<V>(sk: Engine<V>, inp: seq<V>, m0: map<string, V>, m: map<string, V>)
    requires |inp| == 32 &&
      "x0" in m0 && m0["x0"] == inp[0] &&
      "x1" in m0 && m0["x1"] == inp[1] &&
      "x2" in m0 && m0["x2"] == inp[2] &&
      "x3" in m0 && m0["x3"] == inp[3] &&
      "x4" in m0 && m0["x4"] == inp[4] &&
      "x5" in m0 && m0["x5"] == inp[5] &&
      "x6" in m0 && m0["x6"] == inp[6] &&
      "x7" in m0 && m0["x7"] == inp[7] &&
      "x8" in m0 && m0["x8"] == inp[8] &&
      "x9" in m0 && m0["x9"] == inp[9] &&
      "x10" in m0 && m0["x10"] == inp[10] &&
      "x11" in m0 && m0["x11"] == inp[11] &&
      "x12" in m0 && m0["x12"] == inp[12] &&
      "x13" in m0 && m0["x13"] == inp[13] &&
      "x14" in m0 && m0["x14"] == inp[14] &&
      "x15" in m0 && m0["x15"] == inp[15] &&
      "x16" in m0 && m0["x16"] == inp[16] &&
      "x17" in m0 && m0["x17"] == inp[17] &&
      "x18" in m0 && m0["x18"] == inp[18] &&
      "x19" in m0 && m0["x19"] == inp[19] &&
      "x20" in m0 && m0["x20"] == inp[20] &&
      "x21" in m0 && m0["x21"] == inp[21] &&
      "x22" in m0 && m0["x22"] == inp[22] &&
      "x23" in m0 && m0["x23"] == inp[23] &&
      "x24" in m0 && m0["x24"] == inp[24] &&
      "x25" in m0 && m0["x25"] == inp[25] &&
      "x26" in m0 && m0["x26"] == inp[26] &&
      "x27" in m0 && m0["x27"] == inp[27] &&
      "x28" in m0 && m0["x28"] == inp[28] &&
      "x29" in m0 && m0["x29"] == inp[29] &&
      "x30" in m0 && m0["x30"] == inp[30] &&
      "x31" in m0 && m0["x31"] == inp[31]
    requires "y8" in m && m["y8"] == sk.xor(sk.xor(m0["x7"], m0["x23"]), sk.xor(sk.xor(m0["x0"], m0["x8"]), sk.xor(sk.xor(m0["x7"], m0["x15"]), sk.xor(m0["x8"], sk.xor(m0["x16"], m0["x24"]))))) &&
      "y9" in m && m["y9"] == sk.xor(sk.xor(sk.xor(m0["x7"], m0["x23"]), sk.xor(sk.xor(m0["x0"], m0["x8"]), sk.xor(sk.xor(m0["x7"], m0["x15"]), sk.xor(m0["x8"], sk.xor(m0["x16"], m0["x24"]))))), sk.xor(sk.xor(m0["x17"], m0["x25"]), sk.xor(m0["x1"], sk.xor(m0["x24"], sk.xor(m0["x0"], m0["x8"]))))) &&
      "y10" in m && m["y10"] == sk.xor(sk.xor(m0["x26"], sk.xor(m0["x17"], m0["x25"])), sk.xor(sk.xor(m0["x2"], m0["x18"]), sk.xor(m0["x9"], m0["x25"]))) &&
      "y11" in m && m["y11"] == sk.xor(sk.xor(sk.xor(m0["x7"], m0["x23"]), sk.xor(m0["x2"], m0["x18"])), sk.xor(sk.xor(m0["x3"], m0["x11"]), sk.xor(sk.xor(m0["x2"], m0["x10"]), sk.xor(sk.xor(m0["x19"], m0["x27"]), sk.xor(m0["x11"], sk.xor(m0["x7"], m0["x15"])))))) &&
      "y12" in m && m["y12"] == sk.xor(sk.xor(sk.xor(m0["x20"], m0["x28"]), sk.xor(m0["x11"], sk.xor(m0["x7"], m0["x15"]))), sk.xor(m0["x19"], sk.xor(m0["x4"], sk.xor(m0["x7"], m0["x23"])))) &&
      "y13" in m && m["y13"] == sk.xor(sk.xor(m0["x29"], sk.xor(m0["x20"], m0["x28"])), sk.xor(m0["x28"], sk.xor(m0["x12"], sk.xor(m0["x5"], m0["x21"])))) &&
      "y14" in m && m["y14"] == sk.xor(sk.xor(sk.xor(m0["x5"], m0["x13"]), sk.xor(m0["x14"], sk.xor(m0["x22"], m0["x30"]))), sk.xor(sk.xor(m0["x6"], m0["x14"]), sk.xor(m0["x5"], m0["x21"]))) &&
      "y15" in m && m["y15"] == sk.xor(sk.xor(m0["x14"], sk.xor(m0["x30"], sk.xor(m0["x7"], m0["x23"]))), sk.xor(m0["x31"], sk.xor(m0["x22"], m0["x30"])))
    ensures m["y8"] == MixColsCircuit(sk, inp)[8] &&
      m["y9"] == MixColsCircuit(sk, inp)[9] &&
      m["y10"] == MixColsCircuit(sk, inp)[10] &&
      m["y11"] == MixColsCircuit(sk, inp)[11] &&
      m["y12"] == MixColsCircuit(sk, inp)[12] &&
      m["y13"] == MixColsCircuit(sk, inp)[13] &&
      m["y14"] == MixColsCircuit(sk, inp)[14] &&
      m["y15"] == MixColsCircuit(sk, inp)[15]
  {
    var out := MixColsCircuit(sk, inp);
    assert out[8] == m["y8"];
    assert out[9] == m["y9"];
    assert out[10] == m["y10"];
    assert out[11] == m["y11"];
    assert out[12] == m["y12"];
    assert out[13] == m["y13"];
    assert out[14] == m["y14"];
    assert out[15] == m["y15"];
  }

  /** Output bits 16 to 23: the XOR trees are the straight-line circuit. */
  lemma {:induction false} MixColsTrees2<V>(sk: Engine<V>, inp: seq<V>, m0: map<string, V>, m: map<string, V>)
    requires |inp| == 32 &&
      "x0" in m0 && m0["x0"] == inp[0] &&
      "x1" in m0 && m0["x1"] == inp[1] &&
      "x2" in m0 && m0["x2"] == inp[2] &&
      "x3" in m0 && m0["x3"] == inp[3] &&
      "x4" in m0 && m0["x4"] == inp[4] &&
      "x5" in m0 && m0["x5"] == inp[5] &&
      "x6" in m0 && m0["x6"] == inp[6] &&
      "x7" in m0 && m0["x7"] == inp[7] &&
      "x8" in m0 && m0["x8"] == inp[8] &&
      "x9" in m0 && m0["x9"] == inp[9] &&
      "x10" in m0 && m0["x10"] == inp[10] &&
      "x11" in m0 && m0["x11"] == inp[11] &&
      "x12" in m0 && m0["x12"] == inp[12] &&
      "x13" in m0 && m0["x13"] == inp[13] &&
      "x14" in m0 && m0["x14"] == inp[14] &&
      "x15" in m0 && m0["x15"] == inp[15] &&
      "x16" in m0 && m0["x16"] == inp[16] &&
      "x17" in m0 && m0["x17"] == inp[17] &&
      "x18" in m0 && m0["x18"] == inp[18] &&
      "x19" in m0 && m0["x19"] == inp[19] &&
      "x20" in m0 && m0["x20"] == inp[20] &&
      "x21" in m0 && m0["x21"] == inp[21] &&
      "x22" in m0 && m0["x22"] == inp[22] &&
      "x23" in m0 && m0["x23"] == inp[23] &&
      "x24" in m0 && m0["x24"] == inp[24] &&
      "x25" in m0 && m0["x25"] == inp[25] &&
      "x26" in m0 && m0["x26"] == inp[26] &&
      "x27" in m0 && m0["x27"] == inp[27] &&
      "x28" in m0 && m0["x28"] == inp[28] &&
      "x29" in m0 && m0["x29"] == inp[29] &&
      "x30" in m0 && m0["x30"] == inp[30] &&
      "x31" in m0 && m0["x31"] == inp[31]
    requires "y16" in m && m["y16"] == sk.xor(sk.xor(m0["x23"], m0["x31"]), sk.xor(m0["x24"], sk.xor(m0["x0"], m0["x8"]))) &&
      "y17" in m && m["y17"] == sk.xor(sk.xor(sk.xor(m0["x16"], m0["x24"]), sk.xor(sk.xor(m0["x23"], m0["x31"]), sk.xor(m0["x24"], sk.xor(m0["x0"], m0["x8"])))), sk.xor(sk.xor(m0["x9"], m0["x25"]), sk.xor(m0["x1"], sk.xor(m0["x24"], sk.xor(m0["x0"], m0["x8"]))))) &&
      "y18" in m && m["y18"] == sk.xor(sk.xor(m0["x2"], m0["x10"]), sk.xor(m0["x26"], sk.xor(m0["x17"], m0["x25"]))) &&
      "y19" in m && m["y19"] == sk.xor(sk.xor(m0["x3"], m0["x11"]), sk.xor(sk.xor(m0["x18"], m0["x26"]), sk.xor(m0["x27"], sk.xor(m0["x23"], m0["x31"])))) &&
      "y20" in m && m["y20"] == sk.xor(m0["x28"], sk.xor(m0["x19"], sk.xor(sk.xor(m0["x4"], m0["x12"]), sk.xor(m0["x27"], sk.xor(m0["x23"], m0["x31"]))))) &&
      "y21" in m && m["y21"] == sk.xor(sk.xor(m0["x5"], m0["x13"]), sk.xor(m0["x29"], sk.xor(m0["x20"], m0["x28"]))) &&
      "y22" in m && m["y22"] == sk.xor(sk.xor(m0["x6"], m0["x14"]), sk.xor(m0["x30"], sk.xor(m0["x21"], m0["x29"]))) &&
      "y23" in m && m["y23"] == sk.xor(sk.xor(m0["x7"], m0["x15"]), sk.xor(m0["x31"], sk.xor(m0["x22"], m0["x30"])))
    ensures m["y16"] == MixColsCircuit(sk, inp)[16] &&
      m["y17"] == MixColsCircuit(sk, inp)[17] &&
      m["y18"] == MixColsCircuit(sk, inp)[18] &&
      m["y19"] == MixColsCircuit(sk, inp)[19] &&
      m["y20"] == MixColsCircuit(sk, inp)[20] &&
      m["y21"] == MixColsCircuit(sk, inp)[21] &&
      m["y22"] == MixColsCircuit(sk, inp)[22] &&
      m["y23"] == MixColsCircuit(sk, inp)[23]
  {
    var out := MixColsCircuit(sk, inp);
    assert out[16] == m["y16"];
    assert out[17] == m["y17"];
    assert out[18] == m["y18"];
    assert out[19] == m["y19"];
    assert out[20] == m["y20"];
    assert out[21] == m["y21"];
    assert out[22] == m["y22"];
    assert out[23] == m["y23"];
  }

  /** Output bits 24 to 31: the XOR trees are the straight-line circuit. */
  lemma {:induction false} MixColsTrees3<V>(sk: Engine<V>, inp: seq<V>, m0: map<string, V>, m: map<string, V>)
    requires |inp| == 32 &&
      "x0" in m0 && m0["x0"] == inp[0] &&
      "x1" in m0 && m0["x1"] == inp[1] &&
      "x2" in m0 && m0["x2"] == inp[2] &&
      "x3" in m0 && m0["x3"] == inp[3] &&
      "x4" in m0 && m0["x4"] == inp[4] &&
      "x5" in m0 && m0["x5"] == inp[5] &&
      "x6" in m0 && m0["x6"] == inp[6] &&
      "x7" in m0 && m0["x7"] == inp[7] &&
      "x8" in m0 && m0["x8"] == inp[8] &&
      "x9" in m0 && m0["x9"] == inp[9] &&
      "x10" in m0 && m0["x10"] == inp[10] &&
      "x11" in m0 && m0["x11"] == inp[11] &&
      "x12" in m0 && m0["x12"] == inp[12] &&
      "x13" in m0 && m0["x13"] == inp[13] &&
      "x14" in m0 && m0["x14"] == inp[14] &&
      "x15" in m0 && m0["x15"] == inp[15] &&
      "x16" in m0 && m0["x16"] == inp[16] &&
      "x17" in m0 && m0["x17"] == inp[17] &&
      "x18" in m0 && m0["x18"] == inp[18] &&
      "x19" in m0 && m0["x19"] == inp[19] &&
      "x20" in m0 && m0["x20"] == inp[20] &&
      "x21" in m0 && m0["x21"] == inp[21] &&
      "x22" in m0 && m0["x22"] == inp[22] &&
      "x23" in m0 && m0["x23"] == inp[23] &&
      "x24" in m0 && m0["x24"] == inp[24] &&
      "x25" in m0 && m0["x25"] == inp[25] &&
      "x26" in m0 && m0["x26"] == inp[26] &&
      "x27" in m0 && m0["x27"] == inp[27] &&
      "x28" in m0 && m0["x28"] == inp[28] &&
      "x29" in m0 && m0["x29"] == inp[29] &&
      "x30" in m0 && m0["x30"] == inp[30] &&
      "x31" in m0 && m0["x31"] == inp[31]
    requires "y24" in m && m["y24"] == sk.xor(sk.xor(m0["x7"], m0["x23"]), sk.xor(sk.xor(m0["x16"], m0["x24"]), sk.xor(sk.xor(m0["x23"], m0["x31"]), sk.xor(m0["x24"], sk.xor(m0["x0"], m0["x8"]))))) &&
      "y25" in m && m["y25"] == sk.xor(sk.xor(sk.xor(m0["x7"], m0["x23"]), sk.xor(sk.xor(m0["x16"], m0["x24"]), sk.xor(sk.xor(m0["x23"], m0["x31"]), sk.xor(m0["x24"], sk.xor(m0["x0"], m0["x8"]))))), sk.xor(sk.xor(m0["x1"], m0["x9"]), sk.xor(m0["x17"], sk.xor(m0["x8"], sk.xor(m0["x16"], m0["x24"]))))) &&
      "y26" in m && m["y26"] == sk.xor(sk.xor(m0["x10"], sk.xor(m0["x1"], m0["x9"])), sk.xor(sk.xor(m0["x2"], m0["x18"]), sk.xor(m0["x9"], m0["x25"]))) &&
      "y27" in m && m["y27"] == sk.xor(sk.xor(sk.xor(m0["x7"], m0["x23"]), sk.xor(m0["x2"], m0["x18"])), sk.xor(sk.xor(m0["x19"], m0["x27"]), sk.xor(sk.xor(m0["x3"], m0["x11"]), sk.xor(sk.xor(m0["x18"], m0["x26"]), sk.xor(m0["x27"], sk.xor(m0["x23"], m0["x31"])))))) &&
      "y28" in m && m["y28"] == sk.xor(m0["x20"], sk.xor(sk.xor(m0["x7"], m0["x23"]), sk.xor(m0["x3"], sk.xor(sk.xor(m0["x4"], m0["x12"]), sk.xor(m0["x27"], sk.xor(m0["x23"], m0["x31"])))))) &&
      "y29" in m && m["y29"] == sk.xor(sk.xor(m0["x13"], sk.xor(m0["x4"], m0["x12"])), sk.xor(m0["x28"], sk.xor(m0["x12"], sk.xor(m0["x5"], m0["x21"])))) &&
      "y30" in m && m["y30"] == sk.xor(sk.xor(m0["x21"], m0["x29"]), sk.xor(m0["x22"], sk.xor(sk.xor(m0["x6"], m0["x14"]), sk.xor(m0["x5"], m0["x21"])))) &&
      "y31" in m && m["y31"] == sk.xor(sk.xor(m0["x15"], sk.xor(m0["x6"], m0["x14"])), sk.xor(m0["x14"], sk.xor(m0["x30"], sk.xor(m0["x7"], m0["x23"]))))
    ensures m["y24"] == MixColsCircuit(sk, inp)[24] &&
      m["y25"] == MixColsCircuit(sk, inp)[25] &&
      m["y26"] == MixColsCircuit(sk, inp)[26] &&
      m["y27"] == MixColsCircuit(sk, inp)[27] &&
      m["y28"] == MixColsCircuit(sk, inp)[28] &&
      m["y29"] == MixColsCircuit(sk, inp)[29] &&
      m["y30"] == MixColsCircuit(sk, inp)[30] &&
      m["y31"] == MixColsCircuit(sk, inp)[31]
  {
    var out := MixColsCircuit(sk, inp);
    assert out[24] == m["y24"];
    assert out[25] == m["y25"];
    assert out[26] == m["y26"];
    assert out[27] == m["y27"];
    assert out[28] == m["y28"];
    assert out[29] == m["y29"];
    assert out[30] == m["y30"];
    assert out[31] == m["y31"];
  }

  /**
   * Interpreting the program from wires holding the bits inp[0..31] on
   * x0..x31 runs to the end, and wire y{j} then holds bit j of the
   * straight-line circuit.
   */
  lemma {:induction false} MixColsRuns<V>(sk: Engine<V>, inp: seq<V>, m0: map<string, V>)
    requires |inp| == 32 &&
      "x0" in m0 && m0["x0"] == inp[0] &&
      "x1" in m0 && m0["x1"] == inp[1] &&
      "x2" in m0 && m0["x2"] == inp[2] &&
      "x3" in m0 && m0["x3"] == inp[3] &&
      "x4" in m0 && m0["x4"] == inp[4] &&
      "x5" in m0 && m0["x5"] == inp[5] &&
      "x6" in m0 && m0["x6"] == inp[6] &&
      "x7" in m0 && m0["x7"] == inp[7] &&
      "x8" in m0 && m0["x8"] == inp[8] &&
      "x9" in m0 && m0["x9"] == inp[9] &&
      "x10" in m0 && m0["x10"] == inp[10] &&
      "x11" in m0 && m0["x11"] == inp[11] &&
      "x12" in m0 && m0["x12"] == inp[12] &&
      "x13" in m0 && m0["x13"] == inp[13] &&
      "x14" in m0 && m0["x14"] == inp[14] &&
      "x15" in m0 && m0["x15"] == inp[15] &&
      "x16" in m0 && m0["x16"] == inp[16] &&
      "x17" in m0 && m0["x17"] == inp[17] &&
      "x18" in m0 && m0["x18"] == inp[18] &&
      "x19" in m0 && m0["x19"] == inp[19] &&
      "x20" in m0 && m0["x20"] == inp[20] &&
      "x21" in m0 && m0["x21"] == inp[21] &&
      "x22" in m0 && m0["x22"] == inp[22] &&
      "x23" in m0 && m0["x23"] == inp[23] &&
      "x24" in m0 && m0["x24"] == inp[24] &&
      "x25" in m0 && m0["x25"] == inp[25] &&
      "x26" in m0 && m0["x26"] == inp[26] &&
      "x27" in m0 && m0["x27"] == inp[27] &&
      "x28" in m0 && m0["x28"] == inp[28] &&
      "x29" in m0 && m0["x29"] == inp[29] &&
      "x30" in m0 && m0["x30"] == inp[30] &&
      "x31" in m0 && m0["x31"] == inp[31]
    ensures var r := Exec(sk, XorOnly, MIX_COLS_INSTR, 0, m0);
      r.Ok? &&
      "y0" in r.value && r.value["y0"] == MixColsCircuit(sk, inp)[0] &&
      "y1" in r.value && r.value["y1"] == MixColsCircuit(sk, inp)[1] &&
      "y2" in r.value && r.value["y2"] == MixColsCircuit(sk, inp)[2] &&
      "y3" in r.value && r.value["y3"] == MixColsCircuit(sk, inp)[3] &&
      "y4" in r.value && r.value["y4"] == MixColsCircuit(sk, inp)[4] &&
      "y5" in r.value && r.value["y5"] == MixColsCircuit(sk, inp)[5] &&
      "y6" in r.value && r.value["y6"] == MixColsCircuit(sk, inp)[6] &&
      "y7" in r.value && r.value["y7"] == MixColsCircuit(sk, inp)[7] &&
      "y8" in r.value && r.value["y8"] == MixColsCircuit(sk, inp)[8] &&
      "y9" in r.value && r.value["y9"] == MixColsCircuit(sk, inp)[9] &&
      "y10" in r.value && r.value["y10"] == MixColsCircuit(sk, inp)[10] &&
      "y11" in r.value && r.value["y11"] == MixColsCircuit(sk, inp)[11] &&
      "y12" in r.value && r.value["y12"] == MixColsCircuit(sk, inp)[12] &&
      "y13" in r.value && r.value["y13"] == MixColsCircuit(sk, inp)[13] &&
      "y14" in r.value && r.value["y14"] == MixColsCircuit(sk, inp)[14] &&
      "y15" in r.value && r.value["y15"] == MixColsCircuit(sk, inp)[15] &&
      "y16" in r.value && r.value["y16"] == MixColsCircuit(sk, inp)[16] &&
      "y17" in r.value && r.value["y17"] == MixColsCircuit(sk, inp)[17] &&
      "y18" in r.value && r.value["y18"] == MixColsCircuit(sk, inp)[18] &&
      "y19" in r.value && r.value["y19"] == MixColsCircuit(sk, inp)[19] &&
      "y20" in r.value && r.value["y20"] == MixColsCircuit(sk, inp)[20] &&
      "y21" in r.value && r.value["y21"] == MixColsCircuit(sk, inp)[21] &&
      "y22" in r.value && r.value["y22"] == MixColsCircuit(sk, inp)[22] &&
      "y23" in r.value && r.value["y23"] == MixColsCircuit(sk, inp)[23] &&
      "y24" in r.value && r.value["y24"] == MixColsCircuit(sk, inp)[24] &&
      "y25" in r.value && r.value["y25"] == MixColsCircuit(sk, inp)[25] &&
      "y26" in r.value && r.value["y26"] == MixColsCircuit(sk, inp)[26] &&
      "y27" in r.value && r.value["y27"] == MixColsCircuit(sk, inp)[27] &&
      "y28" in r.value && r.value["y28"] == MixColsCircuit(sk, inp)[28] &&
      "y29" in r.value && r.value["y29"] == MixColsCircuit(sk, inp)[29] &&
      "y30" in r.value && r.value["y30"] == MixColsCircuit(sk, inp)[30] &&
      "y31" in r.value && r.value["y31"] == MixColsCircuit(sk, inp)[31]
  {
    MixColsText(sk, m0);
    var m := MixColsGates(sk, m0);
    MixColsTrees0(sk, inp, m0, m);
    MixColsTrees1(sk, inp, m0, m);
    MixColsTrees2(sk, inp, m0, m);
    MixColsTrees3(sk, inp, m0, m);
  }

  /** Loading sets wires x0 to x7. */
  lemma {:induction false} MixColsLoad0<V>(vals: seq<V>)
    requires |vals| == 32
    ensures var m := Load("x", vals);
      "x0" in m && m["x0"] == vals[0] &&
      "x1" in m && m["x1"] == vals[1] &&
      "x2" in m && m["x2"] == vals[2] &&
      "x3" in m && m["x3"] == vals[3] &&
      "x4" in m && m["x4"] == vals[4] &&
      "x5" in m && m["x5"] == vals[5] &&
      "x6" in m && m["x6"] == vals[6] &&
      "x7" in m && m["x7"] == vals[7]
  {
    LoadHolds("x", vals);
    assert Name("x", 0) == "x0";
    assert Name("x", 1) == "x1";
    assert Name("x", 2) == "x2";
    assert Name("x", 3) == "x3";
    assert Name("x", 4) == "x4";
    assert Name("x", 5) == "x5";
    assert Name("x", 6) == "x6";
    assert Name("x", 7) == "x7";
  }

  /** Loading sets wires x8 to x15. */
  lemma {:induction false} MixColsLoad1<V>(vals: seq<V>)
    requires |vals| == 32
    ensures var m := Load("x", vals);
      "x8" in m && m["x8"] == vals[8] &&
      "x9" in m && m["x9"] == vals[9] &&
      "x10" in m && m["x10"] == vals[10] &&
      "x11" in m && m["x11"] == vals[11] &&
      "x12" in m && m["x12"] == vals[12] &&
      "x13" in m && m["x13"] == vals[13] &&
      "x14" in m && m["x14"] == vals[14] &&
      "x15" in m && m["x15"] == vals[15]
  {
    LoadHolds("x", vals);
    assert Name("x", 8) == "x8";
    assert Name("x", 9) == "x9";
    assert Name("x", 10) == "x10";
    assert Name("x", 11) == "x11";
    assert Name("x", 12) == "x12";
    assert Name("x", 13) == "x13";
    assert Name("x", 14) == "x14";
    assert Name("x", 15) == "x15";
  }

  /** Loading sets wires x16 to x23. */
  lemma {:induction false} MixColsLoad2<V>(vals: seq<V>)
    requires |vals| == 32
    ensures var m := Load("x", vals);
      "x16" in m && m["x16"] == vals[16] &&
      "x17" in m && m["x17"] == vals[17] &&
      "x18" in m && m["x18"] == vals[18] &&
      "x19" in m && m["x19"] == vals[19] &&
      "x20" in m && m["x20"] == vals[20] &&
      "x21" in m && m["x21"] == vals[21] &&
      "x22" in m && m["x22"] == vals[22] &&
      "x23" in m && m["x23"] == vals[23]
  {
    LoadHolds("x", vals);
    assert Name("x", 16) == "x16";
    assert Name("x", 17) == "x17";
    assert Name("x", 18) == "x18";
    assert Name("x", 19) == "x19";
    assert Name("x", 20) == "x20";
    assert Name("x", 21) == "x21";
    assert Name("x", 22) == "x22";
    assert Name("x", 23) == "x23";
  }

  /** Loading sets wires x24 to x31. */
  lemma {:induction false} MixColsLoad3<V>(vals: seq<V>)
    requires |vals| == 32
    ensures var m := Load("x", vals);
      "x24" in m && m["x24"] == vals[24] &&
      "x25" in m && m["x25"] == vals[25] &&
      "x26" in m && m["x26"] == vals[26] &&
      "x27" in m && m["x27"] == vals[27] &&
      "x28" in m && m["x28"] == vals[28] &&
      "x29" in m && m["x29"] == vals[29] &&
      "x30" in m && m["x30"] == vals[30] &&
      "x31" in m && m["x31"] == vals[31]
  {
    LoadHolds("x", vals);
    assert Name("x", 24) == "x24";
    assert Name("x", 25) == "x25";
    assert Name("x", 26) == "x26";
    assert Name("x", 27) == "x27";
    assert Name("x", 28) == "x28";
    assert Name("x", 29) == "x29";
    assert Name("x", 30) == "x30";
    assert Name("x", 31) == "x31";
  }

  /** Loading thirty-two values sets x{j} to value j. */
  lemma {:induction false} MixColsLoad<V>(vals: seq<V>)
    requires |vals| == 32
    ensures var m := Load("x", vals);
      "x0" in m && m["x0"] == vals[0] &&
      "x1" in m && m["x1"] == vals[1] &&
      "x2" in m && m["x2"] == vals[2] &&
      "x3" in m && m["x3"] == vals[3] &&
      "x4" in m && m["x4"] == vals[4] &&
      "x5" in m && m["x5"] == vals[5] &&
      "x6" in m && m["x6"] == vals[6] &&
      "x7" in m && m["x7"] == vals[7] &&
      "x8" in m && m["x8"] == vals[8] &&
      "x9" in m && m["x9"] == vals[9] &&
      "x10" in m && m["x10"] == vals[10] &&
      "x11" in m && m["x11"] == vals[11] &&
      "x12" in m && m["x12"] == vals[12] &&
      "x13" in m && m["x13"] == vals[13] &&
      "x14" in m && m["x14"] == vals[14] &&
      "x15" in m && m["x15"] == vals[15] &&
      "x16" in m && m["x16"] == vals[16] &&
      "x17" in m && m["x17"] == vals[17] &&
      "x18" in m && m["x18"] == vals[18] &&
      "x19" in m && m["x19"] == vals[19] &&
      "x20" in m && m["x20"] == vals[20] &&
      "x21" in m && m["x21"] == vals[21] &&
      "x22" in m && m["x22"] == vals[22] &&
      "x23" in m && m["x23"] == vals[23] &&
      "x24" in m && m["x24"] == vals[24] &&
      "x25" in m && m["x25"] == vals[25] &&
      "x26" in m && m["x26"] == vals[26] &&
      "x27" in m && m["x27"] == vals[27] &&
      "x28" in m && m["x28"] == vals[28] &&
      "x29" in m && m["x29"] == vals[29] &&
      "x30" in m && m["x30"] == vals[30] &&
      "x31" in m && m["x31"] == vals[31]
  {
    MixColsLoad0(vals);
    MixColsLoad1(vals);
    MixColsLoad2(vals);
    MixColsLoad3(vals);
  }

}
