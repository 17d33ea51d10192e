/**
 * The gate-program interpreter shared by the S-box and MixColumns circuits.
 *
 * A program is a list of instruction strings "t = a OP b" (OP is "^" or
 * "&") or "t = a !".  An instruction is split on single spaces: token 0 is
 * the target wire, tokens 2 and 4 are the operands and token 3 is the
 * operation.  Wires live in a map from wire names to encrypted bits; the
 * interpreter is given the inputs, runs every instruction, and the caller
 * reads the outputs back by name.
 *
 * The evaluation key is a parameter: an `Engine` holds the three boolean
 * gates the key evaluates, and `PLAIN` is their plaintext meaning.
 */
module Circuit {
  /** The three boolean gates an evaluation key offers on encrypted bits of type V. */
  datatype Engine<!V> = Engine(xor: (V, V) -> V, and: (V, V) -> V, not: V -> V)

  /** The plaintext meaning of the gates, on bits modelled as bools. */
  const PLAIN: Engine<bool> := Engine((a: bool, b: bool) => a != b, (a: bool, b: bool) => a && b, (a: bool) => !a)

  /** The operations an interpreter accepts: the S-box one all three, the MixColumns one only XOR. */
  datatype OpSet = XorAndNot | XorOnly

  /**
   * Why a run does not produce its wires.
   * Stuck: an operand is never written; the source's workers poll for it forever.
   * UnknownOp: an operation the interpreter does not accept; the source stops with a panic.
   * Malformed: too few tokens; the source stops with an index panic.
   * Unset: an output wire was never written; the source stops when unwrapping it.
   */
  datatype Fault =
    | Stuck(operand: string)
    | UnknownOp(op: string)
    | Malformed(instr: string)
    | Unset(output: string)

  datatype Result<T> = Ok(value: T) | Err(fault: Fault)

  /** The pieces of `s` between single spaces, as splitting on ' ' yields them. */
  function Split(s: string): (r: seq<string>)
    ensures |r| >= 1
  {
    if |s| == 0 then [""]
    else if s[0] == ' ' then [""] + Split(s[1..])
    else var rest := Split(s[1..]); [[s[0]] + rest[0]] + rest[1..]
  }

  /**
   * One instruction.  The operation (token 3) is read first; for "^" and "&"
   * the first operand is waited for before the second is looked up, and
   * "!" reads only the first operand.  The target is then written.
   */
  function Step<V>(sk: Engine<V>, ops: OpSet, wires: map<string, V>, instr: string): Result<map<string, V>>
  {
    var tokens := Split(instr);
    if |tokens| < 4 then Err(Malformed(instr))
    else
      var target, op := tokens[0], tokens[3];
      if op == "^" || (op == "&" && ops == XorAndNot) then
        if tokens[2] !in wires then Err(Stuck(tokens[2]))
        else if |tokens| < 5 then Err(Malformed(instr))
        else if tokens[4] !in wires then Err(Stuck(tokens[4]))
        else if op == "^" then Ok(wires[target := sk.xor(wires[tokens[2]], wires[tokens[4]])])
        else Ok(wires[target := sk.and(wires[tokens[2]], wires[tokens[4]])])
      else if op == "!" && ops == XorAndNot then
        if tokens[2] !in wires then Err(Stuck(tokens[2]))
        else Ok(wires[target := sk.not(wires[tokens[2]])])
      else Err(UnknownOp(op))
  }

  /** The instructions from index i on, in order, from the given wires. */
  function Exec<V>(sk: Engine<V>, ops: OpSet, prog: seq<string>, i: nat, wires: map<string, V>): Result<map<string, V>>
    requires i <= |prog|
    decreases |prog| - i
  {
    if i == |prog| then Ok(wires)
    else match Step(sk, ops, wires, prog[i])
      case Err(f) => Err(f)
      case Ok(w) => Exec(sk, ops, prog, i + 1, w)
  }

  /**
   * The interpreter loop: takes the instructions one by one, splits each,
   * dispatches on its operation and writes its target.
   */
  method Interpret<V>(sk: Engine<V>, ops: OpSet, prog: seq<string>, inputs: map<string, V>)
      returns (r: Result<map<string, V>>)
    ensures r == Exec(sk, ops, prog, 0, inputs)
  {
    var wires := inputs;
    var pc := 0;
    while pc < |prog|
      invariant pc <= |prog|
      invariant Exec(sk, ops, prog, 0, inputs) == Exec(sk, ops, prog, pc, wires)
    {
      var tokens := Split(prog[pc]);
      if |tokens| < 4 {
        return Err(Malformed(prog[pc]));
      }
      var name, op := tokens[0], tokens[3];
      var value: V;
      if op == "^" || (op == "&" && ops == XorAndNot) {
        if tokens[2] !in wires {
          return Err(Stuck(tokens[2]));
        }
        if |tokens| < 5 {
          return Err(Malformed(prog[pc]));
        }
        if tokens[4] !in wires {
          return Err(Stuck(tokens[4]));
        }
        if op == "^" {
          value := sk.xor(wires[tokens[2]], wires[tokens[4]]);
        } else {
          value := sk.and(wires[tokens[2]], wires[tokens[4]]);
        }
      } else if op == "!" && ops == XorAndNot {
        if tokens[2] !in wires {
          return Err(Stuck(tokens[2]));
        }
        value := sk.not(wires[tokens[2]]);
      } else {
        return Err(UnknownOp(op));
      }
      wires := wires[name := value];
      pc := pc + 1;
    }
    return Ok(wires);
  }

  /** An instruction that runs writes its target wire and leaves every other wire as it was. */
  lemma StepFrame<V>(sk: Engine<V>, ops: OpSet, wires: map<string, V>, instr: string)
    requires Step(sk, ops, wires, instr).Ok?
    ensures var w, target := Step(sk, ops, wires, instr).value, Split(instr)[0];
      w.Keys == wires.Keys + {target} &&
      forall n :: n in wires && n != target ==> w[n] == wires[n]
  {
  }

  /** The decimal digit d. */
  function Digit(d: nat): char
    requires d < 10
  {
    "0123456789"[d]
  }

  /** The decimal numeral of n, as string formatting writes it. */
  function Decimal(n: nat): (s: string)
    ensures |s| >= 1
  {
    if n < 10 then [Digit(n)] else Decimal(n / 10) + [Digit(n % 10)]
  }

  /** The wire name made of a prefix and an index, as in "x12". */
  function Name(prefix: string, i: nat): string
  {
    prefix + Decimal(i)
  }

  /** The wires after inserting Name(prefix, i) := vals[i] for i = 0, 1, ... in turn. */
  function Load<V>(prefix: string, vals: seq<V>): map<string, V>
  {
    if |vals| == 0 then map[]
    else Load(prefix, vals[..|vals| - 1])[Name(prefix, |vals| - 1) := vals[|vals| - 1]]
  }

  /** Different numbers have different decimal numerals. */
  lemma {:induction false} DecimalInjective(n: nat, k: nat)
    requires Decimal(n) == Decimal(k)
    ensures n == k
    decreases n
  {
    if n >= 10 && k >= 10 {
      var a, b := Decimal(n / 10), Decimal(k / 10);
      assert a == Decimal(n)[..|a|] && b == Decimal(k)[..|b|];
      assert |a| == |b|;
      DecimalInjective(n / 10, k / 10);
      assert Digit(n % 10) == Decimal(n)[|a|] == Digit(k % 10);
    }
  }

  /** Different indexes give different wire names. */
  lemma NameInjective(prefix: string, i: nat, j: nat)
    requires Name(prefix, i) == Name(prefix, j)
    ensures i == j
  {
    assert Decimal(i) == Name(prefix, i)[|prefix|..];
    assert Decimal(j) == Name(prefix, j)[|prefix|..];
    DecimalInjective(i, j);
  }

  /** After loading, wire Name(prefix, i) holds vals[i], and no other wire exists. */
  lemma {:induction false} LoadHolds<V>(prefix: string, vals: seq<V>)
    ensures forall i :: 0 <= i < |vals| ==> Name(prefix, i) in Load(prefix, vals) && Load(prefix, vals)[Name(prefix, i)] == vals[i]
    ensures forall n :: n in Load(prefix, vals) ==> exists i :: 0 <= i < |vals| && n == Name(prefix, i)
  {
    if |vals| > 0 {
      var init := vals[..|vals| - 1];
      LoadHolds(prefix, init);
      forall i | 0 <= i < |vals|
        ensures Name(prefix, i) in Load(prefix, vals) && Load(prefix, vals)[Name(prefix, i)] == vals[i]
      {
        if i < |vals| - 1 {
          if Name(prefix, i) == Name(prefix, |vals| - 1) {
            NameInjective(prefix, i, |vals| - 1);
          }
          assert init[i] == vals[i];
        }
      }
      forall n | n in Load(prefix, vals)
        ensures exists i :: 0 <= i < |vals| && n == Name(prefix, i)
      {
        if n != Name(prefix, |vals| - 1) {
          var i :| 0 <= i < |init| && n == Name(prefix, i);
        }
      }
    }
  }

  /** The insertion loop that loads the inputs. */
  method LoadWires<V>(prefix: string, vals: seq<V>) returns (wires: map<string, V>)
    ensures wires == Load(prefix, vals)
  {
    wires := map[];
    for i := 0 to |vals|
      invariant wires == Load(prefix, vals[..i])
    {
      assert vals[..i + 1][..i] == vals[..i];
      wires := wires[Name(prefix, i) := vals[i]];
    }
    assert vals[..|vals|] == vals;
  }

  /**
   * The values of the named output wires, in order; the first name that
   * was never written is reported.
   */
  function Outputs<V>(wires: map<string, V>, names: seq<string>): (r: Result<seq<V>>)
    ensures r.Ok? <==> forall i :: 0 <= i < |names| ==> names[i] in wires
    ensures r.Ok? ==> |r.value| == |names| && forall i :: 0 <= i < |names| ==> r.value[i] == wires[names[i]]
    ensures r.Err? ==> exists i :: 0 <= i < |names| && names[i] !in wires && r.fault == Unset(names[i]) &&
                                   forall j :: 0 <= j < i ==> names[j] in wires
  {
    if |names| == 0 then Ok([])
    else if names[0] !in wires then Err(Unset(names[0]))
    else match Outputs(wires, names[1..])
      case Err(f) => Err(f)
      case Ok(vs) => Ok([wires[names[0]]] + vs)
  }

  /** When every listed wire holds the matching value, reading them back yields those values. */
  lemma OutputsOk<V>(wires: map<string, V>, names: seq<string>, vals: seq<V>)
    requires |names| == |vals|
    requires forall i :: 0 <= i < |names| ==> names[i] in wires && wires[names[i]] == vals[i]
    ensures Outputs(wires, names) == Ok(vals)
  {
    var r := Outputs(wires, names);
    assert r.Ok?;
    assert r.value == vals;
  }

  /** Reading two lists of wires one after the other reads their concatenation. */
  lemma OutputsAppend<V>(wires: map<string, V>, n1: seq<string>, n2: seq<string>)
    requires Outputs(wires, n1).Ok? && Outputs(wires, n2).Ok?
    ensures Outputs(wires, n1 + n2) == Ok(Outputs(wires, n1).value + Outputs(wires, n2).value)
  {
    var v1, v2 := Outputs(wires, n1).value, Outputs(wires, n2).value;
    forall i | 0 <= i < |n1 + n2|
      ensures (n1 + n2)[i] in wires && wires[(n1 + n2)[i]] == (v1 + v2)[i]
    {
      if i >= |n1| {
        assert (n1 + n2)[i] == n2[i - |n1|];
      }
    }
    OutputsOk(wires, n1 + n2, v1 + v2);
  }

  /** The read-out loop: fetches each output wire in turn, failing on the first one never written. */
  method ReadOutputs<V>(wires: map<string, V>, names: seq<string>) returns (r: Result<seq<V>>)
    ensures r == Outputs(wires, names)
  {
    var out: seq<V> := [];
    for i := 0 to |names|
      invariant |out| == i
      invariant forall j :: 0 <= j < i ==> names[j] in wires && out[j] == wires[names[j]]
    {
      if names[i] !in wires {
        return Err(Unset(names[i]));
      }
      out := out + [wires[names[i]]];
    }
    assert Outputs(wires, names).value == out;
    return Ok(out);
  }

  // ---------------------------------------------------------------------
  // Gates: the instructions of a program once split into tokens.

  /** A token: a string with no space in it. */
  predicate NoSpace(s: string)
  {
    forall i :: 0 <= i < |s| ==> s[i] != ' '
  }

  /** The text "t = a OP b" of a binary instruction. */
  function Bin(t: string, a: string, op: string, b: string): string
  {
    t + " = " + a + " " + op + " " + b
  }

  /** The text "t = a !" of a NOT instruction. */
  function Un(t: string, a: string): string
  {
    t + " = " + a + " !"
  }

  /** A parsed instruction. */
  datatype Gate =
    | Xor(t: string, a: string, b: string)
    | And(t: string, a: string, b: string)
    | Not(t: string, a: string)

  /** The instruction text of a gate. */
  function Text(g: Gate): string
  {
    match g
    case Xor(t, a, b) => Bin(t, a, "^", b)
    case And(t, a, b) => Bin(t, a, "&", b)
    case Not(t, a) => Un(t, a)
  }

  /** The wire names of a gate contain no space, so its text splits back into them. */
  predicate Plain(g: Gate)
  {
    NoSpace(g.t) && NoSpace(g.a) && (g.Not? || NoSpace(g.b))
  }

  /** Whether the interpreter with operation set ops accepts the gate. */
  predicate Allowed(ops: OpSet, g: Gate)
  {
    g.Xor? || ops == XorAndNot
  }

  /** Instruction k of `prog` is the text of gate k, which the interpreter accepts. */
  predicate Spelled(prog: seq<string>, gates: seq<Gate>, ops: OpSet, k: int)
  {
    0 <= k < |prog| && k < |gates| && prog[k] == Text(gates[k]) && Plain(gates[k]) && Allowed(ops, gates[k])
  }

  /** The wires a gate reads. */
  function Operands(g: Gate): seq<string>
  {
    if g.Not? then [g.a] else [g.a, g.b]
  }

  /** One gate: wait for its operands, then write its target. */
  function Fire<V>(sk: Engine<V>, g: Gate, wires: map<string, V>): Result<map<string, V>>
  {
    match g
    case Xor(t, a, b) =>
      if a !in wires then Err(Stuck(a)) else if b !in wires then Err(Stuck(b))
      else Ok(wires[t := sk.xor(wires[a], wires[b])])
    case And(t, a, b) =>
      if a !in wires then Err(Stuck(a)) else if b !in wires then Err(Stuck(b))
      else Ok(wires[t := sk.and(wires[a], wires[b])])
    case Not(t, a) =>
      if a !in wires then Err(Stuck(a))
      else Ok(wires[t := sk.not(wires[a])])
  }

  /** The gates from index i on, in order. */
  function Run<V>(sk: Engine<V>, gates: seq<Gate>, i: nat, wires: map<string, V>): Result<map<string, V>>
    requires i <= |gates|
    decreases |gates| - i
  {
    if i == |gates| then Ok(wires)
    else match Fire(sk, gates[i], wires)
      case Err(f) => Err(f)
      case Ok(w) => Run(sk, gates, i + 1, w)
  }

  /** A token followed by a space and the rest splits into the token and the pieces of the rest. */
  lemma {:induction false} SplitPrefix(t: string, rest: string)
    requires NoSpace(t)
    ensures Split(t + " " + rest) == [t] + Split(rest)
  {
    if t == [] {
      assert t + " " + rest == [' '] + rest;
    } else {
      assert (t + " " + rest)[1..] == t[1..] + " " + rest;
      SplitPrefix(t[1..], rest);
      assert [t[0]] + t[1..] == t;
    }
  }

  /** A token splits into itself. */
  lemma {:induction false} SplitWord(t: string)
    requires NoSpace(t)
    ensures Split(t) == [t]
  {
    if t != [] {
      SplitWord(t[1..]);
      assert [t[0]] + t[1..] == t;
    }
  }

  /** "t = a OP b" splits into its five tokens. */
  lemma BinTokens(t: string, a: string, op: string, b: string)
    requires NoSpace(t) && NoSpace(a) && NoSpace(op) && NoSpace(b)
    ensures Split(Bin(t, a, op, b)) == [t, "=", a, op, b]
  {
    assert Bin(t, a, op, b) == t + " " + ("=" + " " + (a + " " + (op + " " + b)));
    SplitPrefix(t, "=" + " " + (a + " " + (op + " " + b)));
    SplitPrefix("=", a + " " + (op + " " + b));
    SplitPrefix(a, op + " " + b);
    SplitPrefix(op, b);
    SplitWord(b);
  }

  /** "t = a !" splits into its four tokens. */
  lemma UnTokens(t: string, a: string)
    requires NoSpace(t) && NoSpace(a)
    ensures Split(Un(t, a)) == [t, "=", a, "!"]
  {
    assert Un(t, a) == t + " " + ("=" + " " + (a + " " + "!"));
    SplitPrefix(t, "=" + " " + (a + " " + "!"));
    SplitPrefix("=", a + " " + "!");
    SplitPrefix(a, "!");
    SplitWord("!");
  }

  /** The text of a gate steps exactly as the gate fires. */
  lemma StepText<V>(sk: Engine<V>, ops: OpSet, wires: map<string, V>, g: Gate)
    requires Plain(g) && Allowed(ops, g)
    ensures Step(sk, ops, wires, Text(g)) == Fire(sk, g, wires)
  {
    match g
    case Xor(t, a, b) => BinTokens(t, a, "^", b);
    case And(t, a, b) => BinTokens(t, a, "&", b);
    case Not(t, a) => UnTokens(t, a);
  }

  /** An operation the interpreter does not accept stops the run, whatever the wires. */
  lemma StepRejects<V>(sk: Engine<V>, ops: OpSet, wires: map<string, V>, t: string, a: string, op: string, b: string)
    requires NoSpace(t) && NoSpace(a) && NoSpace(op) && NoSpace(b)
    requires op != "^" && (op == "&" ==> ops == XorOnly) && (op == "!" ==> ops == XorOnly)
    ensures Step(sk, ops, wires, Bin(t, a, op, b)) == Err(UnknownOp(op))
  {
    BinTokens(t, a, op, b);
  }

  /** The XOR-only interpreter of the MixColumns program stops at a NOT instruction too. */
  lemma NotRejected<V>(sk: Engine<V>, wires: map<string, V>, t: string, a: string)
    requires NoSpace(t) && NoSpace(a)
    ensures Step(sk, XorOnly, wires, Un(t, a)) == Err(UnknownOp("!"))
  {
    UnTokens(t, a);
  }

  /** Interpreting the texts of a list of gates runs the gates. */
  lemma {:induction false} ExecText<V>(sk: Engine<V>, ops: OpSet, prog: seq<string>, gates: seq<Gate>, i: nat, wires: map<string, V>)
    requires |prog| == |gates| && i <= |gates|
    requires forall k :: i <= k < |gates| ==> Spelled(prog, gates, ops, k)
    ensures Exec(sk, ops, prog, i, wires) == Run(sk, gates, i, wires)
    decreases |gates| - i
  {
    if i < |gates| {
      assert Spelled(prog, gates, ops, i);
      StepText(sk, ops, wires, gates[i]);
      match Fire(sk, gates[i], wires)
      case Err(f) => {}
      case Ok(w) => ExecText(sk, ops, prog, gates, i + 1, w);
    }
  }

  /** Spelling is kept when two programs and their gate lists are joined. */
  lemma SpelledAppend(ops: OpSet, p1: seq<string>, g1: seq<Gate>, p2: seq<string>, g2: seq<Gate>)
    requires |p1| == |g1| && |p2| == |g2|
    requires forall k :: 0 <= k < |p1| ==> Spelled(p1, g1, ops, k)
    requires forall k :: 0 <= k < |p2| ==> Spelled(p2, g2, ops, k)
    ensures forall k :: 0 <= k < |p1 + p2| ==> Spelled(p1 + p2, g1 + g2, ops, k)
  {
    forall k | 0 <= k < |p1 + p2|
      ensures Spelled(p1 + p2, g1 + g2, ops, k)
    {
      if k < |p1| {
        assert Spelled(p1, g1, ops, k);
      } else {
        assert Spelled(p2, g2, ops, k - |p1|);
      }
    }
  }

  /** Running the gates of g1 then those of g2 is running g1 + g2. */
  lemma RunAppend<V>(sk: Engine<V>, g1: seq<Gate>, g2: seq<Gate>, wires: map<string, V>)
    ensures Run(sk, g1 + g2, 0, wires) ==
      match Run(sk, g1, 0, wires)
      case Err(f) => Err(f)
      case Ok(w) => Run(sk, g2, 0, w)
  {
    RunAppendFrom(sk, g1, g2, 0, wires);
  }

  /** Running g1 + g2 from index i of g1 is running g1 from i, then g2 from its start. */
  lemma {:induction false} RunAppendFrom<V>(sk: Engine<V>, g1: seq<Gate>, g2: seq<Gate>, i: nat, wires: map<string, V>)
    requires i <= |g1|
    ensures Run(sk, g1 + g2, i, wires) ==
      match Run(sk, g1, i, wires)
      case Err(f) => Err(f)
      case Ok(w) => Run(sk, g2, 0, w)
    decreases |g1| - i
  {
    if i == |g1| {
      RunShift(sk, g1, g2, 0, wires);
    } else {
      assert (g1 + g2)[i] == g1[i];
      match Fire(sk, g1[i], wires)
      case Err(f) => {}
      case Ok(w) => RunAppendFrom(sk, g1, g2, i + 1, w);
    }
  }

  /** Running the tail g2 of g1 + g2 from its index j is running g2 from j. */
  lemma {:induction false} RunShift<V>(sk: Engine<V>, g1: seq<Gate>, g2: seq<Gate>, j: nat, wires: map<string, V>)
    requires j <= |g2|
    ensures Run(sk, g1 + g2, |g1| + j, wires) == Run(sk, g2, j, wires)
    decreases |g2| - j
  {
    if j < |g2| {
      assert (g1 + g2)[|g1| + j] == g2[j];
      match Fire(sk, g2[j], wires)
      case Err(f) => {}
      case Ok(w) => RunShift(sk, g1, g2, j + 1, w);
    }
  }

  /** Running p then q is running p + q: the first fault stops the whole run. */
  lemma {:induction false} ExecAppend<V>(sk: Engine<V>, ops: OpSet, p: seq<string>, q: seq<string>, i: nat, wires: map<string, V>)
    requires i <= |p|
    ensures Exec(sk, ops, p + q, i, wires) ==
      match Exec(sk, ops, p, i, wires)
      case Err(f) => Err(f)
      case Ok(w) => Exec(sk, ops, q, 0, w)
    decreases |p| - i
  {
    if i == |p| {
      ExecShift(sk, ops, p, q, 0, wires);
    } else {
      assert (p + q)[i] == p[i];
      match Step(sk, ops, wires, p[i])
      case Err(f) => {}
      case Ok(w) => ExecAppend(sk, ops, p, q, i + 1, w);
    }
  }

  /** Running the tail q of p + q from its index j is running q from j. */
  lemma {:induction false} ExecShift<V>(sk: Engine<V>, ops: OpSet, p: seq<string>, q: seq<string>, j: nat, wires: map<string, V>)
    requires j <= |q|
    ensures Exec(sk, ops, p + q, |p| + j, wires) == Exec(sk, ops, q, j, wires)
    decreases |q| - j
  {
    if j < |q| {
      assert (p + q)[|p| + j] == q[j];
      match Step(sk, ops, wires, q[j])
      case Err(f) => {}
      case Ok(w) => ExecShift(sk, ops, p, q, j + 1, w);
    }
  }

  /** A gate that fires found its operands among the wires and added its target to them. */
  lemma FireReads<V>(sk: Engine<V>, g: Gate, wires: map<string, V>)
    requires Fire(sk, g, wires).Ok?
    ensures forall o :: o in Operands(g) ==> o in wires
    ensures Fire(sk, g, wires).value.Keys == wires.Keys + {g.t}
  {
  }

  /**
   * A run that reaches the end read every operand either from the wires it
   * started with or from the target of an earlier gate, so its program is in
   * dependency order for those wires; and it ends holding exactly the wires
   * it started with and the targets of its gates.
   */
  lemma {:induction false} RunDefinedBefore<V>(sk: Engine<V>, gates: seq<Gate>, i: nat, wires: map<string, V>)
    requires i <= |gates| && Run(sk, gates, i, wires).Ok?
    ensures forall j, o :: i <= j < |gates| && o in Operands(gates[j]) ==>
      o in wires || exists k :: i <= k < j && gates[k].t == o
    ensures forall n :: n in Run(sk, gates, i, wires).value <==>
      n in wires || exists k :: i <= k < |gates| && gates[k].t == n
    decreases |gates| - i
  {
    if i < |gates| {
      FireReads(sk, gates[i], wires);
      var w := Fire(sk, gates[i], wires).value;
      RunDefinedBefore(sk, gates, i + 1, w);
      forall j, o | i < j < |gates| && o in Operands(gates[j]) && o !in wires
        ensures exists k :: i <= k < j && gates[k].t == o
      {
        if o == gates[i].t {
          assert i <= i < j;
        } else {
          assert o !in w.Keys;
          var k :| i + 1 <= k < j && gates[k].t == o;
        }
      }
      forall n | n in Run(sk, gates, i, wires).value && n !in wires
        ensures exists k :: i <= k < |gates| && gates[k].t == n
      {
        if n != gates[i].t {
          var k :| i + 1 <= k < |gates| && gates[k].t == n;
        }
      }
      forall n | n !in wires && (exists k :: i <= k < |gates| && gates[k].t == n)
        ensures n in Run(sk, gates, i, wires).value
      {
        var k :| i <= k < |gates| && gates[k].t == n;
        if k > i {
          assert i + 1 <= k < |gates| && gates[k].t == n;
        }
      }
    }
  }

  /** Every wire of a loaded map is named with the prefix. */
  lemma LoadPrefix<V>(prefix: string, vals: seq<V>, n: string)
    requires |prefix| > 0 && n in Load(prefix, vals)
    ensures |n| > 0 && n[0] == prefix[0]
  {
    LoadHolds(prefix, vals);
    var i :| 0 <= i < |vals| && n == Name(prefix, i);
  }

  /**
   * A program whose run from loaded inputs reaches the end and sets its
   * output wires is in dependency order: every operand is an input or the
   * target of an earlier gate.  Each output not named like an input is the
   * target of one of its gates.
   */
  lemma LoadedRunInOrder<V>(sk: Engine<V>, gates: seq<Gate>, prefix: string, vals: seq<V>, outputs: seq<string>)
    requires |prefix| > 0
    requires Run(sk, gates, 0, Load(prefix, vals)).Ok?
    requires Outputs(Run(sk, gates, 0, Load(prefix, vals)).value, outputs).Ok?
    requires forall k :: 0 <= k < |outputs| ==> |outputs[k]| > 0 && outputs[k][0] != prefix[0]
    ensures forall j, o :: 0 <= j < |gates| && o in Operands(gates[j]) ==>
      (exists i :: 0 <= i < |vals| && o == Name(prefix, i)) || exists k :: 0 <= k < j && gates[k].t == o
    ensures forall n :: n in outputs ==> exists k :: 0 <= k < |gates| && gates[k].t == n
  {
    var m0 := Load(prefix, vals);
    LoadHolds(prefix, vals);
    RunDefinedBefore(sk, gates, 0, m0);
    forall j, o | 0 <= j < |gates| && o in Operands(gates[j])
      ensures (exists i :: 0 <= i < |vals| && o == Name(prefix, i)) || exists k :: 0 <= k < j && gates[k].t == o
    {
      if o in m0 {
        var i :| 0 <= i < |vals| && o == Name(prefix, i);
      }
    }
    forall n | n in outputs
      ensures exists k :: 0 <= k < |gates| && gates[k].t == n
    {
      if n in m0 {
        LoadPrefix(prefix, vals, n);
      }
    }
  }
}
