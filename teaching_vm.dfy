/** The five-opcode teaching VM of materials/vm_EX.py: its operations, the
    `VM` that runs them, and the line-per-operation text form that
    `serialize_code` writes and `deserialize_code` reads. */
module TeachingVm {
  import Values
  import opened PyText
  import opened Convert

  datatype OpCode = LoadConst | StoreVar | LoadVar | Add | Sub

  /** The values the teaching programs handle: Python ints and strings. */
  datatype Value = Int(i: int) | Str(s: string)

  datatype Op = Op(opcode: OpCode, args: seq<Value>)

  /** `OpCode.X.name` */
  function Name(op: OpCode): string
  {
    match op
    case LoadConst => "LOAD_CONST"
    case StoreVar => "STORE_VAR"
    case LoadVar => "LOAD_VAR"
    case Add => "ADD"
    case Sub => "SUB"
  }

  /** `OpCode[name]`; None is the KeyError of an unknown name. */
  function FromName(name: string): Values.Option<OpCode>
  {
    match name
    case "LOAD_CONST" => Values.Some(LoadConst)
    case "STORE_VAR" => Values.Some(StoreVar)
    case "LOAD_VAR" => Values.Some(LoadVar)
    case "ADD" => Values.Some(Add)
    case "SUB" => Values.Some(Sub)
    case _ => Values.None
  }

  /** `OpCode[name]` finds exactly the opcode whose name is `name`. */
  lemma FromNameIff(name: string, op: OpCode)
    ensures FromName(name) == Values.Some(op) <==> Name(op) == name
  {
  }

  // ---------------------------------------------------------------- text form

  /** An opcode's name is one word that `OpCode[...]` maps back to it. */
  lemma NameFacts(op: OpCode)
    ensures Name(op) != [] && ' ' !in Name(op) && NoLineBreak(Name(op)) && !AllDigits(Name(op))
    ensures FromName(Name(op)) == Values.Some(op)
  {
    var s := Name(op);
    assert forall k :: 0 <= k < |s| ==> 'A' <= s[k] <= 'Z' || s[k] == '_';
    assert !IsDigit(s[0]);
  }

  /** The characters at which `str.splitlines` breaks a line. */
  predicate IsLineBreak(c: char)
  {
    var n := c as int;
    n == 10 || n == 13 || n == 11 || n == 12 || 28 <= n <= 30 || n == 0x85 || n == 0x2028 || n == 0x2029
  }

  predicate NoLineBreak(s: string)
  {
    forall k :: 0 <= k < |s| ==> !IsLineBreak(s[k])
  }

  /** The position of the first line break, or `|s|` when there is none. */
  function FirstBreak(s: string): (i: nat)
    ensures i <= |s| && NoLineBreak(s[..i])
    ensures i < |s| ==> IsLineBreak(s[i])
  {
    if s == [] then 0
    else if IsLineBreak(s[0]) then 0
    else
      var i := 1 + FirstBreak(s[1..]);
      assert s[..i] == [s[0]] + s[1..][..i - 1];
      i
  }

  /** `s.splitlines()`: lines without their ends, `\r\n` counting as one end,
      and no empty line after a final line end. */
  function SplitLines(s: string): (r: seq<string>)
    ensures forall k :: 0 <= k < |r| ==> NoLineBreak(r[k])
    decreases |s|
  {
    if s == [] then []
    else
      var i := FirstBreak(s);
      if i == |s| then [s]
      else
        var j := if s[i] == '\r' && i + 1 < |s| && s[i + 1] == '\n' then i + 2 else i + 1;
        [s[..i]] + SplitLines(s[j..])
  }

  /** `str(a)` for an argument. */
  function Show(v: Value): string
  {
    match v
    case Int(i) => IntToString(i)
    case Str(s) => s
  }

  function ArgWords(args: seq<Value>): (ws: seq<string>)
    ensures |ws| == |args|
  {
    seq(|args|, k requires 0 <= k < |args| => Show(args[k]))
  }

  /** `Op.text()`: the name alone when the joined arguments are empty, else the
      name, one space and the arguments joined with single spaces. */
  function Text(op: Op): string
  {
    var argsStr := Join(ArgWords(op.args), " ");
    if argsStr != "" then Name(op.opcode) + " " + argsStr else Name(op.opcode)
  }

  function Lines(code: seq<Op>): (ls: seq<string>)
    ensures |ls| == |code|
  {
    seq(|code|, k requires 0 <= k < |code| => Text(code[k]))
  }

  /** `serialize_code(code)` */
  function Serialize(code: seq<Op>): string
  {
    Join(Lines(code), "\n")
  }

  /** `arg.isdigit()` on the ASCII digits. */
  predicate AllDigits(w: string)
  {
    |w| >= 1 && forall k :: 0 <= k < |w| ==> IsDigit(w[k])
  }

  /** An all-digit word becomes `int(arg)`, every other word stays a string. */
  function ParseArg(w: string): Value
  {
    if AllDigits(w) then Int(DigitsValue(w)) else Str(w)
  }

  function ParseArgs(words: seq<string>): (args: seq<Value>)
    ensures |args| == |words|
  {
    seq(|words|, k requires 0 <= k < |words| => ParseArg(words[k]))
  }

  /** One line: split on single spaces, the first word names the opcode. */
  function ParseLine(line: string): Values.Option<Op>
  {
    var words := SplitOn(line, ' ');
    match FromName(words[0])
    case None => Values.None
    case Some(opcode) => Values.Some(Op(opcode, ParseArgs(words[1..])))
  }

  predicate AllParse(lines: seq<string>)
  {
    forall k :: 0 <= k < |lines| ==> ParseLine(lines[k]).Some?
  }

  /** The lines read in order; None as soon as one line fails. */
  function ParseLines(lines: seq<string>): (r: Values.Option<seq<Op>>)
    ensures r.Some? <==> AllParse(lines)
    ensures r.Some? ==> (|r.value| == |lines|
      && forall k :: 0 <= k < |lines| ==> ParseLine(lines[k]) == Values.Some(r.value[k]))
  {
    if lines == [] then Values.Some([])
    else match ParseLine(lines[0])
      case None => Values.None
      case Some(op) =>
        match ParseLines(lines[1..])
        case None => Values.None
        case Some(ops) => Values.Some([op] + ops)
  }

  /** The lines parse to exactly `ops` when each line parses to its operation. */
  lemma ParseLinesOf(lines: seq<string>, ops: seq<Op>)
    requires |ops| == |lines|
    requires forall k :: 0 <= k < |lines| ==> ParseLine(lines[k]) == Values.Some(ops[k])
    ensures ParseLines(lines) == Values.Some(ops)
  {
    var r := ParseLines(lines);
    assert AllParse(lines);
    assert forall k :: 0 <= k < |lines| ==> r.value[k] == ops[k];
    assert r.value == ops;
  }

  /** `deserialize_code(text)`; None is the KeyError of an unknown opcode name
      on any line. */
  function Deserialize(text: string): Values.Option<seq<Op>>
  {
    ParseLines(SplitLines(text))
  }

  /** `deserialize_code` with its two loops: over the lines, and over the
      arguments of each line. */
  method DeserializeCode(text: string) returns (r: Values.Option<seq<Op>>)
    ensures r == Deserialize(text)
  {
    var lines := SplitLines(text);
    var ops: seq<Op> := [];
    for i := 0 to |lines|
      invariant |ops| == i
      invariant forall k :: 0 <= k < i ==> ParseLine(lines[k]) == Values.Some(ops[k])
    {
      var args := SplitOn(lines[i], ' ');
      var opcode := FromName(args[0]);
      if opcode.None? {
        assert ParseLine(lines[i]).None?;
        return Values.None;
      }
      var outArgs := ConvertArgs(args[1..]);
      ops := ops + [Op(opcode.value, outArgs)];
    }
    ParseLinesOf(lines, ops);
    r := Values.Some(ops);
  }

  /** The inner loop of `deserialize_code`. */
  method ConvertArgs(words: seq<string>) returns (outArgs: seq<Value>)
    ensures outArgs == ParseArgs(words)
  {
    outArgs := [];
    for i := 0 to |words|
      invariant |outArgs| == i
      invariant forall k :: 0 <= k < i ==> outArgs[k] == ParseArg(words[k])
    {
      var arg := words[i];
      if AllDigits(arg) {
        outArgs := outArgs + [Int(DigitsValue(arg))];
      } else {
        outArgs := outArgs + [Str(arg)];
      }
    }
  }

  /** An argument that survives the text form: a non-negative int, or a
      non-empty string with no space and no line break that is not all digits. */
  predicate Portable(v: Value)
  {
    match v
    case Int(i) => i >= 0
    case Str(s) => s != [] && ' ' !in s && NoLineBreak(s) && !AllDigits(s)
  }

  predicate PortableCode(code: seq<Op>)
  {
    forall k, j :: 0 <= k < |code| && 0 <= j < |code[k].args| ==> Portable(code[k].args[j])
  }

  /** Joining non-empty lines free of line breaks with `\n` and splitting with
      `splitlines` gives back the lines. */
  lemma {:induction false} SplitLinesJoin(lines: seq<string>)
    requires forall k :: 0 <= k < |lines| ==> lines[k] != [] && NoLineBreak(lines[k])
    ensures SplitLines(Join(lines, "\n")) == lines
    decreases |lines|
  {
    if |lines| == 1 {
      assert FirstBreak(lines[0]) == |lines[0]|;
    } else if |lines| > 1 {
      var a, rest := lines[0], Join(lines[1..], "\n");
      var s := Join(lines, "\n");
      assert s == a + "\n" + rest;
      var i := FirstBreak(s);
      assert s[|a|] == '\n';
      assert s[..|a|] == a;
      assert i == |a|;
      assert s[i + 1..] == rest;
      SplitLinesJoin(lines[1..]);
    }
  }

  lemma ShowDigits(n: nat)
    ensures Show(Int(n)) == Digits(n) && AllDigits(Digits(n)) && ' ' !in Digits(n) && NoLineBreak(Digits(n))
    ensures ParseArg(Show(Int(n))) == Int(n)
  {
    DigitsCorrect(n);
    var d := Digits(n);
    assert forall k :: 0 <= k < |d| ==> d[k] != ' ' && !IsLineBreak(d[k]);
  }

  /** A portable argument reads back as itself. */
  lemma ArgRoundTrip(v: Value)
    requires Portable(v)
    ensures Show(v) != [] && ' ' !in Show(v) && NoLineBreak(Show(v))
    ensures ParseArg(Show(v)) == v
  {
    if v.Int? {
      ShowDigits(v.i);
    }
  }

  /** The text of an operation with portable arguments reads back as it. */
  lemma LineRoundTrip(op: Op)
    requires forall j :: 0 <= j < |op.args| ==> Portable(op.args[j])
    ensures Text(op) != [] && NoLineBreak(Text(op))
    ensures ParseLine(Text(op)) == Values.Some(op)
  {
    var name, ws := Name(op.opcode), ArgWords(op.args);
    forall j | 0 <= j < |ws|
      ensures ws[j] != [] && ' ' !in ws[j] && NoLineBreak(ws[j]) && ParseArg(ws[j]) == op.args[j]
    {
      ArgRoundTrip(op.args[j]);
    }
    NameFacts(op.opcode);
    var words := [name] + ws;
    assert forall k :: 0 <= k < |words| ==> ' ' !in words[k] && NoLineBreak(words[k]);
    assert Join(words, " ") == Text(op) by {
      if ws == [] {
      } else {
        assert Join(ws, " ") != "" by { JoinHead(ws, " "); }
        assert words[1..] == ws;
      }
    }
    SplitOnJoin(words, ' ');
    assert words[1..] == ws;
    assert ParseArgs(ws) == op.args;
    JoinNoLineBreak(words);
  }

  /** A join starts with its first piece. */
  lemma JoinHead(parts: seq<string>, sep: string)
    requires |parts| >= 1
    ensures |Join(parts, sep)| >= |parts[0]| && Join(parts, sep)[..|parts[0]|] == parts[0]
  {
  }

  /** Joining words free of line breaks with spaces leaves no line break. */
  lemma {:induction false} JoinNoLineBreak(words: seq<string>)
    requires forall k :: 0 <= k < |words| ==> NoLineBreak(words[k])
    ensures NoLineBreak(Join(words, " "))
    decreases |words|
  {
    if |words| > 1 {
      JoinNoLineBreak(words[1..]);
      var rest := Join(words[1..], " ");
      var s := Join(words, " ");
      assert s == words[0] + " " + rest;
      forall k | 0 <= k < |s|
        ensures !IsLineBreak(s[k])
      {
        if k < |words[0]| {
          assert s[k] == words[0][k];
        } else if k > |words[0]| {
          assert s[k] == rest[k - |words[0]| - 1];
        }
      }
    }
  }

  /** `deserialize_code(serialize_code(code)) == code` for portable arguments. */
  lemma RoundTrip(code: seq<Op>)
    requires PortableCode(code)
    ensures Deserialize(Serialize(code)) == Values.Some(code)
  {
    var lines := Lines(code);
    forall k | 0 <= k < |code|
      ensures lines[k] != [] && NoLineBreak(lines[k]) && ParseLine(lines[k]) == Values.Some(code[k])
    {
      LineRoundTrip(code[k]);
    }
    SplitLinesJoin(lines);
    assert SplitLines(Serialize(code)) == lines;
    ParseLinesOf(lines, code);
  }

  /** A negative int does not survive: its text does not pass `isdigit`, so
      it reads back as a string. */
  lemma NegativeIntReadsAsString(n: int)
    requires n < 0
    ensures ParseArg(Show(Int(n))) == Str(IntToString(n))
  {
    assert Show(Int(n))[0] == '-';
  }

  // ---------------------------------------------------------------- the VM

  datatype Exception = AssertionError | IndexError | TypeError

  datatype Outcome = Ok | Raised(exc: Exception)

  datatype Machine = Machine(stack: seq<Value>, variables: map<Value, Value>)

  datatype Step = Step(next: Machine, outcome: Outcome)

  /** `arg1 + arg2` in Python: ints add, strings concatenate, a mix raises
      TypeError (None). */
  function Plus(arg1: Value, arg2: Value): Values.Option<Value>
  {
    if arg1.Int? && arg2.Int? then Values.Some(Int(arg1.i + arg2.i))
    else if arg1.Str? && arg2.Str? then Values.Some(Str(arg1.s + arg2.s))
    else Values.None
  }

  /** `arg1 - arg2` in Python: only ints subtract. */
  function Minus(arg1: Value, arg2: Value): Values.Option<Value>
  {
    if arg1.Int? && arg2.Int? then Values.Some(Int(arg1.i - arg2.i)) else Values.None
  }

  /** `run_op(op)`.  ADD and SUB pop `arg1` (the top), then `arg2`, with no
      type check of their own; a pop from an empty stack is an IndexError. */
  function Exec(m: Machine, op: Op): Step
  {
    var n := |m.stack|;
    match op.opcode
    case LoadConst =>
      if |op.args| != 1 then Step(m, Raised(AssertionError))
      else Step(m.(stack := m.stack + [op.args[0]]), Ok)
    case Add =>
      if |op.args| != 0 then Step(m, Raised(AssertionError))
      else if n == 0 then Step(m, Raised(IndexError))
      else if n == 1 then Step(m.(stack := []), Raised(IndexError))
      else (match Plus(m.stack[n - 1], m.stack[n - 2])
        case None => Step(m.(stack := m.stack[..n - 2]), Raised(TypeError))
        case Some(v) => Step(m.(stack := m.stack[..n - 2] + [v]), Ok))
    case Sub =>
      if |op.args| != 0 then Step(m, Raised(AssertionError))
      else if n == 0 then Step(m, Raised(IndexError))
      else if n == 1 then Step(m.(stack := []), Raised(IndexError))
      else (match Minus(m.stack[n - 1], m.stack[n - 2])
        case None => Step(m.(stack := m.stack[..n - 2]), Raised(TypeError))
        case Some(v) => Step(m.(stack := m.stack[..n - 2] + [v]), Ok))
    case StoreVar =>
      if |op.args| != 1 then Step(m, Raised(AssertionError))
      else if n == 0 then Step(m, Raised(IndexError))
      else Step(Machine(m.stack[..n - 1], m.variables[op.args[0] := m.stack[n - 1]]), Ok)
    case LoadVar =>
      if |op.args| != 1 then Step(m, Raised(AssertionError))
      else if op.args[0] !in m.variables then Step(m, Raised(AssertionError))
      else Step(m.(stack := m.stack + [m.variables[op.args[0]]]), Ok)
  }

  /** `run_code(code)`: the operations in order, stopping at the first exception. */
  function Run(m: Machine, code: seq<Op>): Step
    decreases |code|
  {
    if code == [] then Step(m, Ok)
    else
      var st := Exec(m, code[0]);
      if st.outcome.Raised? then st else Run(st.next, code[1..])
  }

  class VM {
    var stack: seq<Value>
    var variables: map<Value, Value>

    function State(): Machine
      reads this
    {
      Machine(stack, variables)
    }

    constructor ()
      ensures State() == Machine([], map[])
    {
      stack := [];
      variables := map[];
    }

    /** `stack.pop()`; None is the IndexError of an empty stack. */
    method Pop() returns (r: Values.Option<Value>)
      modifies this
      ensures old(stack) == [] ==> r.None? && stack == []
      ensures old(stack) != [] ==> r == Values.Some(old(stack)[|old(stack)| - 1]) && stack + [r.value] == old(stack)
      ensures variables == old(variables)
    {
      if stack == [] {
        return Values.None;
      }
      r := Values.Some(stack[|stack| - 1]);
      stack := stack[..|stack| - 1];
    }

    /** `run_op(op)` */
    method RunOp(op: Op) returns (outcome: Outcome)
      modifies this
      ensures Step(State(), outcome) == Exec(old(State()), op)
    {
      match op.opcode {
        case LoadConst =>
          if |op.args| != 1 {
            return Raised(AssertionError);
          }
          stack := stack + [op.args[0]];
        case Add =>
          outcome := Binary(op);
          return;
        case Sub =>
          outcome := Binary(op);
          return;
        case StoreVar =>
          if |op.args| != 1 {
            return Raised(AssertionError);
          }
          var value := Pop();
          if value.None? {
            return Raised(IndexError);
          }
          variables := variables[op.args[0] := value.value];
        case LoadVar =>
          if |op.args| != 1 {
            return Raised(AssertionError);
          }
          if op.args[0] !in variables {
            return Raised(AssertionError);
          }
          stack := stack + [variables[op.args[0]]];
      }
      outcome := Ok;
    }

    /** ADD and SUB: two pops, then the Python operator on `arg1` and `arg2`. */
    method Binary(op: Op) returns (outcome: Outcome)
      requires op.opcode.Add? || op.opcode.Sub?
      modifies this
      ensures Step(State(), outcome) == Exec(old(State()), op)
    {
      if |op.args| != 0 {
        return Raised(AssertionError);
      }
      var arg1 := Pop();
      if arg1.None? {
        return Raised(IndexError);
      }
      var arg2 := Pop();
      if arg2.None? {
        return Raised(IndexError);
      }
      var v := if op.opcode.Add? then Plus(arg1.value, arg2.value) else Minus(arg1.value, arg2.value);
      if v.None? {
        return Raised(TypeError);
      }
      stack := stack + [v.value];
      outcome := Ok;
    }

    /** `run_code(code)`, returning the stack and variables when no operation
        raises. */
    method RunCode(code: seq<Op>) returns (outcome: Outcome, finalStack: seq<Value>, finalVariables: map<Value, Value>)
      modifies this
      ensures Step(State(), outcome) == Run(old(State()), code)
      ensures outcome.Ok? ==> finalStack == stack && finalVariables == variables
    {
      for i := 0 to |code|
        invariant Run(State(), code[i..]) == Run(old(State()), code)
      {
        assert code[i..][1..] == code[i + 1..];
        outcome := RunOp(code[i]);
        if outcome.Raised? {
          return outcome, stack, variables;
        }
      }
      assert code[|code|..] == [];
      return Ok, stack, variables;
    }
  }

  // ---------------------------------------------------------------- facts

  /** How much each operation that goes through changes the stack's length. */
  function Delta(op: OpCode): int
  {
    match op
    case LoadConst => 1
    case LoadVar => 1
    case StoreVar => -1
    case Add => -1
    case Sub => -1
  }

  lemma StackDelta(m: Machine, op: Op)
    ensures Exec(m, op).outcome.Ok? ==> |Exec(m, op).next.stack| == |m.stack| + Delta(op.opcode)
    ensures Exec(m, op).outcome.Ok? && (op.opcode.LoadConst? || op.opcode.LoadVar?)
      ==> Exec(m, op).next.stack[..|m.stack|] == m.stack && Exec(m, op).next.variables == m.variables
  {
  }

  /** LOAD_CONST pushes exactly its argument; LOAD_VAR pushes the variable's
      value and fails, changing nothing, on an undefined name. */
  lemma Loads(m: Machine, v: Value)
    ensures Exec(m, Op(LoadConst, [v])) == Step(m.(stack := m.stack + [v]), Ok)
    ensures v !in m.variables ==> Exec(m, Op(LoadVar, [v])) == Step(m, Raised(AssertionError))
    ensures v in m.variables ==> Exec(m, Op(LoadVar, [v])) == Step(m.(stack := m.stack + [m.variables[v]]), Ok)
  {
  }

  /** STORE_VAR then LOAD_VAR of the same name leaves the stack as it was and
      the name bound to the old top. */
  lemma StoreThenLoad(m: Machine, name: Value)
    requires m.stack != []
    ensures Run(m, [Op(StoreVar, [name]), Op(LoadVar, [name])])
      == Step(m.(variables := m.variables[name := m.stack[|m.stack| - 1]]), Ok)
  {
    var n := |m.stack|;
    var vars := m.variables[name := m.stack[n - 1]];
    var mid := Machine(m.stack[..n - 1], vars);
    StoreStep(m, name);
    RunTwo(m, Op(StoreVar, [name]), Op(LoadVar, [name]));
    LoadStep(mid, name);
    assert vars[name] == m.stack[n - 1];
    InitLast(m.stack);
  }

  /** STORE_VAR pops the top into the variable. */
  lemma StoreStep(m: Machine, name: Value)
    requires m.stack != []
    ensures Exec(m, Op(StoreVar, [name]))
      == Step(Machine(m.stack[..|m.stack| - 1], m.variables[name := m.stack[|m.stack| - 1]]), Ok)
  {
  }

  /** LOAD_VAR of a bound name pushes its value. */
  lemma LoadStep(m: Machine, name: Value)
    requires name in m.variables
    ensures Exec(m, Op(LoadVar, [name])) == Step(m.(stack := m.stack + [m.variables[name]]), Ok)
  {
  }

  /** A non-empty sequence is its front followed by its last element. */
  lemma InitLast<T>(s: seq<T>)
    requires s != []
    ensures s[..|s| - 1] + [s[|s| - 1]] == s
  {
  }

  /** With `a` on top of `b`, ADD leaves `a + b` and SUB leaves `a - b`. */
  lemma IntOperandOrder(m: Machine, rest: seq<Value>, a: int, b: int)
    requires m.stack == rest + [Int(b), Int(a)]
    ensures Exec(m, Op(Add, [])) == Step(m.(stack := rest + [Int(a + b)]), Ok)
    ensures Exec(m, Op(Sub, [])) == Step(m.(stack := rest + [Int(a - b)]), Ok)
  {
    assert m.stack[..|m.stack| - 2] == rest;
  }

  /** ADD of two strings puts the top one first. */
  lemma StringConcatOrder(m: Machine, rest: seq<Value>, a: string, b: string)
    requires m.stack == rest + [Str(b), Str(a)]
    ensures Exec(m, Op(Add, [])) == Step(m.(stack := rest + [Str(a + b)]), Ok)
  {
    assert m.stack[..|m.stack| - 2] == rest;
  }

  /** Both operands are gone when ADD or SUB fails on their types. */
  lemma MismatchPopsBoth(m: Machine, rest: seq<Value>, a: Value, b: Value, opcode: OpCode)
    requires m.stack == rest + [b, a] && (opcode.Add? || opcode.Sub?)
    requires a.Int? != b.Int? || (opcode.Sub? && a.Str?)
    ensures Exec(m, Op(opcode, [])) == Step(m.(stack := rest), Raised(TypeError))
  {
    assert m.stack[..|m.stack| - 2] == rest;
  }

  /** Running `p + q` runs `p`, then `q` from where `p` ended, unless `p` raised. */
  lemma {:induction false} RunAppend(m: Machine, p: seq<Op>, q: seq<Op>)
    ensures Run(m, p + q)
      == (var st := Run(m, p); if st.outcome.Raised? then st else Run(st.next, q))
    decreases |p|
  {
    if p == [] {
      assert p + q == q;
    } else {
      assert (p + q)[0] == p[0];
      assert (p + q)[1..] == p[1..] + q;
      var st := Exec(m, p[0]);
      if st.outcome.Ok? {
        RunAppend(st.next, p[1..], q);
      }
    }
  }

  /** The program of the module's `__main__`: a = 10; b = 20; c = b - a. */
  function Demo(): seq<Op>
  {
    [Op(LoadConst, [Int(10)]), Op(StoreVar, [Str("a")]),
     Op(LoadConst, [Int(20)]), Op(StoreVar, [Str("b")]),
     Op(LoadVar, [Str("a")]), Op(LoadVar, [Str("b")]), Op(Sub, []),
     Op(StoreVar, [Str("c")])]
  }

  /** The demo survives its text form. */
  lemma DemoRoundTrip()
    ensures Deserialize(Serialize(Demo())) == Values.Some(Demo())
  {
    assert !IsDigit("a"[0]) && !IsDigit("b"[0]) && !IsDigit("c"[0]);
    RoundTrip(Demo());
  }

  /** Two operations run one after the other. */
  lemma RunTwo(m: Machine, a: Op, b: Op)
    requires Exec(m, a).outcome.Ok?
    ensures Run(m, [a, b]) == Exec(Exec(m, a).next, b)
  {
    assert [a, b][1..] == [b];
    assert Run(Exec(m, a).next, [b]) == Exec(Exec(m, a).next, b) by {
      assert [b][1..] == [];
    }
  }

  /** a = 10; b = 20 */
  lemma DemoStores()
    ensures Run(Machine([], map[]), Demo()[..4])
      == Step(Machine([], map[Str("a") := Int(10), Str("b") := Int(20)]), Ok)
  {
    var d := Demo();
    var m0 := Machine([], map[]);
    var m2 := Machine([], map[Str("a") := Int(10)]);
    assert d[..2] == [d[0], d[1]] && d[2..4] == [d[2], d[3]];
    assert Exec(m0, d[0]) == Step(Machine([Int(10)], map[]), Ok);
    RunTwo(m0, d[0], d[1]);
    assert Exec(m2, d[2]) == Step(Machine([Int(20)], m2.variables), Ok);
    RunTwo(m2, d[2], d[3]);
    RunAppend(m0, d[..2], d[2..4]);
    assert d[..2] + d[2..4] == d[..4];
  }

  /** c = b - a, with b = 20 on top of a = 10 */
  lemma DemoSubtracts()
    ensures Run(Machine([], map[Str("a") := Int(10), Str("b") := Int(20)]), Demo()[4..])
      == Step(Machine([], map[Str("a") := Int(10), Str("b") := Int(20), Str("c") := Int(10)]), Ok)
  {
    var d := Demo();
    var m4 := Machine([], map[Str("a") := Int(10), Str("b") := Int(20)]);
    DemoLoads();
    DemoSubStore();
    RunAppend(m4, d[4..6], d[6..]);
    assert d[4..6] + d[6..] == d[4..];
  }

  /** LOAD_VAR a; LOAD_VAR b */
  lemma DemoLoads()
    ensures Run(Machine([], map[Str("a") := Int(10), Str("b") := Int(20)]), Demo()[4..6])
      == Step(Machine([Int(10), Int(20)], map[Str("a") := Int(10), Str("b") := Int(20)]), Ok)
  {
    var d := Demo();
    var m4 := Machine([], map[Str("a") := Int(10), Str("b") := Int(20)]);
    assert d[4..6] == [d[4], d[5]];
    LoadStep(m4, Str("a"));
    RunTwo(m4, d[4], d[5]);
    LoadStep(Machine([Int(10)], m4.variables), Str("b"));
  }

  /** SUB; STORE_VAR c, with b = 20 on top of a = 10 */
  lemma DemoSubStore()
    ensures Run(Machine([Int(10), Int(20)], map[Str("a") := Int(10), Str("b") := Int(20)]), Demo()[6..])
      == Step(Machine([], map[Str("a") := Int(10), Str("b") := Int(20), Str("c") := Int(10)]), Ok)
  {
    var d := Demo();
    var m6 := Machine([Int(10), Int(20)], map[Str("a") := Int(10), Str("b") := Int(20)]);
    assert d[6..] == [d[6], d[7]];
    assert m6.stack[..0] == [];
    assert Exec(m6, d[6]) == Step(Machine([Int(10)], m6.variables), Ok);
    RunTwo(m6, d[6], d[7]);
    StoreStep(Machine([Int(10)], m6.variables), Str("c"));
  }

  /** The demo leaves an empty stack and a = 10, b = 20, c = 10. */
  lemma DemoRun()
    ensures Run(Machine([], map[]), Demo())
      == Step(Machine([], map[Str("a") := Int(10), Str("b") := Int(20), Str("c") := Int(10)]), Ok)
  {
    var d := Demo();
    DemoStores();
    DemoSubtracts();
    RunAppend(Machine([], map[]), d[..4], d[4..]);
    assert d[..4] + d[4..] == d;
  }
}
