/** The XVM interpreter (task0/xvm/vm.py, class VM): an operand stack, a
    variable map, two parallel save-stacks for calls, an instruction pointer and
    the name of the running function.  `Exec` says what one `run_op` does to a
    snapshot of that state; the class `VM` does it in place. */
module Interpreter {
  import opened Values

  /** The exceptions `run_op` and `run_code` raise.  `MathError` stands for
      ZeroDivisionError, the math domain ValueError and OverflowError;
      `StopIteration` is the breakpoint signal; `AttributeError` is what
      `pop(0)` raises on the str buffer the debugger installs before an
      INPUT_STRING. */
  datatype Exception =
    | AssertionError
    | AttributeError
    | IndexError
    | KeyError
    | MathError
    | NotImplementedError
    | StopIteration

  /** How an operation ended.  `inVm` tells whether the innermost Python frame of
      the traceback lies in vm.py.  Only `MyIO.input_fn` (run.py) raises from
      outside it: IndexError on an exhausted list buffer here, and under the
      debugger's step, run and next also AttributeError on an INPUT_STRING
      (`Debug.DrivenOp`). */
  datatype Outcome = Ok | Raised(exc: Exception, inVm: bool)

  /** An entry of `saved_ips`: `[current_frame, ip]` of the caller. */
  datatype SavedIp = SavedIp(frame: Value, ip: int)

  /** A snapshot of a VM together with the buffers of its `MyIO`. */
  datatype Machine = Machine(
    stack: seq<Value>,
    variables: map<Value, Value>,
    frames: seq<map<Value, Value>>,
    savedIps: seq<SavedIp>,
    ip: int,
    currentFrame: Value,
    input: seq<Value>,
    output: seq<Value>)

  /** The state after one operation and how the operation ended. */
  datatype Step = Step(next: Machine, outcome: Outcome)

  /** What every well-formed VM satisfies: the two save-stacks grow and shrink
      together, and no instruction pointer is below -1. */
  ghost predicate Consistent(m: Machine)
  {
    && |m.frames| == |m.savedIps|
    && m.ip >= -1
    && forall i :: 0 <= i < |m.savedIps| ==> m.savedIps[i].ip >= -1
  }

  function Fail(m: Machine, e: Exception): Step
  {
    Step(m, Raised(e, true))
  }

  predicate IsArith(op: OpCode) { op.AddOp? || op.SubOp? || op.MulOp? || op.DivOp? }
  predicate IsCompare(op: OpCode) { op.EqOp? || op.NeqOp? || op.GtOp? || op.LtOp? || op.GeOp? || op.LeOp? }
  predicate IsUnary(op: OpCode) { op.SqrtOp? || op.NegOp? || op.ExpOp? }

  function ArithOf(op: OpCode): ArithOp
    requires IsArith(op)
  {
    match op
    case AddOp => Add
    case SubOp => Sub
    case MulOp => Mul
    case DivOp => Div
  }

  function CmpOf(op: OpCode): CmpOp
    requires IsCompare(op)
  {
    match op
    case EqOp => Eq
    case NeqOp => Neq
    case GtOp => Gt
    case LtOp => Lt
    case GeOp => Ge
    case LeOp => Le
  }

  /** `arg1 OP arg2` for two numbers of the same type; None when Python raises
      (int `//` by zero, or a float division the float model says raises). */
  function Arith(aop: ArithOp, arg1: Value, arg2: Value, fm: FloatModel): Option<Value>
    requires SameNumeric(arg1, arg2)
  {
    if arg1.IntV? then
      match aop
      case Add => Some(IntV(arg1.i + arg2.i))
      case Sub => Some(IntV(arg1.i - arg2.i))
      case Mul => Some(IntV(arg1.i * arg2.i))
      case Div => if arg2.i == 0 then None else Some(IntV(FloorDiv(arg1.i, arg2.i)))
    else
      var f := FBin(aop, arg1.f, arg2.f);
      if aop == Div && fm.raises(f) then None else Some(RealV(f))
  }

  /** `arg1 OP arg2` for a comparison of two numbers of the same type. */
  predicate Compare(c: CmpOp, arg1: Value, arg2: Value, fm: FloatModel)
    requires SameNumeric(arg1, arg2)
  {
    if arg1.IntV? then
      match c
      case Eq => arg1.i == arg2.i
      case Neq => arg1.i != arg2.i
      case Gt => arg1.i > arg2.i
      case Lt => arg1.i < arg2.i
      case Ge => arg1.i >= arg2.i
      case Le => arg1.i <= arg2.i
    else fm.holds(c, arg1.f, arg2.f)
  }

  /** `math.sqrt(arg)`, `-arg`, `math.exp(arg)`; None when Python raises. */
  function Unary(op: OpCode, arg: Value, fm: FloatModel): Option<Value>
    requires IsUnary(op) && arg.IsNumber()
  {
    match op
    case NegOp => Some(if arg.IntV? then IntV(-arg.i) else RealV(FUn(Neg, arg.f)))
    case SqrtOp => var f := FUn(Sqrt, AsFloat(arg)); if fm.raises(f) then None else Some(RealV(f))
    case ExpOp => var f := FUn(Exp, AsFloat(arg)); if fm.raises(f) then None else Some(RealV(f))
  }

  /** LOAD_CONST, LOAD_VAR, STORE_VAR */
  function ExecMemory(m: Machine, op: Instr): Step
    requires op.opcode.LoadConst? || op.opcode.LoadVar? || op.opcode.StoreVar?
  {
    if |op.args| != 1 then Fail(m, AssertionError)
    else if op.opcode.LoadConst? then Step(m.(stack := m.stack + [op.args[0]]), Ok)
    else if op.opcode.LoadVar? then
      if op.args[0] !in m.variables then Fail(m, AssertionError)
      else Step(m.(stack := m.stack + [m.variables[op.args[0]]]), Ok)
    else if m.stack == [] then Fail(m, IndexError)
    else
      Step(m.(stack := m.stack[..|m.stack| - 1],
              variables := m.variables[op.args[0] := m.stack[|m.stack| - 1]]), Ok)
  }

  /** ADD, SUB, MUL, DIV: pop `arg1`, pop `arg2`, check their types, push
      `arg1 OP arg2`. */
  function ExecArith(m: Machine, op: Instr, fm: FloatModel): Step
    requires IsArith(op.opcode)
  {
    var n := |m.stack|;
    if |op.args| != 0 then Fail(m, AssertionError)
    else if n == 0 then Fail(m, IndexError)
    else if n == 1 then Fail(m.(stack := []), IndexError)
    else
      var arg1, arg2, rest := m.stack[n - 1], m.stack[n - 2], m.stack[..n - 2];
      if !SameNumeric(arg1, arg2) then Fail(m.(stack := rest), AssertionError)
      else match Arith(ArithOf(op.opcode), arg1, arg2, fm)
        case None => Fail(m.(stack := rest), MathError)
        case Some(v) => Step(m.(stack := rest + [v]), Ok)
  }

  /** EQ, NEQ, GT, LT, GE, LE: like the arithmetic opcodes, pushing 1 or 0. */
  function ExecCompare(m: Machine, op: Instr, fm: FloatModel): Step
    requires IsCompare(op.opcode)
  {
    var n := |m.stack|;
    if |op.args| != 0 then Fail(m, AssertionError)
    else if n == 0 then Fail(m, IndexError)
    else if n == 1 then Fail(m.(stack := []), IndexError)
    else
      var arg1, arg2, rest := m.stack[n - 1], m.stack[n - 2], m.stack[..n - 2];
      if !SameNumeric(arg1, arg2) then Fail(m.(stack := rest), AssertionError)
      else Step(m.(stack := rest + [IntV(if Compare(CmpOf(op.opcode), arg1, arg2, fm) then 1 else 0)]), Ok)
  }

  /** SQRT, NEG, EXP: pop, check for a number, push the result. */
  function ExecUnary(m: Machine, op: Instr, fm: FloatModel): Step
    requires IsUnary(op.opcode)
  {
    var n := |m.stack|;
    if |op.args| != 0 then Fail(m, AssertionError)
    else if n == 0 then Fail(m, IndexError)
    else
      var arg, rest := m.stack[n - 1], m.stack[..n - 1];
      if !arg.IsNumber() then Fail(m.(stack := rest), AssertionError)
      else match Unary(op.opcode, arg, fm)
        case None => Fail(m.(stack := rest), MathError)
        case Some(v) => Step(m.(stack := rest + [v]), Ok)
  }

  /** PRINT, INPUT_STRING, INPUT_NUMBER.  An input is taken from the buffer
      before its type is checked, so a rejected input is still consumed. */
  function ExecIo(m: Machine, op: Instr): Step
    requires op.opcode.Print? || op.opcode.InputString? || op.opcode.InputNumber?
  {
    if |op.args| != 0 then Fail(m, AssertionError)
    else if op.opcode.Print? then
      if m.stack == [] then Fail(m, IndexError)
      else Step(m.(stack := m.stack[..|m.stack| - 1], output := m.output + [m.stack[|m.stack| - 1]]), Ok)
    else if m.input == [] then Step(m, Raised(IndexError, false))
    else
      var arg, m' := m.input[0], m.(input := m.input[1..]);
      if op.opcode.InputString? && !arg.StrV? then Fail(m', AssertionError)
      else if op.opcode.InputNumber? && !arg.IsNumber() then Fail(m', AssertionError)
      else Step(m'.(stack := m.stack + [arg]), Ok)
  }

  /** JMP and CJMP write the label's index minus one; the driver adds one. */
  function ExecJump(m: Machine, op: Instr, labels: map<string, nat>, fm: FloatModel): Step
    requires op.opcode.Jmp? || op.opcode.Cjmp?
  {
    if |op.args| != 1 then Fail(m, AssertionError)
    else if !op.args[0].StrV? then Fail(m, AssertionError)
    else if op.opcode.Jmp? then
      if op.args[0].s !in labels then Fail(m, KeyError)
      else Step(m.(ip := labels[op.args[0].s] as int - 1), Ok)
    else if m.stack == [] then Fail(m, IndexError)
    else
      var m' := m.(stack := m.stack[..|m.stack| - 1]);
      if !EqualsOne(m.stack[|m.stack| - 1], fm) then Step(m', Ok)
      else if op.args[0].s !in labels then Fail(m', KeyError)
      else Step(m'.(ip := labels[op.args[0].s] as int - 1), Ok)
  }

  /** CALL pops the callee, saves the caller's frame name, ip and variables, and
      starts the callee with no variables at ip -1.  RET restores them. */
  function ExecCall(m: Machine, op: Instr): Step
    requires op.opcode.Call? || op.opcode.Ret?
  {
    if |op.args| != 0 then Fail(m, AssertionError)
    else if op.opcode.Call? then
      if m.stack == [] then Fail(m, IndexError)
      else
        Step(m.(stack := m.stack[..|m.stack| - 1],
                savedIps := m.savedIps + [SavedIp(m.currentFrame, m.ip)],
                currentFrame := m.stack[|m.stack| - 1],
                frames := m.frames + [m.variables],
                variables := map[],
                ip := -1), Ok)
    else if m.savedIps == [] then Fail(m, IndexError)
    else
      var saved := m.savedIps[|m.savedIps| - 1];
      var m' := m.(savedIps := m.savedIps[..|m.savedIps| - 1], currentFrame := saved.frame, ip := saved.ip);
      if m.frames == [] then Fail(m', IndexError)
      else Step(m'.(variables := m.frames[|m.frames| - 1], frames := m.frames[..|m.frames| - 1]), Ok)
  }

  /** `run_op(op, labels)` */
  function Exec(m: Machine, op: Instr, labels: map<string, nat>, fm: FloatModel): Step
  {
    match op.opcode
    case LoadConst => ExecMemory(m, op)
    case LoadVar => ExecMemory(m, op)
    case StoreVar => ExecMemory(m, op)
    case AddOp => ExecArith(m, op, fm)
    case SubOp => ExecArith(m, op, fm)
    case MulOp => ExecArith(m, op, fm)
    case DivOp => ExecArith(m, op, fm)
    case SqrtOp => ExecUnary(m, op, fm)
    case NegOp => ExecUnary(m, op, fm)
    case ExpOp => ExecUnary(m, op, fm)
    case EqOp => ExecCompare(m, op, fm)
    case NeqOp => ExecCompare(m, op, fm)
    case GtOp => ExecCompare(m, op, fm)
    case LtOp => ExecCompare(m, op, fm)
    case GeOp => ExecCompare(m, op, fm)
    case LeOp => ExecCompare(m, op, fm)
    case Print => ExecIo(m, op)
    case InputString => ExecIo(m, op)
    case InputNumber => ExecIo(m, op)
    case Jmp => ExecJump(m, op, labels, fm)
    case Cjmp => ExecJump(m, op, labels, fm)
    case Call => ExecCall(m, op)
    case Ret => ExecCall(m, op)
    case Breakpoint => if |op.args| != 0 then Fail(m, AssertionError) else Fail(m, StopIteration)
    case Label => Fail(m, NotImplementedError)
  }

  /** What `run_code` is given: one function's code, or a map of named functions. */
  datatype Program = Bare(code: Code) | Named(functions: map<string, Code>)

  /** The function table `run_code` looks functions up in: a bare function is
      filed under the frame name the VM is in when the run starts. */
  datatype Table = Table(program: Program, entry: Value)

  /** `code[frame]`, None when the table has no such key (KeyError). */
  function CodeOf(t: Table, frame: Value): Option<Code>
  {
    match t.program
    case Bare(c) => if frame == t.entry then Some(c) else None
    case Named(fs) => if frame.StrV? && frame.s in fs then Some(fs[frame.s]) else None
  }

  /** How `run_code` ends: it returns `(stack, variables)`, lets an exception
      escape, or (in the model only) runs out of fuel. */
  datatype RunResult = Finished(stack: seq<Value>, variables: map<Value, Value>) | Failed(exc: Exception) | OutOfFuel

  /** The loop of `run_code`, executing at most `fuel` instructions. */
  function Loop(m: Machine, t: Table, fuel: nat, fm: FloatModel): (Machine, RunResult)
    decreases fuel
  {
    if CodeOf(t, m.currentFrame).None? then (m, Failed(KeyError))
    else
      var c := CodeOf(t, m.currentFrame).value;
      if m.ip >= |c.instructions| then (m, Finished(m.stack, m.variables))
      else if fuel == 0 then (m, OutOfFuel)
      else match Fetch(c.instructions, m.ip)
        case None => (m, Failed(IndexError))
        case Some(instr) =>
          var s := Exec(m, instr, c.labels, fm);
          if s.outcome.Raised? then (s.next, Failed(s.outcome.exc))
          else Loop(s.next.(ip := s.next.ip + 1), t, fuel - 1, fm)
  }

  /** `run_code(code)`: `list(code.values())[0]` fails on an empty function map. */
  function Run(m: Machine, p: Program, fuel: nat, fm: FloatModel): (Machine, RunResult)
  {
    if p.Named? && p.functions == map[] then (m, Failed(IndexError))
    else Loop(m, Table(p, m.currentFrame), fuel, fm)
  }

  /** The state of a VM just built over an I/O object whose input buffer
      holds `input` and whose output buffer is empty. */
  function Fresh(input: seq<Value>): Machine
  {
    Machine([], map[], [], [], 0, StrV(EntryPoint), input, [])
  }

  /** The input and output buffers of run.py and our_program.py. */
  class MyIO {
    var inBuffer: seq<Value>
    var outBuffer: seq<Value>

    constructor (inBuffer: seq<Value>)
      ensures this.inBuffer == inBuffer && outBuffer == []
    {
      this.inBuffer := inBuffer;
      outBuffer := [];
    }

    /** `print_fn(obj)` */
    method PrintFn(obj: Value)
      modifies this
      ensures outBuffer == old(outBuffer) + [obj] && inBuffer == old(inBuffer)
    {
      outBuffer := outBuffer + [obj];
    }

    /** `input_fn()`: `in_buffer.pop(0)`, None when the buffer is empty (IndexError). */
    method InputFn() returns (r: Option<Value>)
      modifies this
      ensures old(inBuffer) == [] ==> r.None? && inBuffer == []
      ensures old(inBuffer) != [] ==> r == Some(old(inBuffer)[0]) && [r.value] + inBuffer == old(inBuffer)
      ensures outBuffer == old(outBuffer)
    {
      if inBuffer == [] {
        return None;
      }
      r := Some(inBuffer[0]);
      inBuffer := inBuffer[1..];
    }
  }

  class VM {
    var stack: seq<Value>
    var variables: map<Value, Value>
    var frames: seq<map<Value, Value>>
    var ip: int
    var savedIps: seq<SavedIp>
    var currentFrame: Value
    /** `input_fn` and `print_fn` are the methods of this object. */
    const io: MyIO
    const fm: FloatModel

    /** The VM's state with its I/O buffers. */
    function State(): Machine
      reads this, io
    {
      Machine(stack, variables, frames, savedIps, ip, currentFrame, io.inBuffer, io.outBuffer)
    }

    /** `VM(input_fn=io.input_fn, print_fn=io.print_fn)` */
    constructor (io: MyIO, fm: FloatModel)
      ensures this.io == io && this.fm == fm
      ensures State() == Fresh(io.inBuffer).(output := io.outBuffer)
      ensures Consistent(State())
    {
      stack := [];
      variables := map[];
      frames := [];
      ip := 0;
      savedIps := [];
      currentFrame := StrV(EntryPoint);
      this.io := io;
      this.fm := fm;
    }

    /** `run_op(op, labels)` */
    method RunOp(op: Instr, labels: map<string, nat>) returns (outcome: Outcome)
      modifies this, io
      ensures Step(State(), outcome) == Exec(old(State()), op, labels, fm)
    {
      match op.opcode
      case LoadConst => outcome := RunMemory(op);
      case LoadVar => outcome := RunMemory(op);
      case StoreVar => outcome := RunMemory(op);
      case AddOp => outcome := RunArith(op);
      case SubOp => outcome := RunArith(op);
      case MulOp => outcome := RunArith(op);
      case DivOp => outcome := RunArith(op);
      case SqrtOp => outcome := RunUnary(op);
      case NegOp => outcome := RunUnary(op);
      case ExpOp => outcome := RunUnary(op);
      case EqOp => outcome := RunCompare(op);
      case NeqOp => outcome := RunCompare(op);
      case GtOp => outcome := RunCompare(op);
      case LtOp => outcome := RunCompare(op);
      case GeOp => outcome := RunCompare(op);
      case LeOp => outcome := RunCompare(op);
      case Print => outcome := RunIo(op);
      case InputString => outcome := RunIo(op);
      case InputNumber => outcome := RunIo(op);
      case Jmp => outcome := RunJump(op, labels);
      case Cjmp => outcome := RunJump(op, labels);
      case Call => outcome := RunCall(op);
      case Ret => outcome := RunRet(op);
      case Breakpoint =>
        if |op.args| != 0 {
          outcome := Raised(AssertionError, true);
        } else {
          outcome := Raised(StopIteration, true);
        }
      case Label => outcome := Raised(NotImplementedError, true);
    }

    method RunMemory(op: Instr) returns (outcome: Outcome)
      requires op.opcode.LoadConst? || op.opcode.LoadVar? || op.opcode.StoreVar?
      modifies this
      ensures Step(State(), outcome) == ExecMemory(old(State()), op)
    {
      if |op.args| != 1 {
        return Raised(AssertionError, true);
      }
      if op.opcode.LoadConst? {
        stack := stack + [op.args[0]];
      } else if op.opcode.LoadVar? {
        if op.args[0] !in variables {
          return Raised(AssertionError, true);
        }
        stack := stack + [variables[op.args[0]]];
      } else {
        if stack == [] {
          return Raised(IndexError, true);
        }
        var value := stack[|stack| - 1];
        stack := stack[..|stack| - 1];
        variables := variables[op.args[0] := value];
      }
      outcome := Ok;
    }

    method RunArith(op: Instr) returns (outcome: Outcome)
      requires IsArith(op.opcode)
      modifies this
      ensures Step(State(), outcome) == ExecArith(old(State()), op, fm)
    {
      if |op.args| != 0 {
        return Raised(AssertionError, true);
      }
      if stack == [] {
        return Raised(IndexError, true);
      }
      var arg1 := stack[|stack| - 1];
      stack := stack[..|stack| - 1];
      if stack == [] {
        return Raised(IndexError, true);
      }
      var arg2 := stack[|stack| - 1];
      stack := stack[..|stack| - 1];
      if !SameNumeric(arg1, arg2) {
        return Raised(AssertionError, true);
      }
      var result := Arith(ArithOf(op.opcode), arg1, arg2, fm);
      if result.None? {
        return Raised(MathError, true);
      }
      stack := stack + [result.value];
      outcome := Ok;
    }

    method RunCompare(op: Instr) returns (outcome: Outcome)
      requires IsCompare(op.opcode)
      modifies this
      ensures Step(State(), outcome) == ExecCompare(old(State()), op, fm)
    {
      if |op.args| != 0 {
        return Raised(AssertionError, true);
      }
      if stack == [] {
        return Raised(IndexError, true);
      }
      var arg1 := stack[|stack| - 1];
      stack := stack[..|stack| - 1];
      if stack == [] {
        return Raised(IndexError, true);
      }
      var arg2 := stack[|stack| - 1];
      stack := stack[..|stack| - 1];
      if !SameNumeric(arg1, arg2) {
        return Raised(AssertionError, true);
      }
      if Compare(CmpOf(op.opcode), arg1, arg2, fm) {
        stack := stack + [IntV(1)];
      } else {
        stack := stack + [IntV(0)];
      }
      outcome := Ok;
    }

    method RunUnary(op: Instr) returns (outcome: Outcome)
      requires IsUnary(op.opcode)
      modifies this
      ensures Step(State(), outcome) == ExecUnary(old(State()), op, fm)
    {
      if |op.args| != 0 {
        return Raised(AssertionError, true);
      }
      if stack == [] {
        return Raised(IndexError, true);
      }
      var arg := stack[|stack| - 1];
      stack := stack[..|stack| - 1];
      if !arg.IsNumber() {
        return Raised(AssertionError, true);
      }
      var result := Unary(op.opcode, arg, fm);
      if result.None? {
        return Raised(MathError, true);
      }
      stack := stack + [result.value];
      outcome := Ok;
    }

    method RunIo(op: Instr) returns (outcome: Outcome)
      requires op.opcode.Print? || op.opcode.InputString? || op.opcode.InputNumber?
      modifies this, io
      ensures Step(State(), outcome) == ExecIo(old(State()), op)
    {
      if |op.args| != 0 {
        return Raised(AssertionError, true);
      }
      if op.opcode.Print? {
        if stack == [] {
          return Raised(IndexError, true);
        }
        var arg := stack[|stack| - 1];
        stack := stack[..|stack| - 1];
        io.PrintFn(arg);
        return Ok;
      }
      var arg := io.InputFn();
      if arg.None? {
        return Raised(IndexError, false);
      }
      if op.opcode.InputString? && !arg.value.StrV? {
        return Raised(AssertionError, true);
      }
      if op.opcode.InputNumber? && !arg.value.IsNumber() {
        return Raised(AssertionError, true);
      }
      stack := stack + [arg.value];
      outcome := Ok;
    }

    method RunJump(op: Instr, labels: map<string, nat>) returns (outcome: Outcome)
      requires op.opcode.Jmp? || op.opcode.Cjmp?
      modifies this
      ensures Step(State(), outcome) == ExecJump(old(State()), op, labels, fm)
    {
      if |op.args| != 1 || !op.args[0].StrV? {
        return Raised(AssertionError, true);
      }
      var name := op.args[0].s;
      if op.opcode.Cjmp? {
        if stack == [] {
          return Raised(IndexError, true);
        }
        var flag := stack[|stack| - 1];
        stack := stack[..|stack| - 1];
        if !EqualsOne(flag, fm) {
          return Ok;
        }
      }
      if name !in labels {
        return Raised(KeyError, true);
      }
      ip := labels[name] as int - 1;
      outcome := Ok;
    }

    method RunCall(op: Instr) returns (outcome: Outcome)
      requires op.opcode.Call?
      modifies this
      ensures Step(State(), outcome) == ExecCall(old(State()), op)
    {
      if |op.args| != 0 {
        return Raised(AssertionError, true);
      }
      if stack == [] {
        return Raised(IndexError, true);
      }
      var func := stack[|stack| - 1];
      stack := stack[..|stack| - 1];
      savedIps := savedIps + [SavedIp(currentFrame, ip)];
      currentFrame := func;
      frames := frames + [variables];
      variables := map[];
      ip := -1;
      outcome := Ok;
    }

    method RunRet(op: Instr) returns (outcome: Outcome)
      requires op.opcode.Ret?
      modifies this
      ensures Step(State(), outcome) == ExecCall(old(State()), op)
    {
      if |op.args| != 0 {
        return Raised(AssertionError, true);
      }
      if savedIps == [] {
        return Raised(IndexError, true);
      }
      var saved := savedIps[|savedIps| - 1];
      savedIps := savedIps[..|savedIps| - 1];
      currentFrame := saved.frame;
      ip := saved.ip;
      if frames == [] {
        return Raised(IndexError, true);
      }
      variables := frames[|frames| - 1];
      frames := frames[..|frames| - 1];
      outcome := Ok;
    }

    /** `run_code(code)`, executing at most `fuel` instructions. */
    method RunCode(p: Program, fuel: nat) returns (r: RunResult)
      modifies this, io
      ensures (State(), r) == Run(old(State()), p, fuel, fm)
    {
      if p.Named? && p.functions == map[] {
        return Failed(IndexError);
      }
      var t := Table(p, currentFrame);
      var left := fuel;
      while true
        invariant Loop(State(), t, left, fm) == Run(old(State()), p, fuel, fm)
        decreases left
      {
        var code := CodeOf(t, currentFrame);
        if code.None? {
          return Failed(KeyError);
        }
        var c := code.value;
        if ip >= |c.instructions| {
          return Finished(stack, variables);
        }
        if left == 0 {
          return OutOfFuel;
        }
        var instr := Fetch(c.instructions, ip);
        if instr.None? {
          return Failed(IndexError);
        }
        var outcome := RunOp(instr.value, c.labels);
        if outcome.Raised? {
          return Failed(outcome.exc);
        }
        ip := ip + 1;
        left := left - 1;
      }
    }
  }
}
