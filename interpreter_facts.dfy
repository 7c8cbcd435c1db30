/** What `run_op` and `run_code` (task0/xvm/vm.py) guarantee, proved about the
    `Exec`, `Loop` and `Run` functions the VM methods are verified against. */
module InterpreterFacts {
  import opened Values
  import opened Interpreter

  /** How many values an opcode takes off the stack when it succeeds. */
  function Pops(op: OpCode): nat
  {
    match op
    case LoadConst => 0
    case LoadVar => 0
    case StoreVar => 1
    case Print => 1
    case InputString => 0
    case InputNumber => 0
    case Jmp => 0
    case Cjmp => 1
    case Call => 1
    case Ret => 0
    case Label => 0
    case Breakpoint => 0
    case _ => if IsUnary(op) then 1 else 2
  }

  /** How many values an opcode leaves on the stack when it succeeds. */
  function Pushes(op: OpCode): nat
  {
    match op
    case LoadConst => 1
    case LoadVar => 1
    case InputString => 1
    case InputNumber => 1
    case StoreVar => 0
    case Print => 0
    case Jmp => 0
    case Cjmp => 0
    case Call => 0
    case Ret => 0
    case Label => 0
    case Breakpoint => 0
    case _ => 1
  }

  /** A successful operation pops `Pops` values, leaves the rest of the stack as
      it was, and pushes `Pushes` values: LOAD_CONST and LOAD_VAR grow the stack
      by one, STORE_VAR shrinks it by one, a binary opcode replaces two operands
      by one result. */
  lemma StackEffect(m: Machine, op: Instr, labels: map<string, nat>, fm: FloatModel)
    requires Exec(m, op, labels, fm).outcome == Ok
    ensures |m.stack| >= Pops(op.opcode)
    ensures |Exec(m, op, labels, fm).next.stack| == |m.stack| - Pops(op.opcode) + Pushes(op.opcode)
    ensures Exec(m, op, labels, fm).next.stack[..|m.stack| - Pops(op.opcode)] == m.stack[..|m.stack| - Pops(op.opcode)]
  {
    var o := op.opcode;
    if o.LoadConst? || o.LoadVar? || o.StoreVar? {
      MemoryEffect(m, op);
    } else if IsArith(o) {
      ArithEffect(m, op, fm);
    } else if IsCompare(o) {
      CompareEffect(m, op, fm);
    } else if IsUnary(o) {
      UnaryEffect(m, op, fm);
    } else if o.Print? || o.InputString? || o.InputNumber? {
      IoEffect(m, op);
    } else if o.Jmp? || o.Cjmp? {
      JumpEffect(m, op, labels, fm);
    } else if o.Call? || o.Ret? {
      CallEffect(m, op);
    }
  }

  /** The stack a successful step leaves: `Pops` values gone, the rest as it was, `Pushes` new ones. */
  predicate Effect(m: Machine, o: OpCode, next: Machine)
  {
    && |m.stack| >= Pops(o)
    && |next.stack| == |m.stack| - Pops(o) + Pushes(o)
    && next.stack[..|m.stack| - Pops(o)] == m.stack[..|m.stack| - Pops(o)]
  }

  lemma MemoryEffect(m: Machine, op: Instr)
    requires op.opcode.LoadConst? || op.opcode.LoadVar? || op.opcode.StoreVar?
    requires ExecMemory(m, op).outcome == Ok
    ensures Effect(m, op.opcode, ExecMemory(m, op).next)
  {
    if op.opcode.StoreVar? {
      TakeTake(m.stack, |m.stack| - 1);
    } else {
      var v := ExecMemory(m, op).next.stack[|m.stack|];
      TakeAppend(m.stack, v);
    }
  }

  lemma ArithEffect(m: Machine, op: Instr, fm: FloatModel)
    requires IsArith(op.opcode) && ExecArith(m, op, fm).outcome == Ok
    ensures Effect(m, op.opcode, ExecArith(m, op, fm).next)
  {
    var k := |m.stack| - 2;
    TakePush(m.stack, k, ExecArith(m, op, fm).next.stack[k]);
  }

  lemma CompareEffect(m: Machine, op: Instr, fm: FloatModel)
    requires IsCompare(op.opcode) && ExecCompare(m, op, fm).outcome == Ok
    ensures Effect(m, op.opcode, ExecCompare(m, op, fm).next)
  {
    var k := |m.stack| - 2;
    TakePush(m.stack, k, ExecCompare(m, op, fm).next.stack[k]);
  }

  lemma UnaryEffect(m: Machine, op: Instr, fm: FloatModel)
    requires IsUnary(op.opcode) && ExecUnary(m, op, fm).outcome == Ok
    ensures Effect(m, op.opcode, ExecUnary(m, op, fm).next)
  {
    var k := |m.stack| - 1;
    TakePush(m.stack, k, ExecUnary(m, op, fm).next.stack[k]);
  }

  lemma IoEffect(m: Machine, op: Instr)
    requires op.opcode.Print? || op.opcode.InputString? || op.opcode.InputNumber?
    requires ExecIo(m, op).outcome == Ok
    ensures Effect(m, op.opcode, ExecIo(m, op).next)
  {
    if op.opcode.Print? {
      TakeTake(m.stack, |m.stack| - 1);
    } else {
      TakeAppend(m.stack, ExecIo(m, op).next.stack[|m.stack|]);
    }
  }

  lemma JumpEffect(m: Machine, op: Instr, labels: map<string, nat>, fm: FloatModel)
    requires op.opcode.Jmp? || op.opcode.Cjmp?
    requires ExecJump(m, op, labels, fm).outcome == Ok
    ensures Effect(m, op.opcode, ExecJump(m, op, labels, fm).next)
  {
    if op.opcode.Cjmp? {
      TakeTake(m.stack, |m.stack| - 1);
    }
  }

  lemma CallEffect(m: Machine, op: Instr)
    requires op.opcode.Call? || op.opcode.Ret?
    requires ExecCall(m, op).outcome == Ok
    ensures Effect(m, op.opcode, ExecCall(m, op).next)
  {
    if op.opcode.Call? {
      TakeTake(m.stack, |m.stack| - 1);
    }
  }

  /** Slicing a prefix again to the same length changes nothing. */
  lemma TakeTake<T>(a: seq<T>, k: nat)
    requires k <= |a|
    ensures a[..k][..k] == a[..k]
  {
  }

  /** Pushing onto a prefix keeps the prefix below the new top. */
  lemma TakePush<T>(a: seq<T>, k: nat, x: T)
    requires k <= |a|
    ensures (a[..k] + [x])[..k] == a[..k]
  {
  }

  /** Pushing keeps everything below the new top. */
  lemma TakeAppend<T>(a: seq<T>, x: T)
    ensures (a + [x])[..|a|] == a[..|a|]
  {
  }

  /** Only BREAKPOINT raises StopIteration, and BREAKPOINT and LABEL never succeed. */
  lemma NeverOk(m: Machine, op: Instr, labels: map<string, nat>, fm: FloatModel)
    ensures op.opcode.Breakpoint? || op.opcode.Label? ==> Exec(m, op, labels, fm).outcome != Ok
    ensures Exec(m, op, labels, fm).outcome == Raised(StopIteration, true) <==> op.opcode.Breakpoint? && op.args == []
  {
  }

  /** BREAKPOINT changes nothing. */
  lemma BreakpointKeepsState(m: Machine, op: Instr, labels: map<string, nat>, fm: FloatModel)
    requires op.opcode.Breakpoint?
    ensures Exec(m, op, labels, fm).next == m
  {
  }

  /** The top of the stack is the left operand: with `b` below `a`, SUB leaves
      `a - b`, and DIV leaves `a // b` or fails on a zero divisor. */
  lemma TopIsLeftOperand(m: Machine, a: int, b: int, labels: map<string, nat>, fm: FloatModel)
    requires |m.stack| >= 2 && m.stack[|m.stack| - 1] == IntV(a) && m.stack[|m.stack| - 2] == IntV(b)
    ensures Exec(m, Instr(SubOp, []), labels, fm)
      == Step(m.(stack := m.stack[..|m.stack| - 2] + [IntV(a - b)]), Ok)
    ensures b != 0 ==> (Exec(m, Instr(DivOp, []), labels, fm)
                        == Step(m.(stack := m.stack[..|m.stack| - 2] + [IntV(FloorDiv(a, b))]), Ok))
    ensures b == 0 ==> (Exec(m, Instr(DivOp, []), labels, fm)
                        == Step(m.(stack := m.stack[..|m.stack| - 2]), Raised(MathError, true)))
    ensures Exec(m, Instr(GtOp, []), labels, fm)
      == Step(m.(stack := m.stack[..|m.stack| - 2] + [IntV(if a > b then 1 else 0)]), Ok)
  {
  }

  /** A binary opcode pops both operands before it checks them: once two values
      are on the stack, the operation ends with both gone whether or not it
      succeeds; with one value, that value is gone and IndexError is raised. */
  lemma PopsBeforeCheck(m: Machine, op: Instr, labels: map<string, nat>, fm: FloatModel)
    requires IsArith(op.opcode) || IsCompare(op.opcode)
    requires op.args == []
    ensures |m.stack| == 1 ==> Exec(m, op, labels, fm) == Step(m.(stack := []), Raised(IndexError, true))
    ensures |m.stack| >= 2 ==>
      && Exec(m, op, labels, fm).next.stack[..|m.stack| - 2] == m.stack[..|m.stack| - 2]
      && (Exec(m, op, labels, fm).outcome.Raised? ==> Exec(m, op, labels, fm).next == m.(stack := m.stack[..|m.stack| - 2]))
    ensures |m.stack| >= 2 && !SameNumeric(m.stack[|m.stack| - 1], m.stack[|m.stack| - 2]) ==>
      Exec(m, op, labels, fm).outcome == Raised(AssertionError, true)
  {
    if |m.stack| >= 2 {
      var next := Exec(m, op, labels, fm).next;
      var k := |m.stack| - 2;
      if Exec(m, op, labels, fm).outcome == Ok {
        assert next.stack[..k] == (m.stack[..k] + [next.stack[k]])[..k];
      }
    }
  }

  /** LOAD_CONST pushes exactly its argument; LOAD_VAR of a defined name pushes
      its value and fails with no change otherwise; STORE_VAR binds the top. */
  lemma MemoryOps(m: Machine, x: Value, labels: map<string, nat>, fm: FloatModel)
    ensures Exec(m, Instr(LoadConst, [x]), labels, fm) == Step(m.(stack := m.stack + [x]), Ok)
    ensures x !in m.variables ==> Exec(m, Instr(LoadVar, [x]), labels, fm) == Step(m, Raised(AssertionError, true))
    ensures x in m.variables ==> Exec(m, Instr(LoadVar, [x]), labels, fm) == Step(m.(stack := m.stack + [m.variables[x]]), Ok)
    ensures m.stack != [] ==> (Exec(m, Instr(StoreVar, [x]), labels, fm)
      == Step(m.(stack := m.stack[..|m.stack| - 1], variables := m.variables[x := m.stack[|m.stack| - 1]]), Ok))
  {
  }

  /** A value stored and loaded again under the same name is the value stored. */
  lemma {:induction false} StoreThenLoad(m: Machine, x: Value, labels: map<string, nat>, fm: FloatModel)
    requires m.stack != []
    ensures var s := Exec(m, Instr(StoreVar, [x]), labels, fm).next;
      Exec(s, Instr(LoadVar, [x]), labels, fm) == Step(s.(stack := m.stack), Ok)
  {
    var s := Exec(m, Instr(StoreVar, [x]), labels, fm).next;
    assert s.stack + [m.stack[|m.stack| - 1]] == m.stack;
  }

  /** JMP moves `ip` to one before the label's instruction and changes nothing
      else; an unknown label raises KeyError with no change. */
  lemma JumpTarget(m: Machine, name: string, labels: map<string, nat>, fm: FloatModel)
    ensures name in labels ==> Exec(m, Instr(Jmp, [StrV(name)]), labels, fm) == Step(m.(ip := labels[name] as int - 1), Ok)
    ensures name !in labels ==> Exec(m, Instr(Jmp, [StrV(name)]), labels, fm) == Step(m, Raised(KeyError, true))
  {
  }

  /** CJMP pops the flag and jumps exactly when the flag equals 1. */
  lemma ConditionalJump(m: Machine, name: string, labels: map<string, nat>, fm: FloatModel)
    requires m.stack != [] && name in labels
    ensures var s := Exec(m, Instr(Cjmp, [StrV(name)]), labels, fm);
      && s.outcome == Ok
      && s.next.stack == m.stack[..|m.stack| - 1]
      && s.next.ip == (if EqualsOne(m.stack[|m.stack| - 1], fm) then labels[name] as int - 1 else m.ip)
      && s.next == m.(stack := s.next.stack, ip := s.next.ip)
  {
  }

  /** CALL followed, once the callee has balanced its own calls, by RET puts the
      caller back: its frame name, its variables and the CALL's own index as
      `ip` (the driver then steps past the CALL), with the save-stacks as they
      were before the call.  Whatever the callee left on the stack stays. */
  lemma CallThenReturn(m: Machine, callee: Machine, labels: map<string, nat>, fm: FloatModel)
    requires Exec(m, Instr(Call, []), labels, fm).outcome == Ok
    requires callee.frames == Exec(m, Instr(Call, []), labels, fm).next.frames
    requires callee.savedIps == Exec(m, Instr(Call, []), labels, fm).next.savedIps
    ensures Exec(callee, Instr(Ret, []), labels, fm)
      == Step(m.(stack := callee.stack, input := callee.input, output := callee.output), Ok)
  {
    assert callee.savedIps[..|callee.savedIps| - 1] == m.savedIps;
    assert callee.frames[..|callee.frames| - 1] == m.frames;
  }

  /** Every operation keeps the save-stacks in step and `ip` at or above -1,
      whether it succeeds or not. */
  lemma {:induction false} ExecConsistent(m: Machine, op: Instr, labels: map<string, nat>, fm: FloatModel)
    requires Consistent(m)
    ensures Consistent(Exec(m, op, labels, fm).next)
  {
    var next := Exec(m, op, labels, fm).next;
    if op.opcode.Ret? && op.args == [] && m.savedIps != [] {
      assert next.ip == m.savedIps[|m.savedIps| - 1].ip;
      assert forall i :: 0 <= i < |next.savedIps| ==> next.savedIps[i] == m.savedIps[i];
    } else if op.opcode.Call? {
      assert forall i :: 0 <= i < |m.savedIps| ==> next.savedIps[i] == m.savedIps[i];
    }
  }

  /** On a consistent VM a failed operation changes at most the stack (by the
      values it popped) and the input buffer (by the value it read): variables,
      frames, saved ips, `ip`, the frame name and the output are untouched. */
  lemma FaultKeepsFrame(m: Machine, op: Instr, labels: map<string, nat>, fm: FloatModel)
    requires Consistent(m)
    requires Exec(m, op, labels, fm).outcome.Raised?
    ensures var next := Exec(m, op, labels, fm).next;
      next == m.(stack := next.stack, input := next.input)
    ensures Exec(m, op, labels, fm).next.stack <= m.stack
  {
    var o := op.opcode;
    if IsArith(o) {
      ArithKept(m, op, fm);
    } else if IsCompare(o) {
      CompareKept(m, op, fm);
    } else if IsUnary(o) {
      UnaryKept(m, op, fm);
    } else if o.Call? || o.Ret? {
      assert Kept(m, ExecCall(m, op));
    } else {
      OtherKept(m, op, labels, fm);
    }
  }

  lemma ArithKept(m: Machine, op: Instr, fm: FloatModel)
    requires IsArith(op.opcode)
    ensures Kept(m, ExecArith(m, op, fm))
  {
    if |m.stack| >= 2 { TakeIsPrefix(m.stack, |m.stack| - 2); }
  }

  lemma CompareKept(m: Machine, op: Instr, fm: FloatModel)
    requires IsCompare(op.opcode)
    ensures Kept(m, ExecCompare(m, op, fm))
  {
    if |m.stack| >= 2 { TakeIsPrefix(m.stack, |m.stack| - 2); }
  }

  lemma UnaryKept(m: Machine, op: Instr, fm: FloatModel)
    requires IsUnary(op.opcode)
    ensures Kept(m, ExecUnary(m, op, fm))
  {
    if |m.stack| >= 1 { TakeIsPrefix(m.stack, |m.stack| - 1); }
  }

  /** The memory, I/O, jump, BREAKPOINT and LABEL opcodes. */
  lemma OtherKept(m: Machine, op: Instr, labels: map<string, nat>, fm: FloatModel)
    requires !IsArith(op.opcode) && !IsCompare(op.opcode) && !IsUnary(op.opcode)
    requires !op.opcode.Call? && !op.opcode.Ret?
    ensures Kept(m, Exec(m, op, labels, fm))
  {
  }

  /** A failed step that changed at most the stack, by popping, and the input. */
  predicate Kept(m: Machine, s: Step)
  {
    s.outcome.Raised? ==> s.next == m.(stack := s.next.stack, input := s.next.input) && s.next.stack <= m.stack
  }

  /** A prefix of the stack is a prefix of it. */
  lemma TakeIsPrefix<T>(a: seq<T>, k: nat)
    requires k <= |a|
    ensures a[..k] <= a
  {
  }

  /** A run of `run_code` that returns has brought `ip` to the end of the
      function it is in, and hands back the VM's stack and variables. */
  lemma {:induction false} LoopFinishes(m: Machine, t: Table, fuel: nat, fm: FloatModel)
    requires Loop(m, t, fuel, fm).1.Finished?
    ensures var (m', r) := Loop(m, t, fuel, fm);
      && CodeOf(t, m'.currentFrame).Some? && m'.ip >= |CodeOf(t, m'.currentFrame).value.instructions|
      && r == Finished(m'.stack, m'.variables)
    decreases fuel
  {
    var c := CodeOf(t, m.currentFrame).value;
    if m.ip < |c.instructions| {
      var s := Exec(m, Fetch(c.instructions, m.ip).value, c.labels, fm);
      LoopFinishes(s.next.(ip := s.next.ip + 1), t, fuel - 1, fm);
    }
  }

  /** `run_code` keeps the VM consistent, however it ends. */
  lemma {:induction false} LoopConsistent(m: Machine, t: Table, fuel: nat, fm: FloatModel)
    requires Consistent(m)
    ensures Consistent(Loop(m, t, fuel, fm).0)
    decreases fuel
  {
    if CodeOf(t, m.currentFrame).Some? && m.ip < |CodeOf(t, m.currentFrame).value.instructions| && fuel > 0 {
      var c := CodeOf(t, m.currentFrame).value;
      var instr := Fetch(c.instructions, m.ip);
      if instr.Some? {
        ExecConsistent(m, instr.value, c.labels, fm);
        var s := Exec(m, instr.value, c.labels, fm);
        if s.outcome.Ok? {
          LoopConsistent(s.next.(ip := s.next.ip + 1), t, fuel - 1, fm);
        }
      }
    }
  }

  /** More fuel does not change a run that ended without running out of it. */
  lemma {:induction false} LoopMoreFuel(m: Machine, t: Table, fuel: nat, more: nat, fm: FloatModel)
    requires !Loop(m, t, fuel, fm).1.OutOfFuel?
    requires more >= fuel
    ensures Loop(m, t, more, fm) == Loop(m, t, fuel, fm)
    decreases fuel
  {
    if CodeOf(t, m.currentFrame).Some? && m.ip < |CodeOf(t, m.currentFrame).value.instructions| && fuel > 0 {
      var c := CodeOf(t, m.currentFrame).value;
      var instr := Fetch(c.instructions, m.ip);
      if instr.Some? {
        var s := Exec(m, instr.value, c.labels, fm);
        if s.outcome.Ok? {
          LoopMoreFuel(s.next.(ip := s.next.ip + 1), t, fuel - 1, more - 1, fm);
        }
      }
    }
  }

  /** One turn of the `run_code` loop that neither stops nor raises. */
  function Advance(m: Machine, t: Table, fm: FloatModel): Option<Machine>
  {
    if CodeOf(t, m.currentFrame).None? then None
    else
      var c := CodeOf(t, m.currentFrame).value;
      if m.ip >= |c.instructions| then None
      else match Fetch(c.instructions, m.ip)
        case None => None
        case Some(instr) =>
          var s := Exec(m, instr, c.labels, fm);
          if s.outcome.Raised? then None else Some(s.next.(ip := s.next.ip + 1))
  }

  /** `k` turns of the loop, all of which go through. */
  function Steps(m: Machine, t: Table, k: nat, fm: FloatModel): Option<Machine>
    decreases k
  {
    if k == 0 then Some(m)
    else match Advance(m, t, fm)
      case None => None
      case Some(m') => Steps(m', t, k - 1, fm)
  }

  /** Turns that go through can be taken off the front of a run: they cost one
      unit of fuel each and change nothing else about how the run ends. */
  lemma {:induction false} LoopSteps(m: Machine, m': Machine, t: Table, k: nat, fuel: nat, fm: FloatModel)
    requires Steps(m, t, k, fm) == Some(m')
    ensures Loop(m, t, fuel + k, fm) == Loop(m', t, fuel, fm)
    decreases k
  {
    if k > 0 {
      StepsFirst(m, t, k, fm);
      var m1 := Advance(m, t, fm).value;
      calc {
        Loop(m, t, fuel + k, fm);
        { LoopAdvance(m, t, fuel + k - 1, fm); }
        Loop(m1, t, fuel + k - 1, fm);
        { LoopSteps(m1, m', t, k - 1, fuel, fm); }
        Loop(m', t, fuel, fm);
      }
    }
  }

  /** The first of `k` turns that all go through goes through. */
  lemma StepsFirst(m: Machine, t: Table, k: nat, fm: FloatModel)
    requires k > 0 && Steps(m, t, k, fm).Some?
    ensures Advance(m, t, fm).Some? && Steps(Advance(m, t, fm).value, t, k - 1, fm) == Steps(m, t, k, fm)
  {
  }

  /** A turn that goes through costs the loop one unit of fuel. */
  lemma LoopAdvance(m: Machine, t: Table, fuel: nat, fm: FloatModel)
    requires Advance(m, t, fm).Some?
    ensures Loop(m, t, fuel + 1, fm) == Loop(Advance(m, t, fm).value, t, fuel, fm)
  {
    var c := CodeOf(t, m.currentFrame).value;
    var instr := Fetch(c.instructions, m.ip).value;
    var s := Exec(m, instr, c.labels, fm);
    assert Advance(m, t, fm).value == s.next.(ip := s.next.ip + 1);
  }

  /** A VM about to run the entry function with an empty stack and no
      variables, as a fresh VM is; its frames and I/O buffers are arbitrary. */
  predicate AtStart(m: Machine)
  {
    m.currentFrame == StrV(EntryPoint) && m.ip == 0 && m.stack == [] && m.variables == map[]
  }

  /** A run whose turns all go through and leave the instruction pointer past
      the end of its function finishes with the stack and variables reached. */
  lemma RunSteps(m: Machine, m': Machine, p: Program, k: nat, fm: FloatModel)
    requires !(p.Named? && p.functions == map[])
    requires Steps(m, Table(p, m.currentFrame), k, fm) == Some(m')
    requires CodeOf(Table(p, m.currentFrame), m'.currentFrame).Some?
    requires m'.ip >= |CodeOf(Table(p, m.currentFrame), m'.currentFrame).value.instructions|
    ensures Run(m, p, k, fm) == (m', Finished(m'.stack, m'.variables))
  {
    LoopSteps(m, m', Table(p, m.currentFrame), k, 0, fm);
  }

  /** Runs of turns compose. */
  lemma StepsAppend(m: Machine, t: Table, a: nat, b: nat, fm: FloatModel)
    requires Steps(m, t, a, fm).Some?
    ensures Steps(m, t, a + b, fm) == Steps(Steps(m, t, a, fm).value, t, b, fm)
  {
    var f := (m': Machine) => Advance(m', t, fm);
    StepsIterate(m, t, a, fm);
    StepsIterate(m, t, a + b, fm);
    StepsIterate(Steps(m, t, a, fm).value, t, b, fm);
    IterateAppend(f, m, a, b);
  }

  /** `k` applications of a partial step function, stopping at the first that fails. */
  function Iterate<S>(f: S -> Option<S>, x: S, k: nat): Option<S>
    decreases k
  {
    if k == 0 then Some(x)
    else match f(x)
      case None => None
      case Some(y) => Iterate(f, y, k - 1)
  }

  /** Iterations compose. */
  lemma {:induction false} IterateAppend<S>(f: S -> Option<S>, x: S, a: nat, b: nat)
    requires Iterate(f, x, a).Some?
    ensures Iterate(f, x, a + b) == Iterate(f, Iterate(f, x, a).value, b)
    decreases a
  {
    if a > 0 {
      IterateAppend(f, f(x).value, a - 1, b);
      assert a + b - 1 == (a - 1) + b;
    }
  }

  /** `Steps` iterates `Advance`. */
  lemma {:induction false} StepsIterate(m: Machine, t: Table, k: nat, fm: FloatModel)
    ensures Steps(m, t, k, fm) == Iterate((m': Machine) => Advance(m', t, fm), m, k)
    decreases k
  {
    if k > 0 && Advance(m, t, fm).Some? {
      StepsIterate(Advance(m, t, fm).value, t, k - 1, fm);
    }
  }

  /** Two runs of turns, one after the other. */
  lemma StepsThen(m: Machine, m1: Machine, m2: Machine, t: Table, a: nat, b: nat, fm: FloatModel)
    requires Steps(m, t, a, fm) == Some(m1)
    requires Steps(m1, t, b, fm) == Some(m2)
    ensures Steps(m, t, a + b, fm) == Some(m2)
  {
    StepsAppend(m, t, a, b, fm);
  }

  /** A chain of states each one turn from the previous is as many turns long. */
  lemma {:induction false} Chain(ms: seq<Machine>, t: Table, fm: FloatModel)
    requires |ms| >= 1
    requires forall i :: 0 <= i < |ms| - 1 ==> Advance(ms[i], t, fm) == Some(ms[i + 1])
    ensures Steps(ms[0], t, |ms| - 1, fm) == Some(ms[|ms| - 1])
    decreases |ms|
  {
    if |ms| > 1 {
      Chain(ms[1..], t, fm);
      assert ms[1..][0] == ms[1];
    }
  }
  /** One more turn at the end of a run of turns. */
  lemma {:induction false} StepsSnoc(m: Machine, m1: Machine, m2: Machine, t: Table, k: nat, fm: FloatModel)
    requires Steps(m, t, k, fm) == Some(m1)
    requires Advance(m1, t, fm) == Some(m2)
    ensures Steps(m, t, k + 1, fm) == Some(m2)
    decreases k
  {
    if k > 0 {
      StepsSnoc(Advance(m, t, fm).value, m1, m2, t, k - 1, fm);
      assert k + 1 - 1 == (k - 1) + 1;
    }
  }

  /** The VM is in function `c` of the table and about to execute its
      instruction `ip`, which is `instr`. */
  predicate At(m: Machine, t: Table, c: Code, ip: int, instr: Instr)
  {
    && CodeOf(t, m.currentFrame) == Some(c)
    && m.ip == ip
    && 0 <= ip < |c.instructions|
    && c.instructions[ip] == instr
  }

  // The turns of the loop opcode by opcode, for the cases that go through.
  // Each extends a run of `k` turns from `o` that reached `m` by one turn.

  lemma TurnLoadConst(o: Machine, k: nat, m: Machine, t: Table, c: Code, ip: int, v: Value, fm: FloatModel)
    requires Steps(o, t, k, fm) == Some(m) && At(m, t, c, ip, Instr(LoadConst, [v]))
    ensures Steps(o, t, k + 1, fm) == Some(m.(stack := m.stack + [v], ip := ip + 1))
  {
    StepsSnoc(o, m, m.(stack := m.stack + [v], ip := ip + 1), t, k, fm);
  }

  lemma TurnLoadVar(o: Machine, k: nat, m: Machine, t: Table, c: Code, ip: int, x: Value, fm: FloatModel)
    requires Steps(o, t, k, fm) == Some(m) && At(m, t, c, ip, Instr(LoadVar, [x])) && x in m.variables
    ensures Steps(o, t, k + 1, fm) == Some(m.(stack := m.stack + [m.variables[x]], ip := ip + 1))
  {
    StepsSnoc(o, m, m.(stack := m.stack + [m.variables[x]], ip := ip + 1), t, k, fm);
  }

  lemma TurnStoreVar(o: Machine, k: nat, m: Machine, t: Table, c: Code, ip: int, x: Value, rest: seq<Value>, v: Value, fm: FloatModel)
    requires Steps(o, t, k, fm) == Some(m) && At(m, t, c, ip, Instr(StoreVar, [x])) && m.stack == rest + [v]
    ensures Steps(o, t, k + 1, fm) == Some(m.(stack := rest, variables := m.variables[x := v], ip := ip + 1))
  {
    assert m.stack[..|m.stack| - 1] == rest;
    StepsSnoc(o, m, m.(stack := rest, variables := m.variables[x := v], ip := ip + 1), t, k, fm);
  }

  /** An arithmetic opcode on two ints; `a` is the top of the stack. */
  lemma TurnIntArith(o: Machine, k: nat, m: Machine, t: Table, c: Code, ip: int, op: OpCode, rest: seq<Value>, a: int, b: int, fm: FloatModel)
    requires Steps(o, t, k, fm) == Some(m) && At(m, t, c, ip, Instr(op, [])) && IsArith(op)
    requires m.stack == rest + [IntV(b), IntV(a)]
    requires op.DivOp? ==> b != 0
    ensures Steps(o, t, k + 1, fm) == Some(m.(stack := rest + [Arith(ArithOf(op), IntV(a), IntV(b), fm).value], ip := ip + 1))
  {
    assert m.stack[..|m.stack| - 2] == rest;
    StepsSnoc(o, m, m.(stack := rest + [Arith(ArithOf(op), IntV(a), IntV(b), fm).value], ip := ip + 1), t, k, fm);
  }

  /** A comparison of two ints; `a` is the top of the stack. */
  lemma TurnIntCompare(o: Machine, k: nat, m: Machine, t: Table, c: Code, ip: int, op: OpCode, rest: seq<Value>, a: int, b: int, fm: FloatModel)
    requires Steps(o, t, k, fm) == Some(m) && At(m, t, c, ip, Instr(op, [])) && IsCompare(op)
    requires m.stack == rest + [IntV(b), IntV(a)]
    ensures Steps(o, t, k + 1, fm) == Some(m.(stack := rest + [IntV(if Compare(CmpOf(op), IntV(a), IntV(b), fm) then 1 else 0)], ip := ip + 1))
  {
    CompareAdvance(m, t, c, ip, op, rest, a, b, fm);
    StepsSnoc(o, m, m.(stack := rest + [IntV(if Compare(CmpOf(op), IntV(a), IntV(b), fm) then 1 else 0)], ip := ip + 1), t, k, fm);
  }

  /** The turn of `TurnIntCompare` on its own. */
  lemma CompareAdvance(m: Machine, t: Table, c: Code, ip: int, op: OpCode, rest: seq<Value>, a: int, b: int, fm: FloatModel)
    requires At(m, t, c, ip, Instr(op, [])) && IsCompare(op)
    requires m.stack == rest + [IntV(b), IntV(a)]
    ensures Advance(m, t, fm) == Some(m.(stack := rest + [IntV(if Compare(CmpOf(op), IntV(a), IntV(b), fm) then 1 else 0)], ip := ip + 1))
  {
    assert m.stack[..|m.stack| - 2] == rest;
  }

  /** An arithmetic opcode on two floats; `a` is the top of the stack. */
  lemma TurnFloatArith(o: Machine, k: nat, m: Machine, t: Table, c: Code, ip: int, op: OpCode, rest: seq<Value>, a: Float, b: Float, fm: FloatModel)
    requires Steps(o, t, k, fm) == Some(m) && At(m, t, c, ip, Instr(op, [])) && IsArith(op)
    requires m.stack == rest + [RealV(b), RealV(a)]
    requires op.DivOp? ==> !fm.raises(FBin(Div, a, b))
    ensures Steps(o, t, k + 1, fm) == Some(m.(stack := rest + [RealV(FBin(ArithOf(op), a, b))], ip := ip + 1))
  {
    FloatArithAdvance(m, t, c, ip, op, rest, a, b, fm);
    StepsSnoc(o, m, m.(stack := rest + [RealV(FBin(ArithOf(op), a, b))], ip := ip + 1), t, k, fm);
  }

  /** The turn of `TurnFloatArith` on its own. */
  lemma FloatArithAdvance(m: Machine, t: Table, c: Code, ip: int, op: OpCode, rest: seq<Value>, a: Float, b: Float, fm: FloatModel)
    requires At(m, t, c, ip, Instr(op, [])) && IsArith(op)
    requires m.stack == rest + [RealV(b), RealV(a)]
    requires op.DivOp? ==> !fm.raises(FBin(Div, a, b))
    ensures Advance(m, t, fm) == Some(m.(stack := rest + [RealV(FBin(ArithOf(op), a, b))], ip := ip + 1))
  {
    assert m.stack[..|m.stack| - 2] == rest;
  }

  lemma TurnUnary(o: Machine, k: nat, m: Machine, t: Table, c: Code, ip: int, op: OpCode, rest: seq<Value>, v: Value, fm: FloatModel)
    requires Steps(o, t, k, fm) == Some(m) && At(m, t, c, ip, Instr(op, [])) && IsUnary(op)
    requires m.stack == rest + [v] && v.IsNumber() && Unary(op, v, fm).Some?
    ensures Steps(o, t, k + 1, fm) == Some(m.(stack := rest + [Unary(op, v, fm).value], ip := ip + 1))
  {
    UnaryAdvance(m, t, c, ip, op, rest, v, fm);
    StepsSnoc(o, m, m.(stack := rest + [Unary(op, v, fm).value], ip := ip + 1), t, k, fm);
  }

  /** The turn of `TurnUnary` on its own. */
  lemma UnaryAdvance(m: Machine, t: Table, c: Code, ip: int, op: OpCode, rest: seq<Value>, v: Value, fm: FloatModel)
    requires At(m, t, c, ip, Instr(op, [])) && IsUnary(op)
    requires m.stack == rest + [v] && v.IsNumber() && Unary(op, v, fm).Some?
    ensures Advance(m, t, fm) == Some(m.(stack := rest + [Unary(op, v, fm).value], ip := ip + 1))
  {
    assert m.stack[..|m.stack| - 1] == rest;
  }

  lemma TurnInputNumber(o: Machine, k: nat, m: Machine, t: Table, c: Code, ip: int, fm: FloatModel)
    requires Steps(o, t, k, fm) == Some(m) && At(m, t, c, ip, Instr(InputNumber, []))
    requires m.input != [] && m.input[0].IsNumber()
    ensures Steps(o, t, k + 1, fm) == Some(m.(stack := m.stack + [m.input[0]], input := m.input[1..], ip := ip + 1))
  {
    InputNumberAdvance(m, t, c, ip, fm);
    StepsSnoc(o, m, m.(stack := m.stack + [m.input[0]], input := m.input[1..], ip := ip + 1), t, k, fm);
  }

  /** The turn of `TurnInputNumber` on its own. */
  lemma InputNumberAdvance(m: Machine, t: Table, c: Code, ip: int, fm: FloatModel)
    requires At(m, t, c, ip, Instr(InputNumber, []))
    requires m.input != [] && m.input[0].IsNumber()
    ensures Advance(m, t, fm) == Some(m.(stack := m.stack + [m.input[0]], input := m.input[1..], ip := ip + 1))
  {
  }

  lemma TurnPrint(o: Machine, k: nat, m: Machine, t: Table, c: Code, ip: int, rest: seq<Value>, v: Value, fm: FloatModel)
    requires Steps(o, t, k, fm) == Some(m) && At(m, t, c, ip, Instr(Print, [])) && m.stack == rest + [v]
    ensures Steps(o, t, k + 1, fm) == Some(m.(stack := rest, output := m.output + [v], ip := ip + 1))
  {
    assert m.stack[..|m.stack| - 1] == rest;
    StepsSnoc(o, m, m.(stack := rest, output := m.output + [v], ip := ip + 1), t, k, fm);
  }

  /** CJMP pops its condition; it falls through unless the condition equals 1. */
  lemma TurnCjmp(o: Machine, k: nat, m: Machine, t: Table, c: Code, ip: int, name: string, rest: seq<Value>, v: Value, fm: FloatModel)
    requires Steps(o, t, k, fm) == Some(m) && At(m, t, c, ip, Instr(Cjmp, [StrV(name)])) && m.stack == rest + [v]
    requires EqualsOne(v, fm) ==> name in c.labels
    ensures Steps(o, t, k + 1, fm) == Some(m.(stack := rest, ip := if EqualsOne(v, fm) then c.labels[name] else ip + 1))
  {
    CjmpAdvance(m, t, c, ip, name, rest, v, fm);
    StepsSnoc(o, m, m.(stack := rest, ip := if EqualsOne(v, fm) then c.labels[name] else ip + 1), t, k, fm);
  }

  /** The turn of `TurnCjmp` on its own. */
  lemma CjmpAdvance(m: Machine, t: Table, c: Code, ip: int, name: string, rest: seq<Value>, v: Value, fm: FloatModel)
    requires At(m, t, c, ip, Instr(Cjmp, [StrV(name)])) && m.stack == rest + [v]
    requires EqualsOne(v, fm) ==> name in c.labels
    ensures Advance(m, t, fm) == Some(m.(stack := rest, ip := if EqualsOne(v, fm) then c.labels[name] else ip + 1))
  {
    assert m.stack[..|m.stack| - 1] == rest;
  }

  /** CALL; the callee starts at its instruction 0. */
  lemma TurnCall(o: Machine, k: nat, m: Machine, t: Table, c: Code, ip: int, rest: seq<Value>, f: Value, fm: FloatModel)
    requires Steps(o, t, k, fm) == Some(m) && At(m, t, c, ip, Instr(Call, [])) && m.stack == rest + [f]
    ensures Steps(o, t, k + 1, fm) == Some(m.(stack := rest,
                                              savedIps := m.savedIps + [SavedIp(m.currentFrame, ip)],
                                              currentFrame := f,
                                              frames := m.frames + [m.variables],
                                              variables := map[],
                                              ip := 0))
  {
    assert m.stack[..|m.stack| - 1] == rest;
    StepsSnoc(o, m, m.(stack := rest, savedIps := m.savedIps + [SavedIp(m.currentFrame, ip)], currentFrame := f,
                       frames := m.frames + [m.variables], variables := map[], ip := 0), t, k, fm);
  }

  /** RET; the caller resumes after its CALL. */
  lemma TurnRet(o: Machine, k: nat, m: Machine, t: Table, c: Code, ip: int, frames: seq<map<Value, Value>>, vars: map<Value, Value>,
                saved: seq<SavedIp>, back: SavedIp, fm: FloatModel)
    requires Steps(o, t, k, fm) == Some(m) && At(m, t, c, ip, Instr(Ret, []))
    requires m.frames == frames + [vars] && m.savedIps == saved + [back]
    ensures Steps(o, t, k + 1, fm) == Some(m.(frames := frames, variables := vars, savedIps := saved,
                                              currentFrame := back.frame, ip := back.ip + 1))
  {
    assert m.frames[..|m.frames| - 1] == frames;
    assert m.savedIps[..|m.savedIps| - 1] == saved;
    StepsSnoc(o, m, m.(frames := frames, variables := vars, savedIps := saved, currentFrame := back.frame, ip := back.ip + 1), t, k, fm);
  }
}
