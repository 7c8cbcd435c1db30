/** Sessions from the debugger's own tests (task0/xvm/test_debugger.py),
    over their programs' code written out instruction by instruction and
    any VM at the start of the entry function. */
module DebugExamples {
  import opened Values
  import opened Interpreter
  import opened InterpreterFacts
  import opened Debug

  /** `LOAD_CONST 5; JMP skip_target; LOAD_CONST 999; LABEL skip_target;
      STORE_VAR "a"` as `parse_string` returns it: the label names index 3. */
  function JumpCode(): Code
  {
    Code([Instr(LoadConst, [IntV(5)]), Instr(Jmp, [StrV("skip_target")]),
          Instr(LoadConst, [IntV(999)]), Instr(StoreVar, [StrV("a")])],
         map["skip_target" := 3])
  }

  /** step, step, list: after the JMP `ip` is on `STORE_VAR "a"`. */
  lemma StepOverJump(s: Session, fm: FloatModel)
    requires s.code == map[EntryPoint := JumpCode()] && !s.fl && AtStart(s.m)
    ensures StepCommand(s, fm).1 == Executed
    ensures StepCommand(StepCommand(s, fm).0, fm).1 == Executed
    ensures StepCommand(StepCommand(s, fm).0, fm).0.m.ip == 3
    ensures StepCommand(StepCommand(s, fm).0, fm).0.m.stack == [IntV(5)]
    ensures ListCommand(StepCommand(StepCommand(s, fm).0, fm).0).Window?
    ensures |ListCommand(StepCommand(StepCommand(s, fm).0, fm).0).rows| == 4
    ensures ListCommand(StepCommand(StepCommand(s, fm).0, fm).0).rows[3] == Row(3, true, Instr(StoreVar, [StrV("a")]))
  {
    var s1 := s.(m := s.m.(stack := [IntV(5)], ip := 1));
    LoadConstStep(s, JumpCode(), 5, fm);
    JumpStep(s1, fm);
    ListWindowAt(s1.(m := s1.m.(ip := 3)), JumpCode());
  }

  /** The JMP at index 1 moves `ip` to the label's index. */
  lemma JumpStep(s: Session, fm: FloatModel)
    requires s.code == map[EntryPoint := JumpCode()] && !s.fl
    requires s.m.currentFrame == StrV(EntryPoint) && s.m.ip == 1
    ensures StepCommand(s, fm) == (s.(m := s.m.(ip := 3)), Executed)
  {
    var c := JumpCode();
    assert Lookup(s.code, s.m.currentFrame) == Some(c);
    assert Gate(s) == None;
    assert Fetch(c.instructions, 1) == Some(c.instructions[1]);
    assert Exec(s.m, c.instructions[1], c.labels, fm) == Interpreter.Step(s.m.(ip := 2), Ok);
  }

  /** A step over `LOAD_CONST n` as the first instruction of the entry function. */
  lemma LoadConstStep(s: Session, c: Code, n: int, fm: FloatModel)
    requires Lookup(s.code, s.m.currentFrame) == Some(c) && !s.fl && AtStart(s.m)
    requires |c.instructions| > 1 && c.instructions[0] == Instr(LoadConst, [IntV(n)])
    ensures StepCommand(s, fm) == (s.(m := s.m.(stack := [IntV(n)], ip := 1)), Executed)
  {
    assert Gate(s) == None;
    assert Fetch(c.instructions, 0) == Some(c.instructions[0]);
    assert [] + [IntV(n)] == [IntV(n)];
    assert Exec(s.m, c.instructions[0], c.labels, fm) == Interpreter.Step(s.m.(stack := [IntV(n)]), Ok);
  }

  lemma ListWindowAt(s: Session, c: Code)
    requires Lookup(s.code, s.m.currentFrame) == Some(c) && c == JumpCode() && s.m.ip == 3
    ensures ListCommand(s).Window? && |ListCommand(s).rows| == 4
    ensures ListCommand(s).rows[3] == Row(3, true, Instr(StoreVar, [StrV("a")]))
  {
  }

  /** `function "add_ten"`: `LOAD_CONST 10; ADD; RET`. */
  function AddTen(): Code
  {
    Code([Instr(LoadConst, [IntV(10)]), Instr(AddOp, []), Instr(Ret, [])], map[])
  }

  /** The entry function: `LOAD_CONST 5; LOAD_CONST "add_ten"; CALL;
      STORE_VAR "result"; PRINT`. */
  function CallingEntry(): Code
  {
    Code([Instr(LoadConst, [IntV(5)]), Instr(LoadConst, [StrV("add_ten")]), Instr(Call, []),
          Instr(StoreVar, [StrV("result")]), Instr(Print, [])], map[])
  }

  /** step, step, next: next runs all of add_ten and stops on
      `STORE_VAR "result"` with 15 on the stack. */
  lemma NextOverAddTen(s: Session, fm: FloatModel)
    requires s.code == map["add_ten" := AddTen(), EntryPoint := CallingEntry()] && !s.fl && AtStart(s.m)
    ensures StepCommand(s, fm).1 == Executed
    ensures StepCommand(StepCommand(s, fm).0, fm).1 == Executed
    ensures NextCommand(StepCommand(StepCommand(s, fm).0, fm).0, 3, fm).1 == Returned
    ensures NextCommand(StepCommand(StepCommand(s, fm).0, fm).0, 3, fm).0.m
      == s.m.(stack := [IntV(15)], ip := 3)
  {
    var s1 := s.(m := s.m.(stack := [IntV(5)], ip := 1));
    LoadConstStep(s, CallingEntry(), 5, fm);
    var s2 := s1.(m := s1.m.(stack := [IntV(5), StrV("add_ten")], ip := 2));
    LoadNameStep(s1, fm);
    CallAddTen(s2, s.m, fm);
  }

  /** `LOAD_CONST "add_ten"` at index 1 of the calling function. */
  lemma LoadNameStep(s: Session, fm: FloatModel)
    requires s.code == map["add_ten" := AddTen(), EntryPoint := CallingEntry()] && !s.fl
    requires s.m.currentFrame == StrV(EntryPoint) && s.m.ip == 1 && s.m.stack == [IntV(5)]
    ensures StepCommand(s, fm) == (s.(m := s.m.(stack := [IntV(5), StrV("add_ten")], ip := 2)), Executed)
  {
    var e := CallingEntry();
    assert Lookup(s.code, s.m.currentFrame) == Some(e);
    assert Gate(s) == None;
    assert Fetch(e.instructions, 1) == Some(e.instructions[1]);
    assert Exec(s.m, e.instructions[1], e.labels, fm) == Interpreter.Step(s.m.(stack := [IntV(5), StrV("add_ten")]), Ok);
  }

  /** next on the CALL at index 2 runs add_ten to its RET. */
  lemma CallAddTen(s: Session, m0: Machine, fm: FloatModel)
    requires s.code == map["add_ten" := AddTen(), EntryPoint := CallingEntry()] && !s.fl
    requires AtStart(m0) && s.m == m0.(stack := [IntV(5), StrV("add_ten")], ip := 2)
    ensures NextCommand(s, 3, fm) == (s.(m := m0.(stack := [IntV(15)], ip := 3)), Returned)
  {
    var e := CallingEntry();
    var callee := s.m.(stack := [IntV(5)], savedIps := s.m.savedIps + [SavedIp(StrV(EntryPoint), 2)],
                       currentFrame := StrV("add_ten"), frames := s.m.frames + [map[]], variables := map[], ip := 0);
    assert Lookup(s.code, s.m.currentFrame) == Some(e);
    assert Gate(s) == None;
    assert Fetch(e.instructions, 2) == Some(e.instructions[2]);
    assert Exec(s.m, e.instructions[2], e.labels, fm) == Interpreter.Step(callee.(ip := -1), Ok);
    AddTenReturns(s.(m := callee), s.m, fm);
  }

  /** The step-over loop through add_ten, entered just after the CALL. */
  lemma AddTenReturns(s: Session, caller: Machine, fm: FloatModel)
    requires s.code == map["add_ten" := AddTen(), EntryPoint := CallingEntry()] && !s.fl
    requires caller.currentFrame == StrV(EntryPoint) && caller.variables == map[]
    requires s.m == caller.(stack := [IntV(5)], savedIps := caller.savedIps + [SavedIp(StrV(EntryPoint), 2)],
                            currentFrame := StrV("add_ten"), frames := caller.frames + [map[]],
                            variables := map[], ip := 0)
    ensures OverLoop(s, 1, 0, 3, fm) == (s.(m := caller.(stack := [IntV(15)], ip := 3)), Returned)
  {
    var a := AddTen();
    assert Lookup(s.code, s.m.currentFrame) == Some(a);
    var s1 := s.(m := s.m.(stack := [IntV(5), IntV(10)], ip := 1));
    assert Fetch(a.instructions, 0) == Some(a.instructions[0]);
    assert Exec(s.m, a.instructions[0], a.labels, fm) == Interpreter.Step(s1.m.(ip := 0), Ok);
    assert OverLoop(s, 1, 0, 3, fm) == OverLoop(s1, 1, 0, 2, fm);
    var s2 := s1.(m := s1.m.(stack := [IntV(15)], ip := 2));
    assert Fetch(a.instructions, 1) == Some(a.instructions[1]);
    assert Arith(ArithOf(AddOp), IntV(10), IntV(5), fm) == Some(IntV(15));
    assert Exec(s1.m, a.instructions[1], a.labels, fm) == Interpreter.Step(s1.m.(stack := [IntV(15)]), Ok);
    assert OverLoop(s1, 1, 0, 2, fm) == OverLoop(s2, 1, 0, 1, fm);
    assert Fetch(a.instructions, 2) == Some(a.instructions[2]);
    assert Exec(s2.m, a.instructions[2], a.labels, fm) == Interpreter.Step(caller.(stack := [IntV(15)], ip := 2), Ok);
  }
}
