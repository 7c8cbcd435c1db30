/** What the debugger's commands guarantee: the guards, the consumed
    breakpoint, the sticky fault flag, step-over returning to the caller,
    run agreeing with `run_code`, and the read-only views. */
module DebugFacts {
  import opened Values
  import opened Interpreter
  import opened InterpreterFacts
  import opened Debug
  import PyText
  import Convert
  import Parser
  import Sections

  /** While `fl` is set nothing executes; with no program nothing executes;
      run, step and next also refuse once `ip` is past the end. */
  lemma Refusals(s: Session, fuel: nat, arg: string, fm: FloatModel)
    ensures s.fl ==>
      && StepCommand(s, fm) == (s, Refused(Crashed))
      && RunCommand(s, fuel, fm) == (s, Refused(Crashed))
      && NextCommand(s, fuel, fm) == (s, Refused(Crashed))
      && ExecCommand(s, arg, fm) == (s, Refused(Crashed))
    ensures !s.fl && s.code == map[] ==>
      && StepCommand(s, fm) == (s, Refused(NoProgram))
      && RunCommand(s, fuel, fm) == (s, Refused(NoProgram))
      && NextCommand(s, fuel, fm) == (s, Refused(NoProgram))
      && ExecCommand(s, arg, fm) == (s, Refused(NoProgram))
    ensures (!s.fl && Lookup(s.code, s.m.currentFrame).Some?
      && s.m.ip >= |Lookup(s.code, s.m.currentFrame).value.instructions|) ==>
      && StepCommand(s, fm) == (s, Refused(AtEnd))
      && RunCommand(s, fuel, fm) == (s, Refused(AtEnd))
      && NextCommand(s, fuel, fm) == (s, Refused(AtEnd))
  {
  }

  /** Only load clears the fault flag, and it always does. */
  lemma FlagSticks(s: Session, fuel: nat, arg: string, file: Option<string>, fm: FloatModel)
    ensures s.fl ==> StepCommand(s, fm).0.fl && RunCommand(s, fuel, fm).0.fl
    ensures s.fl ==> NextCommand(s, fuel, fm).0.fl && ExecCommand(s, arg, fm).0.fl
    ensures !LoadCommand(s, file).0.fl
  {
  }

  /** A load that parses every function resets the VM to a fresh one over
      the same I/O buffers; one whose function texts do not all parse ends
      the debugger. */
  lemma LoadResets(s: Session, text: string)
    ensures LoadCommand(s, Some(text)).1 == Loaded <==>
      forall name :: name in Sections.FunctionTexts(text) ==> Parser.ParseText(Sections.FunctionTexts(text)[name]).Ok?
    ensures LoadCommand(s, Some(text)).1 != Loaded ==> LoadCommand(s, Some(text)) == (s.(fl := false), Crash)
    ensures LoadCommand(s, Some(text)).1 == Loaded ==>
      && LoadCommand(s, Some(text)).0.m == Fresh(s.m.input).(output := s.m.output)
      && Consistent(LoadCommand(s, Some(text)).0.m)
      && LoadCommand(s, Some(text)).0.code.Keys == Sections.FunctionTexts(text).Keys
      && forall name :: name in LoadCommand(s, Some(text)).0.code ==>
           Parser.ParseText(Sections.FunctionTexts(text)[name]) == Parser.Ok(LoadCommand(s, Some(text)).0.code[name])
  {
    var texts := Sections.FunctionTexts(text);
    if ParseAll(texts).Some? {
      var code := ParseAll(texts).value;
      assert code == map name | name in texts :: Parser.ParseText(texts[name]).value;
      assert LoadCommand(s, Some(text)) == (Session(Reset(s.m), code, false), Loaded);
    }
  }

  /** step on a BREAKPOINT moves past it and touches nothing else. */
  lemma StepBreakpoint(s: Session, c: Code, op: Instr, fm: FloatModel)
    requires Gate(s).None? && Lookup(s.code, s.m.currentFrame) == Some(c)
    requires Fetch(c.instructions, s.m.ip) == Some(op) && op.opcode.Breakpoint?
    ensures StepCommand(s, fm) == (s.(m := s.m.(ip := s.m.ip + 1)), Consumed)
  {
  }

  /** step on an instruction that goes through: the VM's new state, one
      instruction further on. */
  lemma StepSuccess(s: Session, c: Code, op: Instr, fm: FloatModel)
    requires Gate(s).None? && Lookup(s.code, s.m.currentFrame) == Some(c)
    requires Fetch(c.instructions, s.m.ip) == Some(op) && !op.opcode.Breakpoint?
    requires DrivenOp(s.m, op, c.labels, fm).outcome == Ok
    ensures StepCommand(s, fm).0 == s.(m := Exec(s.m, op, c.labels, fm).next.(ip := Exec(s.m, op, c.labels, fm).next.ip + 1))
    ensures StepCommand(s, fm).1 == Executed || StepCommand(s, fm).1 == Crash
    ensures StepCommand(s, fm).1 == Crash <==> Lookup(s.code, Exec(s.m, op, c.labels, fm).next.currentFrame).None?
  {
  }

  /** step on an instruction that raises: `ip` stays, only what the
      operation popped or read is gone, and `fl` is set exactly when the
      exception came from vm.py. */
  lemma StepFault(s: Session, c: Code, op: Instr, fm: FloatModel, e: Exception, inVm: bool)
    requires Consistent(s.m)
    requires Gate(s).None? && Lookup(s.code, s.m.currentFrame) == Some(c)
    requires Fetch(c.instructions, s.m.ip) == Some(op) && !op.opcode.Breakpoint?
    requires DrivenOp(s.m, op, c.labels, fm).outcome == Raised(e, inVm)
    ensures StepCommand(s, fm).0.m.ip == s.m.ip
    ensures StepCommand(s, fm).0.m.variables == s.m.variables
    ensures StepCommand(s, fm).0.m.currentFrame == s.m.currentFrame
    ensures StepCommand(s, fm).0.fl == inVm
    ensures StepCommand(s, fm).1 == (if inVm then VmError(e) else DebuggerError(e))
  {
    if op != Instr(InputString, []) {
      FaultKeepsFrame(s.m, op, c.labels, fm);
    }
  }

  /** step on an argument-less INPUT_STRING: `MyIO.input_fn` fails on the
      str buffer, so the whole session stays as it was and the report is a
      debugger error, whatever the VM's input buffer holds. */
  lemma StepInputString(s: Session, c: Code, fm: FloatModel)
    requires Gate(s).None? && Lookup(s.code, s.m.currentFrame) == Some(c)
    requires Fetch(c.instructions, s.m.ip) == Some(Instr(InputString, []))
    ensures StepCommand(s, fm) == (s, DebuggerError(AttributeError))
    ensures NextCommand(s, 0, fm) == (s, DebuggerError(AttributeError))
  {
  }

  /** run at an argument-less INPUT_STRING stops on it in the same way,
      with nothing executed. */
  lemma RunInputString(s: Session, c: Code, fuel: nat, fm: FloatModel)
    requires Gate(s).None? && Lookup(s.code, s.m.currentFrame) == Some(c)
    requires Fetch(c.instructions, s.m.ip) == Some(Instr(InputString, [])) && fuel > 0
    ensures RunCommand(s, fuel, fm) == (s, DebuggerError(AttributeError))
  {
  }

  /** next on anything but a CALL is step. */
  lemma NextIsStep(s: Session, c: Code, op: Instr, fuel: nat, fm: FloatModel)
    requires Gate(s).None? && Lookup(s.code, s.m.currentFrame) == Some(c)
    requires Fetch(c.instructions, s.m.ip) == Some(op) && !op.opcode.Call?
    ensures NextCommand(s, fuel, fm) == StepCommand(s, fm)
  {
  }

  /** Inside a step-over `d` calls deep: the saved stacks begin with what
      they held before the CALL, then the CALL's own entries. */
  ghost predicate Above(m: Machine, base: Machine, d: nat)
  {
    && d >= 1
    && |m.savedIps| == |base.savedIps| + d
    && |m.frames| == |base.frames| + d
    && m.savedIps[..|base.savedIps| + 1] == base.savedIps + [SavedIp(base.currentFrame, base.ip)]
    && m.frames[..|base.frames| + 1] == base.frames + [base.variables]
  }

  /** Only CALL and RET touch the saved stacks. */
  lemma KeepsSaves(m: Machine, op: Instr, labels: map<string, nat>, fm: FloatModel)
    requires !op.opcode.Call? && !op.opcode.Ret?
    ensures Exec(m, op, labels, fm).next.frames == m.frames
    ensures Exec(m, op, labels, fm).next.savedIps == m.savedIps
  {
  }

  /** One successful instruction of a step-over moves the depth by the
      CALL or RET it is, and the RET at depth one restores the caller. */
  lemma ExecAbove(m: Machine, base: Machine, d: nat, op: Instr, labels: map<string, nat>, fm: FloatModel)
    requires Above(m, base, d) && Exec(m, op, labels, fm).outcome == Ok
    ensures op.opcode.Call? ==> Above(Exec(m, op, labels, fm).next, base, d + 1)
    ensures op.opcode.Ret? && d > 1 ==> Above(Exec(m, op, labels, fm).next, base, d - 1)
    ensures !op.opcode.Call? && !op.opcode.Ret? ==> Above(Exec(m, op, labels, fm).next, base, d)
    ensures op.opcode.Ret? && d == 1 ==>
      var next := Exec(m, op, labels, fm).next;
      && next.savedIps == base.savedIps && next.frames == base.frames
      && next.variables == base.variables && next.currentFrame == base.currentFrame && next.ip == base.ip
  {
    var next := Exec(m, op, labels, fm).next;
    if op.opcode.Call? {
      assert next.savedIps == m.savedIps + [SavedIp(m.currentFrame, m.ip)];
      assert next.savedIps[..|base.savedIps| + 1] == m.savedIps[..|base.savedIps| + 1];
      assert next.frames == m.frames + [m.variables];
      assert next.frames[..|base.frames| + 1] == m.frames[..|base.frames| + 1];
    } else if op.opcode.Ret? {
      assert next.savedIps == m.savedIps[..|m.savedIps| - 1];
      assert next.frames == m.frames[..|m.frames| - 1];
      if d == 1 {
        assert m.savedIps == base.savedIps + [SavedIp(base.currentFrame, base.ip)];
        assert m.frames == base.frames + [base.variables];
      } else {
        assert next.savedIps[..|base.savedIps| + 1] == m.savedIps[..|base.savedIps| + 1];
        assert next.frames[..|base.frames| + 1] == m.frames[..|base.frames| + 1];
      }
    } else {
      KeepsSaves(m, op, labels, fm);
    }
  }

  /** A step-over that ends by balancing its CALLs and RETs is back in the
      caller, just past the CALL, with the caller's variables. */
  lemma {:induction false} OverLoopReturns(s: Session, base: Machine, calls: nat, rets: nat, fuel: nat, fm: FloatModel)
    requires calls > rets && Above(s.m, base, calls - rets)
    requires OverLoop(s, calls, rets, fuel, fm).1 == Returned
    ensures OverLoop(s, calls, rets, fuel, fm).0 == s.(m := OverLoop(s, calls, rets, fuel, fm).0.m)
    ensures OverLoop(s, calls, rets, fuel, fm).0.m.savedIps == base.savedIps
    ensures OverLoop(s, calls, rets, fuel, fm).0.m.frames == base.frames
    ensures OverLoop(s, calls, rets, fuel, fm).0.m.variables == base.variables
    ensures OverLoop(s, calls, rets, fuel, fm).0.m.currentFrame == base.currentFrame
    ensures OverLoop(s, calls, rets, fuel, fm).0.m.ip == base.ip + 1
    decreases fuel
  {
    var done, s', calls', rets' := ReturnedTurn(s, base, calls, rets, fuel, fm);
    if !done {
      OverLoopReturns(s', base, calls', rets', fuel - 1, fm);
    }
    assert BackIn(OverLoop(s, calls, rets, fuel, fm).0, s, base);
  }

  /** A session back in the caller `base` was in: same program and flag,
      the caller's saved stacks, variables and function, just past its CALL. */
  ghost predicate BackIn(r: Session, s: Session, base: Machine)
  {
    && r == s.(m := r.m)
    && r.m.savedIps == base.savedIps && r.m.frames == base.frames
    && r.m.variables == base.variables && r.m.currentFrame == base.currentFrame
    && r.m.ip == base.ip + 1
  }

  /** One turn of a step-over that ends in `Returned`: either this turn's RET
      balances the CALLs (`done`), or the loop goes on from `s'`, still
      inside the call, with one unit of fuel less and the same result. */
  lemma ReturnedTurn(s: Session, base: Machine, calls: nat, rets: nat, fuel: nat, fm: FloatModel)
    returns (done: bool, s': Session, calls': nat, rets': nat)
    requires calls > rets && Above(s.m, base, calls - rets)
    requires OverLoop(s, calls, rets, fuel, fm).1 == Returned
    ensures done ==> BackIn(OverLoop(s, calls, rets, fuel, fm).0, s, base)
    ensures !done ==> && fuel > 0 && calls' > rets' && Above(s'.m, base, calls' - rets')
                      && s'.code == s.code && s'.fl == s.fl
                      && OverLoop(s', calls', rets', fuel - 1, fm) == OverLoop(s, calls, rets, fuel, fm)
  {
    var c := Lookup(s.code, s.m.currentFrame).value;
    var op := Fetch(c.instructions, s.m.ip).value;
    calls' := if op.opcode.Call? then calls + 1 else calls;
    rets' := if op.opcode.Ret? then rets + 1 else rets;
    var st := DrivenOp(s.m, op, c.labels, fm);
    ExecAbove(s.m, base, calls - rets, op, c.labels, fm);
    s' := s.(m := st.next.(ip := st.next.ip + 1));
    done := calls' == rets';
  }

  /** next that reports the called function's return has executed a CALL
      and stands on the instruction after it, in the caller, with the
      caller's variables and saved stacks. */
  lemma NextReturnsToCaller(s: Session, fuel: nat, fm: FloatModel)
    requires NextCommand(s, fuel, fm).1 == Returned
    ensures Gate(s).None?
    ensures Fetch(Lookup(s.code, s.m.currentFrame).value.instructions, s.m.ip).Some?
    ensures Fetch(Lookup(s.code, s.m.currentFrame).value.instructions, s.m.ip).value.opcode.Call?
    ensures NextCommand(s, fuel, fm).0 == s.(m := NextCommand(s, fuel, fm).0.m)
    ensures NextCommand(s, fuel, fm).0.m.ip == s.m.ip + 1
    ensures NextCommand(s, fuel, fm).0.m.currentFrame == s.m.currentFrame
    ensures NextCommand(s, fuel, fm).0.m.variables == s.m.variables
    ensures NextCommand(s, fuel, fm).0.m.frames == s.m.frames
    ensures NextCommand(s, fuel, fm).0.m.savedIps == s.m.savedIps
  {
    var c, op := NextReturnedCalls(s, fuel, fm);
    OverCallReturns(s, c, op, fuel, fm);
  }

  /** A next that reports a return took the CALL branch. */
  lemma NextReturnedCalls(s: Session, fuel: nat, fm: FloatModel) returns (c: Code, op: Instr)
    requires NextCommand(s, fuel, fm).1 == Returned
    ensures Gate(s).None? && Lookup(s.code, s.m.currentFrame) == Some(c)
    ensures Fetch(c.instructions, s.m.ip) == Some(op) && op.opcode.Call?
    ensures NextCommand(s, fuel, fm) == OverCall(s, c, op, fuel, fm)
  {
    c := Lookup(s.code, s.m.currentFrame).value;
    op := Fetch(c.instructions, s.m.ip).value;
  }

  /** The CALL branch of next, when it reports a return, ends just after
      the CALL in the caller's state. */
  lemma OverCallReturns(s: Session, c: Code, op: Instr, fuel: nat, fm: FloatModel)
    requires op.opcode.Call? && OverCall(s, c, op, fuel, fm).1 == Returned
    ensures OverCall(s, c, op, fuel, fm).0 == s.(m := OverCall(s, c, op, fuel, fm).0.m)
    ensures OverCall(s, c, op, fuel, fm).0.m.ip == s.m.ip + 1
    ensures OverCall(s, c, op, fuel, fm).0.m.currentFrame == s.m.currentFrame
    ensures OverCall(s, c, op, fuel, fm).0.m.variables == s.m.variables
    ensures OverCall(s, c, op, fuel, fm).0.m.frames == s.m.frames
    ensures OverCall(s, c, op, fuel, fm).0.m.savedIps == s.m.savedIps
  {
    var st := Exec(s.m, op, c.labels, fm);
    var s1 := s.(m := st.next.(ip := st.next.ip + 1));
    assert s1.m.savedIps == s.m.savedIps + [SavedIp(s.m.currentFrame, s.m.ip)];
    assert s1.m.frames == s.m.frames + [s.m.variables];
    OverLoopReturns(s1, s.m, 1, 0, fuel, fm);
  }

  /** StopIteration comes only from an argument-less BREAKPOINT, which
      changes nothing. */
  lemma StopAtBreakpoint(m: Machine, op: Instr, labels: map<string, nat>, fm: FloatModel)
    requires Exec(m, op, labels, fm).outcome.Raised? && Exec(m, op, labels, fm).outcome.exc == StopIteration
    ensures op == Instr(Breakpoint, []) && Exec(m, op, labels, fm).next == m
  {
  }

  /** The same for an instruction as step, run and next drive it. */
  lemma DrivenStop(m: Machine, op: Instr, labels: map<string, nat>, fm: FloatModel)
    requires DrivenOp(m, op, labels, fm).outcome.Raised? && DrivenOp(m, op, labels, fm).outcome.exc == StopIteration
    ensures op == Instr(Breakpoint, []) && DrivenOp(m, op, labels, fm).next == m
  {
    StopAtBreakpoint(m, op, labels, fm);
  }

  /** The instruction just before `ip` in the current function is an
      argument-less BREAKPOINT. */
  predicate PastBreakpoint(s: Session)
  {
    match Lookup(s.code, s.m.currentFrame)
    case None => false
    case Some(c) => Fetch(c.instructions, s.m.ip - 1) == Some(Instr(Breakpoint, []))
  }

  /** The loop of run, when it stops at a BREAKPOINT, stands just past it. */
  lemma {:induction false} RunLoopStops(s: Session, fuel: nat, fm: FloatModel)
    requires RunLoop(s, fuel, fm).1 == Stopped
    ensures RunLoop(s, fuel, fm).0.code == s.code && RunLoop(s, fuel, fm).0.fl == s.fl
    ensures PastBreakpoint(RunLoop(s, fuel, fm).0)
    decreases fuel
  {
    var more, s' := StopsTurn(s, fuel, fm);
    if more {
      RunLoopStops(s', fuel - 1, fm);
    }
  }

  /** One turn of a run loop that ends at a BREAKPOINT: either this turn
      raised StopIteration, or the loop goes on from `s'` with one unit of
      fuel less and the same result. */
  lemma StopsTurn(s: Session, fuel: nat, fm: FloatModel) returns (more: bool, s': Session)
    requires RunLoop(s, fuel, fm).1 == Stopped
    ensures more ==> && fuel > 0 && s'.code == s.code && s'.fl == s.fl
                     && RunLoop(s', fuel - 1, fm) == RunLoop(s, fuel, fm)
    ensures !more ==> RunLoop(s, fuel, fm).0.fl == s.fl && PastBreakpoint(RunLoop(s, fuel, fm).0)
  {
    var c := Lookup(s.code, s.m.currentFrame).value;
    var op := Fetch(c.instructions, s.m.ip).value;
    var st := DrivenOp(s.m, op, c.labels, fm);
    if st.outcome.Ok? {
      more, s' := true, s.(m := st.next.(ip := st.next.ip + 1));
    } else {
      more, s' := false, s;
      DrivenStop(s.m, op, c.labels, fm);
      var r := s.(m := s.m.(ip := s.m.ip + 1));
      assert RunLoop(s, fuel, fm).0 == r;
      assert Fetch(c.instructions, r.m.ip - 1) == Some(op);
    }
  }

  /** run that stops at a BREAKPOINT leaves `ip` just past it. */
  lemma RunStopsPastBreakpoint(s: Session, fuel: nat, fm: FloatModel)
    requires RunCommand(s, fuel, fm).1 == Stopped
    ensures !RunCommand(s, fuel, fm).0.fl && RunCommand(s, fuel, fm).0.code == s.code
    ensures PastBreakpoint(RunCommand(s, fuel, fm).0)
  {
    RunLoopStops(s, fuel, fm);
  }

  /** Over a consistent VM the loop of run sets `fl` exactly when it stops
      on an exception raised in vm.py, and keeps the VM consistent. */
  lemma {:induction false} RunLoopFlag(s: Session, fuel: nat, fm: FloatModel)
    requires Consistent(s.m) && !s.fl
    ensures RunLoop(s, fuel, fm).0.fl <==> RunLoop(s, fuel, fm).1.VmError?
    ensures RunLoop(s, fuel, fm).0.code == s.code
    ensures Consistent(RunLoop(s, fuel, fm).0.m)
    ensures RunLoop(s, fuel, fm).1.VmError? ==> Lookup(s.code, RunLoop(s, fuel, fm).0.m.currentFrame).Some?
    decreases fuel
  {
    match Lookup(s.code, s.m.currentFrame)
    case None =>
    case Some(c) =>
      if s.m.ip < |c.instructions| && fuel > 0 && Fetch(c.instructions, s.m.ip).Some? {
        var op := Fetch(c.instructions, s.m.ip).value;
        var st := DrivenOp(s.m, op, c.labels, fm);
        ExecConsistent(s.m, op, c.labels, fm);
        if st.outcome.Ok? {
          RunLoopFlag(s.(m := st.next.(ip := st.next.ip + 1)), fuel - 1, fm);
        } else if op != Instr(InputString, []) {
          FaultKeepsFrame(s.m, op, c.labels, fm);
        }
      }
  }

  /** run on a consistent VM sets `fl` exactly when a VM error stopped it. */
  lemma RunFlag(s: Session, fuel: nat, fm: FloatModel)
    requires Consistent(s.m) && !s.fl
    ensures RunCommand(s, fuel, fm).0.fl <==> RunCommand(s, fuel, fm).1.VmError?
    ensures Consistent(RunCommand(s, fuel, fm).0.m)
  {
    RunLoopFlag(s, fuel, fm);
  }

  /** No function of the program holds an argument-less INPUT_STRING, the
      one instruction that step, run and next drive differently from
      `run_code`. */
  predicate ReadsNoString(code: map<string, Code>)
  {
    forall name :: name in code ==> Instr(InputString, []) !in code[name].instructions
  }

  /** In such a program, every instruction run fetches is run as `run_op`
      runs it. */
  lemma DrivenInProgram(s: Session, c: Code, fm: FloatModel)
    requires ReadsNoString(s.code) && Lookup(s.code, s.m.currentFrame) == Some(c)
    requires Fetch(c.instructions, s.m.ip).Some?
    ensures var op := Fetch(c.instructions, s.m.ip).value;
      DrivenOp(s.m, op, c.labels, fm) == Exec(s.m, op, c.labels, fm)
  {
    if s.m.ip < 0 {
      FetchFromEnd(c.instructions, s.m.ip);
    }
    assert Fetch(c.instructions, s.m.ip).value in c.instructions;
  }

  /** The loop of run finishes exactly when `run_code`'s loop over the same
      functions does, in the same state, for a program without an
      argument-less INPUT_STRING. */
  lemma {:induction false} RunLoopAgrees(s: Session, entry: Value, fuel: nat, fm: FloatModel)
    requires ReadsNoString(s.code)
    ensures RunLoop(s, fuel, fm).1 == Completed <==> Loop(s.m, Table(Named(s.code), entry), fuel, fm).1.Finished?
    ensures RunLoop(s, fuel, fm).1 == Completed ==>
      RunLoop(s, fuel, fm).0 == s.(m := Loop(s.m, Table(Named(s.code), entry), fuel, fm).0)
    decreases fuel
  {
    var more, s' := AgreeTurn(s, entry, fuel, fm);
    if more {
      RunLoopAgrees(s', entry, fuel - 1, fm);
    }
  }

  /** One turn of both loops: either both end here, agreeing, or both go on
      from the same next state with one unit of fuel less. */
  lemma AgreeTurn(s: Session, entry: Value, fuel: nat, fm: FloatModel) returns (more: bool, s': Session)
    requires ReadsNoString(s.code)
    ensures more ==> && fuel > 0 && s'.code == s.code
                     && RunLoop(s', fuel - 1, fm) == RunLoop(s, fuel, fm)
                     && Loop(s'.m, Table(Named(s.code), entry), fuel - 1, fm) == Loop(s.m, Table(Named(s.code), entry), fuel, fm)
                     && s' == s.(m := s'.m)
    ensures !more ==> (RunLoop(s, fuel, fm).1 == Completed <==> Loop(s.m, Table(Named(s.code), entry), fuel, fm).1.Finished?)
    ensures !more && RunLoop(s, fuel, fm).1 == Completed ==>
      RunLoop(s, fuel, fm).0 == s.(m := Loop(s.m, Table(Named(s.code), entry), fuel, fm).0)
  {
    var t := Table(Named(s.code), entry);
    assert CodeOf(t, s.m.currentFrame) == Lookup(s.code, s.m.currentFrame);
    more, s' := false, s;
    match Lookup(s.code, s.m.currentFrame)
    case None =>
    case Some(c) =>
      if s.m.ip < |c.instructions| && fuel > 0 && Fetch(c.instructions, s.m.ip).Some? {
        var op := Fetch(c.instructions, s.m.ip).value;
        DrivenInProgram(s, c, fm);
        var st := Exec(s.m, op, c.labels, fm);
        if st.outcome.Ok? {
          more, s' := true, s.(m := st.next.(ip := st.next.ip + 1));
        }
      }
  }

  /** On a program without an argument-less INPUT_STRING, run reaches the
      end exactly when `run_code` on the loaded functions returns, and ends
      in the state `run_code` ends in. */
  lemma RunIsRunCode(s: Session, fuel: nat, fm: FloatModel)
    requires Gate(s).None? && ReadsNoString(s.code)
    ensures RunCommand(s, fuel, fm).1 == Completed <==> Run(s.m, Named(s.code), fuel, fm).1.Finished?
    ensures RunCommand(s, fuel, fm).1 == Completed ==>
      RunCommand(s, fuel, fm).0 == s.(m := Run(s.m, Named(s.code), fuel, fm).0)
  {
    RunLoopAgrees(s, s.m.currentFrame, fuel, fm);
    var t := Table(Named(s.code), s.m.currentFrame);
    if Loop(s.m, t, fuel, fm).1.Finished? {
      LoopFinishes(s.m, t, fuel, fm);
      assert CodeOf(t, Loop(s.m, t, fuel, fm).0.currentFrame) == Lookup(s.code, Loop(s.m, t, fuel, fm).0.currentFrame);
    }
  }

  /** exec never touches `fl` or the program, and on a consistent VM a
      failing exec changes at most the stack and the input buffer. */
  lemma ExecKeeps(s: Session, arg: string, fm: FloatModel)
    requires Consistent(s.m)
    ensures ExecCommand(s, arg, fm).0.fl == s.fl && ExecCommand(s, arg, fm).0.code == s.code
    ensures ExecCommand(s, arg, fm).1 != Executed ==>
      ExecCommand(s, arg, fm).0.m == s.m.(stack := ExecCommand(s, arg, fm).0.m.stack, input := ExecCommand(s, arg, fm).0.m.input)
  {
    if !s.fl && s.code != map[] {
      var parts := PyText.Fields(arg);
      if parts != [] && FromName(parts[0]).Some? && Lookup(s.code, s.m.currentFrame).Some? {
        var op := Instr(FromName(parts[0]).value, Parser.Converted(parts[1..]));
        var c := Lookup(s.code, s.m.currentFrame).value;
        if Exec(s.m, op, c.labels, fm).outcome.Raised? {
          FaultKeepsFrame(s.m, op, c.labels, fm);
        }
      }
    }
  }

  /** The list window: at most eleven consecutive rows from `max(0, ip-5)`,
      all inside the function, the current one marked; `ip` is shown
      exactly when it points into the function. */
  lemma ListWindow(s: Session, c: Code)
    requires Lookup(s.code, s.m.currentFrame) == Some(c)
    ensures ListCommand(s).Window?
    ensures |ListCommand(s).rows| <= 11
    ensures forall k :: 0 <= k < |ListCommand(s).rows| ==>
      && ListCommand(s).rows[k].index == Max(0, s.m.ip - 5) + k
      && ListCommand(s).rows[k].index < |c.instructions|
      && ListCommand(s).rows[k].instr == c.instructions[ListCommand(s).rows[k].index]
      && (ListCommand(s).rows[k].current <==> ListCommand(s).rows[k].index == s.m.ip)
    ensures (exists k :: 0 <= k < |ListCommand(s).rows| && ListCommand(s).rows[k].current) <==> 0 <= s.m.ip < |c.instructions|
  {
    var rows := ListCommand(s).rows;
    if 0 <= s.m.ip < |c.instructions| {
      var k := s.m.ip - Max(0, s.m.ip - 5);
      assert rows[k].current;
    }
  }

  /** `stack` shows the whole stack, top first. */
  lemma StackWhole(s: Session)
    requires s.code != map[] && s.m.stack != []
    ensures StackCommand(s, "").Whole?
    ensures |StackCommand(s, "").top| == |s.m.stack|
    ensures forall i :: 0 <= i < |s.m.stack| ==> StackCommand(s, "").top[i] == s.m.stack[|s.m.stack| - 1 - i]
  {
  }

  /** `stack N` shows the top N entries of the stack, top first, for exactly
      the N from 1 to the stack's size. */
  lemma StackView(s: Session, arg: string, w: string, n: int)
    requires s.code != map[] && s.m.stack != []
    requires arg != "" && PyText.Fields(arg) == [w] && Convert.ParseInt(w) == Some(n)
    ensures StackCommand(s, arg) == StackSlice(TopFirst(s.m.stack), n)
    ensures StackCommand(s, arg).Part? <==> 1 <= n <= |s.m.stack|
    ensures StackCommand(s, arg) == OutOfRange(|s.m.stack|) <==> n < 0 || n > |s.m.stack|
    ensures StackCommand(s, arg) == NoElements <==> n == 0
    ensures StackCommand(s, arg).Part? ==>
      && |StackCommand(s, arg).top| == n
      && forall i :: 0 <= i < n ==> StackCommand(s, arg).top[i] == s.m.stack[|s.m.stack| - 1 - i]
  {
    SliceOfTop(s.m.stack, n);
  }

  lemma SliceOfTop(stack: seq<Value>, n: int)
    ensures StackSlice(TopFirst(stack), n).Part? <==> 1 <= n <= |stack|
    ensures StackSlice(TopFirst(stack), n) == OutOfRange(|stack|) <==> n < 0 || n > |stack|
    ensures StackSlice(TopFirst(stack), n) == NoElements <==> n == 0
    ensures StackSlice(TopFirst(stack), n).Part? ==>
      && |StackSlice(TopFirst(stack), n).top| == n
      && forall i :: 0 <= i < n ==> StackSlice(TopFirst(stack), n).top[i] == stack[|stack| - 1 - i]
  {
    if 1 <= n <= |stack| {
      TopEntries(stack, n);
    }
  }

  lemma TopEntries(stack: seq<Value>, n: nat)
    requires n <= |stack|
    ensures |TopFirst(stack)[..n]| == n
    ensures forall i :: 0 <= i < n ==> TopFirst(stack)[..n][i] == stack[|stack| - 1 - i]
  {
  }
}
