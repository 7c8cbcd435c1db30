/** The commands of the XVM debugger (`xvm_debug` in task0/xvm/run.py) that
    act on the VM: load, step, run, next and exec, and the read-only views
    list and stack.  A `Session` is the debugger's state: the VM (with the
    buffers of its I/O object), the parsed program `code` and the fault flag
    `fl`.  Each command is a function from a session to the next session and
    a `Report` saying which way the command went; the class `Debugger` runs
    the commands in place and is proved against those functions. */
module Debug {
  import opened Values
  import opened Interpreter
  import opened InterpreterFacts
  import PyText
  import Convert
  import Parser
  import Sections

  /** Why run, step, next or exec declines to execute: the fault flag is
      set, no program is loaded, or `ip` is already at the end. */
  datatype Refusal = Crashed | NoProgram | AtEnd

  /** How a command ended. */
  datatype Report =
    | Refused(why: Refusal)
    | NotFound                      // load: no readable file
    | Loaded                        // load: every function parsed
    | Usage                         // exec without an opcode
    | Consumed                      // step or next on a BREAKPOINT
    | Executed                      // one instruction ran without raising
    | Returned                      // next: the called function came back
    | Completed                     // run or next: ip reached the end of its function
    | Stopped                       // run or next: a BREAKPOINT raised StopIteration
    | EndReached                    // next: an IndexError ended the step-over
    | VmError(exc: Exception)       // raised inside vm.py
    | DebuggerError(exc: Exception) // raised outside vm.py
    | UnknownOpcode                 // exec: a KeyError
    | Exhausted                     // run or next: the fuel ran out (model only)
    | Crash                         // an exception left `xvm_debug`: the session is over

  datatype Session = Session(m: Machine, code: map<string, Code>, fl: bool)

  /** `code[frame]`; None is a KeyError. */
  function Lookup(code: map<string, Code>, frame: Value): Option<Code>
  {
    if frame.StrV? && frame.s in code then Some(code[frame.s]) else None
  }

  /** The checks run, step and next make before executing anything.  The
      lookup of the current function is not guarded, so a missing function
      raises KeyError out of the debugger. */
  function Gate(s: Session): Option<Report>
  {
    if s.fl then Some(Refused(Crashed))
    else if s.code == map[] then Some(Refused(NoProgram))
    else match Lookup(s.code, s.m.currentFrame)
      case None => Some(Crash)
      case Some(c) => if s.m.ip >= |c.instructions| then Some(Refused(AtEnd)) else None
  }

  /** The closing `ip >= len(code[current_frame]['instructions'])` test,
      whose lookup is outside every `try`. */
  function Settle(s: Session, r: Report): (Session, Report)
  {
    if Lookup(s.code, s.m.currentFrame).None? then (s, Crash) else (s, r)
  }

  /** What step does with the outcome of `run_op`: `ip += 1` after success;
      after an exception `ip` stays, and only one raised in vm.py sets `fl`. */
  function AfterOp(s: Session, st: Interpreter.Step): (Session, Report)
  {
    match st.outcome
    case Ok => (s.(m := st.next.(ip := st.next.ip + 1)), Executed)
    case Raised(e, inVm) =>
      if inVm then (s.(m := st.next, fl := true), VmError(e))
      else (s.(m := st.next), DebuggerError(e))
  }

  /** `run_op` as step, run and next drive it.  Before an INPUT_STRING they
      read a console line and install `MyIO(line)`, whose buffer is then a
      str: once vm.py has checked that there are no arguments, `pop(0)`
      raises AttributeError in run.py and the VM is left as it was.  Any
      other instruction runs as `run_op` does. */
  function DrivenOp(m: Machine, op: Instr, labels: map<string, nat>, fm: FloatModel): Interpreter.Step
  {
    if op == Instr(InputString, []) then Interpreter.Step(m, Raised(AttributeError, false))
    else Exec(m, op, labels, fm)
  }

  /** One fetched instruction as step executes it: a BREAKPOINT is consumed
      by moving past it, without `run_op`. */
  function StepAt(s: Session, c: Code, op: Instr, fm: FloatModel): (Session, Report)
  {
    if op.opcode.Breakpoint? then (s.(m := s.m.(ip := s.m.ip + 1)), Consumed)
    else AfterOp(s, DrivenOp(s.m, op, c.labels, fm))
  }

  /** `step`; fetching the instruction is outside every `try`. */
  function StepCommand(s: Session, fm: FloatModel): (r: (Session, Report))
    ensures r.0.code == s.code && (r.1.VmError? ==> r.0.fl)
    ensures r.0.fl ==> s.fl || r.1.VmError? || r.1 == Crash
  {
    if Gate(s).Some? then (s, Gate(s).value)
    else
      var c := Lookup(s.code, s.m.currentFrame).value;
      match Fetch(c.instructions, s.m.ip)
      case None => (s, Crash)
      case Some(op) => var (s', r) := StepAt(s, c, op, fm); Settle(s', r)
  }

  /** The `try` loop of `run`, executing at most `fuel` instructions. */
  function RunLoop(s: Session, fuel: nat, fm: FloatModel): (r: (Session, Report))
    ensures r.0.code == s.code && (r.0.fl <==> s.fl || r.1.VmError?)
    decreases fuel
  {
    match Lookup(s.code, s.m.currentFrame)
    case None => (s, DebuggerError(KeyError))
    case Some(c) =>
      if s.m.ip >= |c.instructions| then (s, Completed)
      else if fuel == 0 then (s, Exhausted)
      else match Fetch(c.instructions, s.m.ip)
        case None => (s, DebuggerError(IndexError))
        case Some(op) =>
          var st := DrivenOp(s.m, op, c.labels, fm);
          match st.outcome
          case Ok => RunLoop(s.(m := st.next.(ip := st.next.ip + 1)), fuel - 1, fm)
          case Raised(e, _) =>
            if e == StopIteration then (s.(m := st.next.(ip := st.next.ip + 1)), Stopped)
            else AfterOp(s, st)
  }

  /** `run` */
  function RunCommand(s: Session, fuel: nat, fm: FloatModel): (r: (Session, Report))
    ensures r.0.code == s.code && (r.1.VmError? ==> r.0.fl)
    ensures r.0.fl ==> s.fl || r.1.VmError? || r.1 == Crash
  {
    if Gate(s).Some? then (s, Gate(s).value)
    else var (s', r) := RunLoop(s, fuel, fm); Settle(s', r)
  }

  /** The step-over loop of `next`: the CALLs and RETs met so far are counted
      before each `run_op`, and the loop stops once they are equal. */
  function OverLoop(s: Session, calls: nat, rets: nat, fuel: nat, fm: FloatModel): (r: (Session, Report))
    ensures r.0.code == s.code && (r.0.fl <==> s.fl || r.1.VmError?)
    decreases fuel
  {
    match Lookup(s.code, s.m.currentFrame)
    case None => (s, DebuggerError(KeyError))
    case Some(c) =>
      if s.m.ip >= |c.instructions| then (s, Completed)
      else if fuel == 0 then (s, Exhausted)
      else match Fetch(c.instructions, s.m.ip)
        case None => (s, EndReached)
        case Some(op) =>
          var calls' := if op.opcode.Call? then calls + 1 else calls;
          var rets' := if op.opcode.Ret? then rets + 1 else rets;
          var st := DrivenOp(s.m, op, c.labels, fm);
          match st.outcome
          case Ok =>
            var s' := s.(m := st.next.(ip := st.next.ip + 1));
            if calls' == rets' then (s', Returned) else OverLoop(s', calls', rets', fuel - 1, fm)
          case Raised(e, _) =>
            if e == StopIteration then (s.(m := st.next.(ip := st.next.ip + 1)), Stopped)
            else if e == IndexError then (s.(m := st.next), EndReached)
            else AfterOp(s, st)
  }

  /** `next`: like step unless the instruction is a CALL, which is executed
      outside any `try` and then stepped over. */
  function NextCommand(s: Session, fuel: nat, fm: FloatModel): (r: (Session, Report))
    ensures r.0.code == s.code && (r.1.VmError? ==> r.0.fl)
    ensures r.0.fl ==> s.fl || r.1.VmError? || r.1 == Crash
  {
    if Gate(s).Some? then (s, Gate(s).value)
    else
      var c := Lookup(s.code, s.m.currentFrame).value;
      match Fetch(c.instructions, s.m.ip)
      case None => (s, Crash)
      case Some(op) =>
        if !op.opcode.Call? then
          var (s', r) := StepAt(s, c, op, fm); Settle(s', r)
        else OverCall(s, c, op, fuel, fm)
  }

  /** next on a CALL: the CALL itself, then the step-over loop. */
  function OverCall(s: Session, c: Code, op: Instr, fuel: nat, fm: FloatModel): (Session, Report)
  {
    var st := Exec(s.m, op, c.labels, fm);
    if st.outcome.Raised? then (s.(m := st.next), Crash)
    else
      var (s', r) := OverLoop(s.(m := st.next.(ip := st.next.ip + 1)), 1, 0, fuel, fm);
      Settle(s', r)
  }

  /** How exec reports the outcome of `run_op`: every KeyError reads as an
      unknown opcode. */
  function ExecReport(o: Outcome): Report
  {
    match o
    case Ok => Executed
    case Raised(e, inVm) =>
      if e == KeyError then UnknownOpcode
      else if inVm then VmError(e)
      else DebuggerError(e)
  }

  /** `exec <OPCODE> <args>`: one instruction built from the line, run in the
      current function with no `ip += 1` and without touching `fl`. */
  function ExecCommand(s: Session, arg: string, fm: FloatModel): (r: (Session, Report))
    ensures r.0.code == s.code && r.0.fl == s.fl
  {
    if s.fl then (s, Refused(Crashed))
    else if s.code == map[] then (s, Refused(NoProgram))
    else
      var parts := PyText.Fields(arg);
      if parts == [] then (s, Usage)
      else match FromName(parts[0])
        case None => (s, UnknownOpcode)
        case Some(opcode) =>
          match Lookup(s.code, s.m.currentFrame)
          case None => (s, UnknownOpcode)
          case Some(c) =>
            var st := Exec(s.m, Instr(opcode, Parser.Converted(parts[1..])), c.labels, fm);
            (s.(m := st.next), ExecReport(st.outcome))
  }

  /** `f` applied to every text, or None when it fails on one of them. */
  function MapAll<T>(texts: map<string, string>, f: string -> Parser.Result<T>): Option<map<string, T>>
  {
    if forall name :: name in texts ==> f(texts[name]).Ok? then
      Some(map name | name in texts :: f(texts[name]).value)
    else None
  }

  /** `parse_string` of every function text, or None when one of them raises
      (which load does not catch). */
  function ParseAll(texts: map<string, string>): Option<map<string, Code>>
  {
    MapAll(texts, Parser.ParseText)
  }

  /** Every function in `parsed` is what `parse_string` makes of its text. */
  ghost predicate Agrees(texts: map<string, string>, parsed: map<string, Code>)
  {
    forall name :: name in parsed ==> name in texts && Parser.ParseText(texts[name]) == Parser.Ok(parsed[name])
  }

  /** A map holding what `f` makes of every text is the one `MapAll` builds. */
  lemma MapAllOf<T>(texts: map<string, string>, parsed: map<string, T>, f: string -> Parser.Result<T>)
    requires parsed.Keys == texts.Keys
    requires forall name :: name in parsed ==> f(texts[name]) == Parser.Ok(parsed[name])
    ensures MapAll(texts, f) == Some(parsed)
  {
    forall name | name in texts
      ensures f(texts[name]).Ok?
    {
      assert name in parsed;
    }
    var all := map name | name in texts :: f(texts[name]).value;
    assert all.Keys == texts.Keys;
    forall name | name in all
      ensures all[name] == parsed[name]
    {
      assert name in parsed;
    }
    assert all == parsed;
  }

  lemma AgreesAll(texts: map<string, string>, parsed: map<string, Code>)
    requires parsed.Keys == texts.Keys && Agrees(texts, parsed)
    ensures ParseAll(texts) == Some(parsed)
  {
    MapAllOf(texts, parsed, Parser.ParseText);
  }

  /** The VM state load leaves behind; the I/O buffers are kept. */
  function Reset(m: Machine): Machine
  {
    m.(stack := [], variables := map[], frames := [], savedIps := [], ip := 0, currentFrame := StrV(EntryPoint))
  }

  /** `load <path>`, given the file's text (None when there is no readable
      file).  The fault flag is cleared first, whatever happens next. */
  function LoadCommand(s: Session, file: Option<string>): (r: (Session, Report))
    ensures !r.0.fl
    ensures r.1 == Loaded || r.0 == s.(fl := false)
  {
    match file
    case None => (s.(fl := false), NotFound)
    case Some(text) =>
      match ParseAll(Sections.FunctionTexts(text))
      case None => (s.(fl := false), Crash)
      case Some(code) => (Session(Reset(s.m), code, false), Loaded)
  }

  function Max(a: int, b: int): int { if a < b then b else a }
  function Min(a: int, b: int): int { if a < b then a else b }

  /** A line of the list view: index, whether `ip` points at it, the instruction. */
  datatype Row = Row(index: nat, current: bool, instr: Instr)

  /** What list shows: with no program it ends the debugger (`return`), a
      missing current function raises, and otherwise a window of rows. */
  datatype Listing = Quit | Crashes | Window(rows: seq<Row>)

  /** `list`: the indices `max(0, ip-5)` up to `min(len, ip+6) - 1`. */
  function ListCommand(s: Session): Listing
  {
    if s.code == map[] then Quit
    else match Lookup(s.code, s.m.currentFrame)
      case None => Crashes
      case Some(c) =>
        var start := Max(0, s.m.ip - 5);
        var n := Max(0, Min(|c.instructions|, s.m.ip + 6) - start);
        Window(seq(n, k requires 0 <= k < n => Row(start + k, start + k == s.m.ip, c.instructions[start + k])))
  }

  /** What `stack [N]` shows. */
  datatype StackView =
    | NoProgramLoaded
    | EmptyStack
    | Whole(top: seq<Value>)        // no argument: the whole stack, top first
    | Part(top: seq<Value>)         // the top N entries, top first
    | NotNumber                     // `int()` rejected the argument
    | OutOfRange(size: nat)
    | NoElements                    // N is 0
    | Incorrect                     // more than one argument

  /** `list(reversed(stack))` */
  function TopFirst(stack: seq<Value>): seq<Value>
  {
    seq(|stack|, i requires 0 <= i < |stack| => stack[|stack| - 1 - i])
  }

  /** `stack [N]` */
  function StackCommand(s: Session, arg: string): StackView
  {
    if s.code == map[] then NoProgramLoaded
    else if s.m.stack == [] then EmptyStack
    else
      var top := TopFirst(s.m.stack);
      if arg == "" then Whole(top)
      else
        var parts := PyText.Fields(arg);
        if |parts| != 1 then Incorrect
        else match Convert.ParseInt(parts[0])
          case None => NotNumber
          case Some(n) => StackSlice(top, n)
  }

  /** `list_stack[0:N]` after the range check. */
  function StackSlice(top: seq<Value>, n: int): StackView
  {
    if n < 0 || n > |top| then OutOfRange(|top|)
    else if n == 0 then NoElements
    else Part(top[..n])
  }

  /** The debugger: a VM, the loaded functions and the fault flag. */
  class Debugger {
    const vm: VM
    var code: map<string, Code>
    var fl: bool

    function State(): Session
      reads this, vm, vm.io
    {
      Session(vm.State(), code, fl)
    }

    /** The start of `xvm_debug`: a fresh VM, no program, no fault. */
    constructor (io: MyIO, fm: FloatModel)
      ensures fresh(vm) && vm.io == io && vm.fm == fm
      ensures State() == Session(Fresh(io.inBuffer).(output := io.outBuffer), map[], false)
    {
      vm := new VM(io, fm);
      code := map[];
      fl := false;
    }

    /** `load` */
    method Load(file: Option<string>) returns (report: Report)
      modifies this, vm
      ensures (State(), report) == LoadCommand(old(State()), file)
    {
      fl := false;
      if file.None? {
        return NotFound;
      }
      var texts := Sections.ParseText(file.value);
      var parsed := ParseFunctions(texts);
      if parsed.None? {
        return Crash;
      }
      code := parsed.value;
      vm.stack := [];
      vm.variables := map[];
      vm.ip := 0;
      vm.currentFrame := StrV(EntryPoint);
      vm.frames := [];
      vm.savedIps := [];
      report := Loaded;
    }

    /** The loop of load calling `parse_string` on every function text. */
    static method ParseFunctions(texts: map<string, string>) returns (r: Option<map<string, Code>>)
      ensures r == ParseAll(texts)
    {
      var parsed: map<string, Code> := map[];
      var todo := texts.Keys;
      while todo != {}
        invariant todo <= texts.Keys
        invariant parsed.Keys == texts.Keys - todo
        invariant Agrees(texts, parsed)
        decreases todo
      {
        var name :| name in todo;
        var p := Parser.ParseString(texts[name]);
        if p.Err? {
          return None;
        }
        parsed := parsed[name := p.value];
        todo := todo - {name};
      }
      AgreesAll(texts, parsed);
      r := Some(parsed);
    }

    /** `run_op` as step, run and next drive it. */
    method Drive(op: Instr, labels: map<string, nat>) returns (outcome: Outcome)
      modifies vm, vm.io
      ensures Interpreter.Step(vm.State(), outcome) == DrivenOp(old(vm.State()), op, labels, vm.fm)
    {
      if op == Instr(InputString, []) {
        return Raised(AttributeError, false);
      }
      outcome := vm.RunOp(op, labels);
    }

    /** Run one fetched instruction as step does. */
    method Perform(op: Instr, c: Code) returns (report: Report)
      modifies this, vm, vm.io
      ensures (State(), report) == StepAt(old(State()), c, op, vm.fm)
    {
      if op.opcode.Breakpoint? {
        vm.ip := vm.ip + 1;
        return Consumed;
      }
      var outcome := Drive(op, c.labels);
      match outcome
      case Ok =>
        vm.ip := vm.ip + 1;
        report := Executed;
      case Raised(e, inVm) =>
        if inVm {
          fl := true;
          report := VmError(e);
        } else {
          report := DebuggerError(e);
        }
    }

    /** `step` */
    method Step() returns (report: Report)
      modifies this, vm, vm.io
      ensures (State(), report) == StepCommand(old(State()), vm.fm)
    {
      if fl {
        return Refused(Crashed);
      }
      if code == map[] {
        return Refused(NoProgram);
      }
      var c := Lookup(code, vm.currentFrame);
      if c.None? {
        return Crash;
      }
      if vm.ip >= |c.value.instructions| {
        return Refused(AtEnd);
      }
      var op := Fetch(c.value.instructions, vm.ip);
      if op.None? {
        return Crash;
      }
      report := Perform(op.value, c.value);
      if Lookup(code, vm.currentFrame).None? {
        report := Crash;
      }
    }

    /** `run`, executing at most `fuel` instructions. */
    method Run(fuel: nat) returns (report: Report)
      modifies this, vm, vm.io
      ensures (State(), report) == RunCommand(old(State()), fuel, vm.fm)
    {
      if fl {
        return Refused(Crashed);
      }
      if code == map[] {
        return Refused(NoProgram);
      }
      var first := Lookup(code, vm.currentFrame);
      if first.None? {
        return Crash;
      }
      if vm.ip >= |first.value.instructions| {
        return Refused(AtEnd);
      }
      report := RunLoopMethod(fuel);
      if Lookup(code, vm.currentFrame).None? {
        report := Crash;
      }
    }

    /** The loop of `run`, executing at most `fuel` instructions. */
    method RunLoopMethod(fuel: nat) returns (report: Report)
      modifies this, vm, vm.io
      ensures (State(), report) == RunLoop(old(State()), fuel, vm.fm)
    {
      var left := fuel;
      while true
        invariant RunLoop(State(), left, vm.fm) == RunLoop(old(State()), fuel, vm.fm)
        decreases left
      {
        var done;
        done, report := RunTurn(left);
        if done {
          break;
        }
        left := left - 1;
      }
    }

    /** One pass of the loop of `run`: `done` when the loop ends here. */
    method RunTurn(left: nat) returns (done: bool, report: Report)
      modifies this, vm, vm.io
      ensures done ==> (State(), report) == RunLoop(old(State()), left, vm.fm)
      ensures !done ==> left > 0 && RunLoop(State(), left - 1, vm.fm) == RunLoop(old(State()), left, vm.fm)
    {
      done := true;
      var c := Lookup(code, vm.currentFrame);
      if c.None? {
        return true, DebuggerError(KeyError);
      }
      if vm.ip >= |c.value.instructions| {
        return true, Completed;
      }
      if left == 0 {
        return true, Exhausted;
      }
      var op := Fetch(c.value.instructions, vm.ip);
      if op.None? {
        return true, DebuggerError(IndexError);
      }
      var outcome := Drive(op.value, c.value.labels);
      if outcome.Raised? {
        if outcome.exc == StopIteration {
          vm.ip := vm.ip + 1;
          report := Stopped;
        } else if outcome.inVm {
          fl := true;
          report := VmError(outcome.exc);
        } else {
          report := DebuggerError(outcome.exc);
        }
        return;
      }
      vm.ip := vm.ip + 1;
      done, report := false, Executed;
    }

    /** `next`, stepping over a CALL with at most `fuel` instructions. */
    method Next(fuel: nat) returns (report: Report)
      modifies this, vm, vm.io
      ensures (State(), report) == NextCommand(old(State()), fuel, vm.fm)
    {
      if fl {
        return Refused(Crashed);
      }
      if code == map[] {
        return Refused(NoProgram);
      }
      var first := Lookup(code, vm.currentFrame);
      if first.None? {
        return Crash;
      }
      if vm.ip >= |first.value.instructions| {
        return Refused(AtEnd);
      }
      var call := Fetch(first.value.instructions, vm.ip);
      if call.None? {
        return Crash;
      }
      if !call.value.opcode.Call? {
        report := Perform(call.value, first.value);
        if Lookup(code, vm.currentFrame).None? {
          report := Crash;
        }
        return;
      }
      report := StepOver(call.value, first.value, fuel);
    }

    /** next on a CALL. */
    method StepOver(call: Instr, c: Code, fuel: nat) returns (report: Report)
      modifies this, vm, vm.io
      ensures (State(), report) == OverCall(old(State()), c, call, fuel, vm.fm)
    {
      var outcome := vm.RunOp(call, c.labels);
      if outcome.Raised? {
        return Crash;
      }
      vm.ip := vm.ip + 1;
      report := OverLoopMethod(1, 0, fuel);
      if Lookup(code, vm.currentFrame).None? {
        report := Crash;
      }
    }

    /** The step-over loop of `next`, executing at most `fuel` instructions. */
    method OverLoopMethod(calls0: nat, rets0: nat, fuel: nat) returns (report: Report)
      modifies this, vm, vm.io
      ensures (State(), report) == OverLoop(old(State()), calls0, rets0, fuel, vm.fm)
    {
      var calls, rets, left := calls0, rets0, fuel;
      while true
        invariant OverLoop(State(), calls, rets, left, vm.fm) == OverLoop(old(State()), calls0, rets0, fuel, vm.fm)
        decreases left
      {
        var done;
        done, calls, rets, report := OverTurn(calls, rets, left);
        if done {
          break;
        }
        left := left - 1;
      }
    }

    /** One pass of the step-over loop of `next`: `done` when the loop ends here. */
    method OverTurn(calls: nat, rets: nat, left: nat) returns (done: bool, calls': nat, rets': nat, report: Report)
      modifies this, vm, vm.io
      ensures done ==> (State(), report) == OverLoop(old(State()), calls, rets, left, vm.fm)
      ensures !done ==> left > 0 && OverLoop(State(), calls', rets', left - 1, vm.fm) == OverLoop(old(State()), calls, rets, left, vm.fm)
    {
      done, calls', rets' := true, calls, rets;
      var c := Lookup(code, vm.currentFrame);
      if c.None? {
        return true, calls, rets, DebuggerError(KeyError);
      }
      if vm.ip >= |c.value.instructions| {
        return true, calls, rets, Completed;
      }
      if left == 0 {
        return true, calls, rets, Exhausted;
      }
      var op := Fetch(c.value.instructions, vm.ip);
      if op.None? {
        return true, calls, rets, EndReached;
      }
      if op.value.opcode.Call? {
        calls' := calls + 1;
      } else if op.value.opcode.Ret? {
        rets' := rets + 1;
      }
      var outcome := Drive(op.value, c.value.labels);
      if outcome.Raised? {
        if outcome.exc == StopIteration {
          vm.ip := vm.ip + 1;
          report := Stopped;
        } else if outcome.exc == IndexError {
          report := EndReached;
        } else if outcome.inVm {
          fl := true;
          report := VmError(outcome.exc);
        } else {
          report := DebuggerError(outcome.exc);
        }
        return;
      }
      vm.ip := vm.ip + 1;
      if calls' == rets' {
        return true, calls', rets', Returned;
      }
      done, report := false, Executed;
    }

    /** `exec <OPCODE> <args>` */
    method Execute(arg: string) returns (report: Report)
      modifies vm, vm.io
      ensures (State(), report) == ExecCommand(old(State()), arg, vm.fm)
    {
      if fl {
        return Refused(Crashed);
      }
      if code == map[] {
        return Refused(NoProgram);
      }
      var parts := PyText.Fields(arg);
      if parts == [] {
        return Usage;
      }
      var opcode := FromName(parts[0]);
      if opcode.None? {
        return UnknownOpcode;
      }
      var args := Parser.Converted(parts[1..]);
      var c := Lookup(code, vm.currentFrame);
      if c.None? {
        return UnknownOpcode;
      }
      var outcome := vm.RunOp(Instr(opcode.value, args), c.value.labels);
      report := ExecReport(outcome);
    }
  }
}
