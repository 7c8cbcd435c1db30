# XVM in Dafny

This project models the XVM, a small stack-machine bytecode interpreter written in Python, together with its debugger, a five-opcode teaching VM and the recursive power program written for it, and proves what they promise.

- **Parser** (`task0/xvm/vm.py`, modules `Convert`, `Parser`, `Values`). `parse_string` tokenizes each line with a quote-aware scanner. Each token becomes an int, a float or a string as `convert_to_number` decides. Blank lines and `LABEL` lines are dropped, and each label maps to the index of the next real instruction. Lines whose first word is not an opcode, lines with more than two arguments, and malformed `LABEL`s are errors.
- **Interpreter** (`task0/xvm/vm.py`, modules `Interpreter`, `InterpreterFacts`).
  - The VM has an operand stack, a variable map, the two save-stacks `frames` and `saved_ips`, `ip` and `current_frame`.
  - `Exec` is one `run_op` on a snapshot of that state, and `Loop`/`Run` is `run_code`.
  - The class `VM` performs the same operations in place and is proved against them.
  - The top of the stack is the left operand. Operands are popped before the type check. Jumps write `labels[name] - 1` and `CALL` writes `-1`, and the driver then adds one. Integer `DIV` is Python floor division.
- **Debugger** (`task0/xvm/run.py`, modules `Sections`, `TypedNumbers`, `Debug`, `DebugFacts`, `DebugExamples`).
  - `parse_text` cuts a program file into named function texts.
  - `load`, `step`, `run`, `next` and `exec` are functions from a `Session` (VM, loaded code, fault flag `fl`) to the next session and a `Report`.
  - `list` and `stack N` are read-only views.
  - The class `Debugger` runs the commands in place and is proved against those functions.
  - step, run and next replace the VM's input function before INPUT_STRING with one over a str, so that instruction always ends in a debugger error (AttributeError) with nothing changed (`DrivenOp`).
  - The lemmas state the consumed-breakpoint rule, the sticky fault flag, and step-over by counting CALLs against RETs.
- **Teaching VM** (`materials/vm_EX.py`, module `TeachingVm`). It covers `Op.text`, `serialize_code`/`deserialize_code` with their round trip, and a five-opcode `run_op`/`run_code`. The class `VM` is proved against the pure `Exec`/`Run`.
- **Reference program** (`task0/xvm/our_program.py`, module `PowProgram`). `pow_rec` is proved to compute x^n. The POW/ENTRY bytecode is run instruction by instruction: for every `n >= 1` it prints `pow_rec(x, n)`, and for `n == 0` it prints the message string.
- **Sample runs** (`task0/tests/test_part1.py`, module `SampleRuns`). The three test programs are run to the stacks and variables the tests expect.
- **Program texts** (`task0/xvm/vm.py` `parse_string`, modules `Listing`, `ProgramTexts`). A program written line by line, with blank lines anywhere, is proved to parse to the code assembled from its lines. From this, ENTRY and the three test texts are proved to parse to exactly the code the runs above start from.

Floats are symbolic terms (`FLit`, `FBin`, `FUn`, ...). A `FloatModel` parameter answers comparisons and says whether a float operation raises. Console input is the `MyIO` input buffer, given as a sequence.

## Model

| member | source | states |
|---|---|---|
| `Values.FloorDiv` | task0/xvm/vm.py:213-214 | the quotient of Python's `//`: the largest q with q*b <= a for b > 0 (and the mirror bounds for b < 0) |
| `Values.FromName` | task0/xvm/vm.py:53 | a name is refused exactly when no opcode has it; an accepted name is the name of the opcode returned |
| `Values.FromNameOfName` | task0/xvm/vm.py:71 | `OpCode[name]` of every opcode's own name gives that opcode back |
| `Values.Fetch` | task0/xvm/vm.py:374 | list indexing: an index in `0..len-1` fetches that instruction, and the fetch fails (IndexError) exactly when the index is outside `-len..len-1` |
| `Values.FetchFromEnd` | task0/xvm/vm.py:374 | a negative index in `-len..-1` counts from the end, so the `-1` that `exec CALL` leaves fetches the last instruction |
| `PyText.StripLeft` | task0/xvm/run.py:57 | `lstrip` gives a suffix of the text that is empty or starts with a non-space |
| `PyText.StripRight` | task0/xvm/run.py:59 | `rstrip` gives a prefix of the text that is empty or ends with a non-space |
| `PyText.LeadingAllSpace` | task0/xvm/run.py:57 | what `lstrip` removes is all whitespace |
| `PyText.TrailingAllSpace` | task0/xvm/run.py:59 | what `rstrip` removes is all whitespace |
| `PyText.StripEmptyIff` | task0/xvm/vm.py:28 | `line.strip() == ''` exactly when the line is all whitespace |
| `PyText.StripKeeps` | task0/xvm/vm.py:9 | `strip` leaves a text that neither starts nor ends with a space unchanged |
| `PyText.JoinSplitOn` | task0/xvm/vm.py:27 | joining the pieces of `text.split(sep)` with `sep` gives the text back |
| `PyText.SplitOnJoin` | task0/xvm/vm.py:27 | splitting a join of sep-free parts gives the parts back |
| `PyText.Find` | task0/xvm/run.py:45 | `str.find` returns -1 or an index at or after the (normalised) start where the pattern fits |
| `PyText.FindLeast` | task0/xvm/run.py:45-55 | `str.find` returns the first occurrence at or after the start, and -1 only when there is none |
| `PyText.FieldsEmptyIff` | task0/xvm/run.py:553-556 | `arg.split()` is empty exactly when the argument is all whitespace |
| `PyText.FieldsOfJoin` | task0/xvm/run.py:553 | `split()` of space-joined non-empty space-free words gives the words back |
| `Convert.ConvertToNumber` | task0/xvm/vm.py:7-14 | a token becomes an int exactly when `int()` accepts it, otherwise a float literal when `float()` accepts it, otherwise the string itself |
| `Convert.DigitsCorrect` | task0/xvm/vm.py:9 | the decimal text of a natural number is a digit string whose value is that number |
| `Convert.IntRoundTrip` | task0/xvm/vm.py:7-9 | every integer printed in decimal converts back to the same int (without CPython's digit limit) |
| `Convert.NameStaysString` | task0/xvm/vm.py:11-14 | a word of ASCII letters and underscores other than inf, infinity or nan (in any case) stays a string, so opcode names and plain variable names are never numbers |
| `Convert.LowerAll` | task0/xvm/vm.py:12 | `float()` spells inf, infinity and nan in any case: the lowering it compares with keeps the length and lowers each ASCII capital in place, character by character |
| `Convert.WordStaysString` | task0/xvm/vm.py:11-14 | the same for a word whose length or second letter already rules out inf, infinity and nan |
| `Convert.DigitNumber` | task0/xvm/vm.py:7-9 | a one-digit token becomes the int it denotes |
| `Convert.PointNumber` | task0/xvm/vm.py:7-12 | a token made of a digit, a point and a digit is refused by `int()` and becomes that float literal |
| `TypedNumbers.NumbersIff` | task0/xvm/run.py:21-35 | the debugger's number input succeeds exactly when every word is an int or float literal, and then gives one number per word |
| `TypedNumbers.ToNumbers` | task0/xvm/run.py:25-33 | the conversion loop computes the same as its specification |
| `TypedNumbers.FromStdinNumber` | task0/xvm/run.py:21-35 | `from_stdin_number` on one line: its words as numbers, or a failure |
| `TypedNumbers.TypedInputNumber` | task0/xvm/run.py:173-189 | the numbers typed for an INPUT_NUMBER, handed to the VM as its input, are what the instruction consumes: it pushes the first and leaves the rest in the buffer |
| `Parser.SplitLine` | task0/xvm/vm.py:34-50 | the character loop gives the quote-aware words of the line, each passed through `convert_to_number` |
| `Parser.ScanTokens` | task0/xvm/vm.py:38-50 | every token is non-empty and holds no quote character |
| `Parser.ScanPlainRun` | task0/xvm/vm.py:43-48 | outside quotes, a run of characters with no space or quote is appended to the current token |
| `Parser.ScanQuotedRun` | task0/xvm/vm.py:40-48 | inside quotes, every character but the quote (spaces included) is appended to the current token |
| `Parser.WordsOfJoin` | task0/xvm/vm.py:43-46 | space-joined words with no space or quote tokenize back to those words |
| `Parser.QuotedArgument` | task0/xvm/vm.py:40-42 | `OP "some text"` gives the opcode word and the quoted text (spaces kept, quotes dropped) |
| `Parser.ParseLine` | task0/xvm/vm.py:53-73 | a line fails exactly when it is empty, its first word is not an opcode name, it has more than two arguments, or it is a LABEL without exactly one string argument; otherwise it is the instruction with the remaining words as arguments, or a label |
| `Parser.CollectOkIff` | task0/xvm/vm.py:31-53 | parsing succeeds exactly when every line parses |
| `Parser.CollectValues` | task0/xvm/vm.py:31-75 | on success, line k's result is the k-th parsed line |
| `Parser.CollectErr` | task0/xvm/vm.py:53-60 | on failure, the error is the one of the first line that fails |
| `Parser.CollectPrefixErr` | task0/xvm/vm.py:31-60 | once a prefix of the lines fails, the later lines do not change the error |
| `Parser.CollectStep` | task0/xvm/vm.py:31-75 | one more line either fails, or appends its parsed line to the result |
| `Parser.AssembleInstr` | task0/xvm/vm.py:70-75 | a real instruction is appended, and the labels are unchanged |
| `Parser.AssembleLabel` | task0/xvm/vm.py:58-64 | a LABEL records the count of instructions so far and emits nothing |
| `Parser.AssembleInstructions` | task0/xvm/vm.py:53-75 | no LABEL is ever emitted, every instruction has at most two arguments, and every label is at most the instruction count |
| `Parser.AssemblePrefix` | task0/xvm/vm.py:70-75 | the instructions of a prefix of the lines are a prefix of the instructions |
| `Parser.LabelIndex` | task0/xvm/vm.py:57-64 | a label's value is the number of real instructions before its last LABEL line |
| `Parser.LabelTarget` | task0/xvm/vm.py:61-75 | a label followed by an instruction points at that instruction |
| `Parser.SkipLabels` | task0/xvm/vm.py:62-64 | trailing LABEL lines add no instructions |
| `Parser.LabelKeys` | task0/xvm/vm.py:58-61 | a name is a label exactly when some LABEL line declares it |
| `Parser.ParseString` | task0/xvm/vm.py:17-84 | the line and character loops compute `ParseText`: non-blank lines, each parsed, assembled into instructions and labels |
| `Listing.LineReads` | task0/xvm/vm.py:33-75 | every well-formed written line parses to what it was written from: an opcode alone (trailing blanks allowed), an opcode and one token, an opcode and one quoted text, or a LABEL and its name |
| `Listing.SplitWritten` | task0/xvm/vm.py:27 | `split('\n')` of lines joined by line breaks gives those lines back |
| `Listing.KeptLines` | task0/xvm/vm.py:27-31 | the `strip() != ''` filter keeps exactly the non-blank written lines, in order, and each parses to its own meaning |
| `Listing.ListingParses` | task0/xvm/vm.py:17-84 | a program written one instruction or label per line, with blank lines anywhere, parses to the code assembled from its non-blank lines in order |
| `Listing.InstructionListing` | task0/xvm/vm.py:17-84 | a listing of instructions only parses to exactly those instructions and no labels |
| `Listing.ListingsJoin` | task0/xvm/vm.py:31-75 | two listings one after the other read as their instructions in order |
| `Listing.InstructionParagraphs` | task0/xvm/vm.py:26-31 | three listings of instructions separated by blank lines parse to their instructions one after the other |
| `ProgramTexts.QuotedName` | task0/xvm/vm.py:38-50 | a quoted name that `convert_to_number` leaves a string is read as that string argument |
| `ProgramTexts.ConstLine` | task0/xvm/vm.py:43-50 | an unquoted number token after LOAD_CONST is read as the value `convert_to_number` makes of it |
| `ProgramTexts.EntryWritten` | task0/xvm/our_program.py:136-150 | the text of ENTRY is its three paragraphs written line by line with a blank line between them |
| `ProgramTexts.EntryParses` | task0/xvm/our_program.py:136-156 | `parse_string(ENTRY)` gives exactly the entry code the run of our_program.py is proved about |
| `ProgramTexts.Test1Parses` | task0/tests/test_part1.py:11-18 | `parse_string(TEST1)` gives exactly the code `SampleRuns.RunTest1` runs |
| `ProgramTexts.Test2Parses` | task0/tests/test_part1.py:30-41 | `parse_string(TEST2)` gives exactly the code `SampleRuns.RunTest2` runs |
| `ProgramTexts.Test3Parses` | task0/tests/test_part1.py:55-70 | `parse_string(TEST3)` gives exactly the code `SampleRuns.RunTest3` runs |
| `Sections.PieceAt` | task0/xvm/run.py:45-61 | the next directive found after a name starts after this one and lies inside the text |
| `Sections.DirectiveNotAtEnd` | task0/xvm/run.py:55-62 | searching again from position -1 after the last function finds nothing, so the loop ends |
| `Sections.NoDirectiveNoFunctions` | task0/xvm/run.py:43-47 | a text with no `function "` directive yields an empty map |
| `Sections.ParseText` | task0/xvm/run.py:38-64 | the `pos` loop computes `FunctionTexts` |
| `Sections.TextsFromDefinition` | task0/xvm/run.py:49-62 | one pass maps the definition's name to its stripped body and continues at the next directive |
| `Sections.ReadsRendered` | task0/xvm/run.py:43-62 | reading a file laid out as definitions gives them in order, a later name replacing an earlier one |
| `Sections.RenderedFileParses` | task0/xvm/run.py:38-64 | every file written as `function "name"` sections (names without quotes, bodies ending a line) parses to each name's stripped body, the last duplicate winning |
| `Interpreter.MyIO.constructor` | task0/xvm/run.py:9-11 | the input buffer is the given sequence and the output buffer is empty |
| `Interpreter.MyIO.PrintFn` | task0/xvm/run.py:13-15 | the printed value is appended to the output buffer and the input is untouched |
| `Interpreter.MyIO.InputFn` | task0/xvm/run.py:17-19 | input is first-in first-out: the head of the buffer is returned and removed; an empty buffer fails and stays empty |
| `Interpreter.VM.constructor` | task0/xvm/vm.py:146-165 | empty stack, variables and save-stacks, ip 0, frame `$entrypoint$`, over the given I/O object |
| `Interpreter.VM.RunOp` | task0/xvm/vm.py:168-360 | the in-place `run_op` leaves exactly the state and outcome `Exec` specifies |
| `Interpreter.VM.RunMemory` | task0/xvm/vm.py:173-187 | LOAD_CONST, LOAD_VAR and STORE_VAR in place match `Exec` |
| `Interpreter.VM.RunArith` | task0/xvm/vm.py:190-216 | ADD, SUB, MUL and DIV in place match `Exec` |
| `Interpreter.VM.RunCompare` | task0/xvm/vm.py:252-305 | EQ through LE in place match `Exec` |
| `Interpreter.VM.RunUnary` | task0/xvm/vm.py:219-233 | SQRT, NEG and EXP in place match `Exec` |
| `Interpreter.VM.RunIo` | task0/xvm/vm.py:236-249 | PRINT and the two inputs in place match `Exec`, through the I/O object |
| `Interpreter.VM.RunJump` | task0/xvm/vm.py:308-321 | JMP and CJMP in place match `Exec` |
| `Interpreter.VM.RunCall` | task0/xvm/vm.py:324-339 | CALL in place matches `Exec` |
| `Interpreter.VM.RunRet` | task0/xvm/vm.py:341-352 | RET in place matches `Exec` |
| `Interpreter.VM.RunCode` | task0/xvm/vm.py:362-376 | the fetch/execute/`ip += 1` loop leaves the state and result `Run` specifies |
| `InterpreterFacts.StackEffect` | task0/xvm/vm.py:168-352 | every successful operation pops its fixed number of operands, pushes its fixed number of results, and leaves the stack below untouched |
| `InterpreterFacts.NeverOk` | task0/xvm/vm.py:355-360 | BREAKPOINT and LABEL never succeed; StopIteration is raised exactly by a well-formed BREAKPOINT |
| `InterpreterFacts.BreakpointKeepsState` | task0/xvm/vm.py:355-357 | BREAKPOINT changes nothing |
| `InterpreterFacts.TopIsLeftOperand` | task0/xvm/vm.py:196-216 | with a on top and b below, SUB pushes a - b, DIV pushes floor(a / b) or fails on b == 0 with both popped, and GT pushes 1 exactly when a > b |
| `InterpreterFacts.PopsBeforeCheck` | task0/xvm/vm.py:190-305 | a binary operation pops both operands before its type check: on failure both are gone and nothing else changes; operands of different types always fail the assert |
| `InterpreterFacts.MemoryOps` | task0/xvm/vm.py:173-187 | LOAD_CONST pushes its argument; LOAD_VAR of an undefined name fails with no change, and otherwise pushes the value; STORE_VAR pops the top into the name |
| `InterpreterFacts.StoreThenLoad` | task0/xvm/vm.py:177-187 | STORE_VAR then LOAD_VAR of the same name gives back the original stack |
| `InterpreterFacts.JumpTarget` | task0/xvm/vm.py:317-321 | JMP sets ip to `labels[name] - 1`, and an unknown label is a KeyError with no change |
| `InterpreterFacts.ConditionalJump` | task0/xvm/vm.py:308-316 | CJMP pops the flag and sets ip to `labels[name] - 1` only when the flag equals 1, and changes nothing else |
| `InterpreterFacts.CallThenReturn` | task0/xvm/vm.py:324-352 | RET after a CALL restores the caller's variables, frame name and ip (the CALL's own index) whatever the callee did to its own variables |
| `InterpreterFacts.ExecConsistent` | task0/xvm/vm.py:324-352 | every operation keeps `len(frames) == len(saved_ips)` and ip >= -1 |
| `InterpreterFacts.FaultKeepsFrame` | task0/xvm/vm.py:168-360 | a failing operation changes only the stack (to a prefix of it) and the input buffer |
| `InterpreterFacts.LoopFinishes` | task0/xvm/vm.py:372-376 | `run_code` returns `(stack, variables)` only once ip is at or past the end of the current function |
| `InterpreterFacts.LoopConsistent` | task0/xvm/vm.py:362-376 | `run_code` keeps the save-stacks paired |
| `InterpreterFacts.LoopMoreFuel` | task0/xvm/vm.py:372-375 | a run that ends within some fuel ends the same way with more |
| `InterpreterFacts.LoopSteps` | task0/xvm/vm.py:372-375 | k successful turns of the loop followed by the rest of the run is the whole run |
| `InterpreterFacts.StepsAppend` | task0/xvm/vm.py:372-375 | a+b turns are a turns followed by b turns |
| `InterpreterFacts.RunSteps` | task0/xvm/vm.py:362-376 | a run whose turns reach the end of the current function returns that state's stack and variables |
| `InterpreterFacts.TurnLoadConst` | task0/xvm/vm.py:173-176 | one turn of LOAD_CONST: push, then ip + 1 |
| `InterpreterFacts.TurnLoadVar` | task0/xvm/vm.py:177-182 | one turn of LOAD_VAR of a defined name |
| `InterpreterFacts.TurnStoreVar` | task0/xvm/vm.py:183-187 | one turn of STORE_VAR |
| `InterpreterFacts.TurnIntArith` | task0/xvm/vm.py:190-214 | one turn of an int arithmetic opcode |
| `InterpreterFacts.TurnIntCompare` | task0/xvm/vm.py:252-305 | one turn of an int comparison: push 1 or 0 |
| `InterpreterFacts.TurnFloatArith` | task0/xvm/vm.py:190-216 | one turn of a float arithmetic opcode |
| `InterpreterFacts.TurnUnary` | task0/xvm/vm.py:219-233 | one turn of SQRT, NEG or EXP |
| `InterpreterFacts.TurnInputNumber` | task0/xvm/vm.py:245-249 | one turn of INPUT_NUMBER takes the head of the input |
| `InterpreterFacts.TurnPrint` | task0/xvm/vm.py:236-239 | one turn of PRINT moves the top of the stack to the output |
| `InterpreterFacts.TurnCjmp` | task0/xvm/vm.py:308-316 | one turn of CJMP lands on the label's instruction or the next one |
| `InterpreterFacts.TurnCall` | task0/xvm/vm.py:324-339 | one turn of CALL starts the callee at its instruction 0 with no variables |
| `InterpreterFacts.TurnRet` | task0/xvm/vm.py:341-352 | one turn of RET resumes the caller just after its CALL |
| `Debug.StepCommand` | task0/xvm/run.py:213-274 | step never changes the loaded program; an error from vm.py always sets `fl`, and `fl` is set afterwards only if it already was, a vm.py error was reported, or the debugger crashed |
| `Debug.RunLoop` | task0/xvm/run.py:166-207 | the loop of run keeps the program and sets `fl` exactly when it stops on an error from vm.py |
| `Debug.RunCommand` | task0/xvm/run.py:154-210 | run never changes the program; `fl` as for step |
| `Debug.OverLoop` | task0/xvm/run.py:359-411 | the step-over loop of next keeps the program and sets `fl` exactly when it stops on an error from vm.py |
| `Debug.NextCommand` | task0/xvm/run.py:277-415 | next never changes the program; `fl` as for step |
| `Debug.ExecCommand` | task0/xvm/run.py:544-582 | exec never changes the program or `fl`, even after an error from vm.py |
| `Debug.LoadCommand` | task0/xvm/run.py:112-151 | load always clears `fl`, and unless it reports a load, the session is otherwise unchanged |
| `Debug.AgreesAll` | task0/xvm/run.py:139-142 | load's code map holds exactly the parse of every function text |
| `Debug.Debugger.constructor` | task0/xvm/run.py:67-70 | a fresh VM, no code, flag clear |
| `Debug.Debugger.Load` | task0/xvm/run.py:112-151 | the in-place `load` matches `LoadCommand` |
| `Debug.Debugger.Drive` | task0/xvm/run.py:183-190 | `run_op` as step, run and next drive it: an argument-less INPUT_STRING raises AttributeError from outside vm.py (`pop(0)` on the str buffer of the rebuilt `MyIO`, run.py:17-19) and changes nothing; every other instruction is `run_op` |
| `Debug.Debugger.Perform` | task0/xvm/run.py:225-270 | executing one fetched instruction as step does (INPUT_STRING included, through `DrivenOp`) matches `StepAt` |
| `Debug.Debugger.Step` | task0/xvm/run.py:213-274 | the in-place `step` matches `StepCommand` |
| `Debug.Debugger.Run` | task0/xvm/run.py:154-210 | the in-place `run` matches `RunCommand` |
| `Debug.Debugger.RunLoopMethod` | task0/xvm/run.py:166-207 | the `while` loop of `run` matches `RunLoop` |
| `Debug.Debugger.RunTurn` | task0/xvm/run.py:167-207 | one pass of that loop either ends it as `RunLoop` says or leaves a state from which `RunLoop` with one less fuel gives the same result |
| `Debug.Debugger.Next` | task0/xvm/run.py:277-415 | the in-place `next` matches `NextCommand` |
| `Debug.Debugger.StepOver` | task0/xvm/run.py:345-415 | the CALL branch of `next` matches `OverCall` |
| `Debug.Debugger.OverLoopMethod` | task0/xvm/run.py:359-411 | the counting loop of `next` matches `OverLoop` |
| `Debug.Debugger.OverTurn` | task0/xvm/run.py:360-394 | one pass of that loop either ends it or leaves the counters and state from which `OverLoop` continues |
| `Debug.Debugger.Execute` | task0/xvm/run.py:544-582 | the in-place `exec` matches `ExecCommand` |
| `DebugFacts.Refusals` | task0/xvm/run.py:155-164 | with the flag set, or no program, or ip at the end, run/step/next (and exec for the first two) refuse and change nothing |
| `DebugFacts.FlagSticks` | task0/xvm/run.py:113-114 | no command but load clears the fault flag, and load always clears it |
| `DebugFacts.LoadResets` | task0/xvm/run.py:112-151 | load succeeds exactly when every function text parses; it then resets the VM (I/O kept) and holds each function's parse; otherwise the session ends |
| `DebugFacts.StepBreakpoint` | task0/xvm/run.py:227-230 | step on a BREAKPOINT moves ip past it without running it |
| `DebugFacts.StepSuccess` | task0/xvm/run.py:253-270 | a successful step is `run_op` followed by ip + 1 |
| `DebugFacts.StepFault` | task0/xvm/run.py:254-268 | a failed step (INPUT_STRING's AttributeError included) leaves ip, variables and frame as they were and sets the flag exactly when the error came from vm.py |
| `DebugFacts.StepInputString` | task0/xvm/run.py:246-268 | step, and next, on an argument-less INPUT_STRING always end in a debugger error (AttributeError) and leave the whole session, ip and flag included, unchanged |
| `DebugFacts.RunInputString` | task0/xvm/run.py:183-206 | run standing on an argument-less INPUT_STRING stops there with the same debugger error and nothing executed |
| `DebugFacts.NextIsStep` | task0/xvm/run.py:292-340 | next on anything but CALL is step |
| `DebugFacts.ExecAbove` | task0/xvm/vm.py:324-352 | CALL deepens and RET shallows the call depth above the caller; the RET back to depth 0 restores the caller exactly |
| `DebugFacts.OverLoopReturns` | task0/xvm/run.py:354-394 | when the counts meet, the VM is back in the caller with its variables, save-stacks and frame, at the instruction after the CALL |
| `DebugFacts.NextReturnsToCaller` | task0/xvm/run.py:345-394 | a next that reports a return was on a CALL and ends just after it, in the same frame with the same variables and save-stacks |
| `DebugFacts.StopAtBreakpoint` | task0/xvm/vm.py:355-357 | only a BREAKPOINT raises StopIteration, and it leaves the VM unchanged |
| `DebugFacts.RunLoopStops` | task0/xvm/run.py:192-194 | run stopped by a breakpoint leaves ip just past a BREAKPOINT of the current function |
| `DebugFacts.RunStopsPastBreakpoint` | task0/xvm/run.py:154-210 | the same for the whole `run` command, with the flag clear |
| `DebugFacts.RunLoopFlag` | task0/xvm/run.py:195-206 | the run loop sets the flag exactly when it reports an error from vm.py, and keeps the VM consistent |
| `DebugFacts.RunFlag` | task0/xvm/run.py:154-210 | the same for the whole `run` command |
| `DebugFacts.DrivenInProgram` | task0/xvm/run.py:166-190 | in a program without an argument-less INPUT_STRING, every instruction run fetches is executed exactly as `run_op` executes it |
| `DebugFacts.RunLoopAgrees` | task0/xvm/run.py:166-191 | for a program without an argument-less INPUT_STRING, the run loop completes exactly when `run_code`'s loop finishes, in the same state |
| `DebugFacts.RunIsRunCode` | task0/xvm/run.py:166-191 | for such a program, `run` completes exactly when `run_code` on the loaded code finishes, with the same VM |
| `DebugFacts.ExecKeeps` | task0/xvm/run.py:544-582 | exec never touches the flag or the code, and a failed exec changes only the stack and input |
| `DebugFacts.ListWindow` | task0/xvm/run.py:422-440 | list shows at most 11 consecutive rows from `max(0, ip-5)`, each the instruction at its index, marking exactly the row at ip (present iff ip is inside the function) |
| `DebugFacts.StackWhole` | task0/xvm/run.py:471-478 | `stack` with no argument shows the whole stack, top first |
| `DebugFacts.StackView` | task0/xvm/run.py:480-495 | `stack N` shows the top N entries top first when 1 <= N <= len, nothing for 0, and an out-of-range message otherwise |
| `DebugFacts.SliceOfTop` | task0/xvm/run.py:485-492 | the range check and the slice of the reversed stack |
| `DebugExamples.LoadConstStep` | task0/xvm/run.py:253-270 | a step on LOAD_CONST at the start pushes the constant and moves to instruction 1 |
| `DebugExamples.JumpStep` | task0/xvm/vm.py:317-321 | a step on `JMP skip_target` lands on the instruction after the label |
| `DebugExamples.ListWindowAt` | task0/xvm/test_debugger.py:243-259 | list after the jump marks `STORE_VAR "a"` |
| `DebugExamples.StepOverJump` | task0/xvm/test_debugger.py:227-259 | from a session at the start of the jump program, with its code map written out (`JumpCode`), step, step, list points at `STORE_VAR "a"` |
| `DebugExamples.LoadNameStep` | task0/xvm/test_debugger.py:26-37 | a step pushes the callee's name |
| `DebugExamples.AddTenReturns` | task0/xvm/test_debugger.py:26-31 | the step-over loop runs `add_ten` and returns to the caller with 15 on the stack |
| `DebugExamples.CallAddTen` | task0/xvm/test_debugger.py:33-36 | next on the CALL leaves 15 on the stack and ip at `STORE_VAR "result"` |
| `DebugExamples.NextOverAddTen` | task0/xvm/test_debugger.py:337-365 | from a session at the start of the calling program, with its code map written out (`CallingEntry`, `AddTen`), step, step, next points at `STORE_VAR "result"` |
| `TeachingVm.FromNameIff` | materials/vm_EX.py:99 | `OpCode[name]` accepts exactly the five names |
| `TeachingVm.NameFacts` | materials/vm_EX.py:6-11 | opcode names are non-empty words with no space, line break or all-digit form |
| `TeachingVm.SplitLines` | materials/vm_EX.py:89 | `splitlines` gives lines with no line break |
| `TeachingVm.ArgWords` | materials/vm_EX.py:27 | one word per argument |
| `TeachingVm.Lines` | materials/vm_EX.py:85 | one text line per op |
| `TeachingVm.ParseArgs` | materials/vm_EX.py:93-97 | one argument per word |
| `TeachingVm.ParseLines` | materials/vm_EX.py:89-100 | deserializing succeeds exactly when every line does, with one op per line |
| `TeachingVm.ParseLinesOf` | materials/vm_EX.py:89-100 | lines that each parse give exactly those ops |
| `TeachingVm.DeserializeCode` | materials/vm_EX.py:87-100 | the loops compute `Deserialize` |
| `TeachingVm.ConvertArgs` | materials/vm_EX.py:92-97 | the argument loop computes `ParseArgs` |
| `TeachingVm.SplitLinesJoin` | materials/vm_EX.py:85-89 | splitting newline-joined non-empty lines gives them back |
| `TeachingVm.ShowDigits` | materials/vm_EX.py:94-95 | a natural number prints as digits and reads back as the same int |
| `TeachingVm.ArgRoundTrip` | materials/vm_EX.py:93-97 | a non-negative int, or a string that has no space or line break and is not all digits, reads back as itself |
| `TeachingVm.LineRoundTrip` | materials/vm_EX.py:26-31 | the text of an op with such arguments is one line and parses back to the op |
| `TeachingVm.RoundTrip` | materials/vm_EX.py:84-100 | `deserialize_code(serialize_code(c)) == c` for every code with such arguments |
| `TeachingVm.NegativeIntReadsAsString` | materials/vm_EX.py:94-97 | a negative int does not survive the round trip: it reads back as its text |
| `TeachingVm.VM.constructor` | materials/vm_EX.py:35-37 | empty stack and variables |
| `TeachingVm.VM.Pop` | materials/vm_EX.py:47 | `pop` returns and removes the top, and fails on an empty stack |
| `TeachingVm.VM.RunOp` | materials/vm_EX.py:39-67 | the in-place `run_op` matches `Exec` |
| `TeachingVm.VM.Binary` | materials/vm_EX.py:45-54 | ADD and SUB in place match `Exec` |
| `TeachingVm.VM.RunCode` | materials/vm_EX.py:69-72 | the `for` loop matches `Run` and returns the final stack and variables |
| `TeachingVm.StackDelta` | materials/vm_EX.py:39-67 | each successful op changes the stack length by its fixed amount, and loads keep what is below |
| `TeachingVm.Loads` | materials/vm_EX.py:41-65 | LOAD_CONST pushes its argument; LOAD_VAR of an undefined name fails with no change, otherwise it pushes the value |
| `TeachingVm.StoreStep` | materials/vm_EX.py:55-59 | STORE_VAR pops the top into the name |
| `TeachingVm.LoadStep` | materials/vm_EX.py:60-65 | LOAD_VAR of a defined name pushes its value |
| `TeachingVm.StoreThenLoad` | materials/vm_EX.py:55-65 | STORE_VAR then LOAD_VAR of the same name keeps the stack and binds the name |
| `TeachingVm.IntOperandOrder` | materials/vm_EX.py:45-54 | the top is the left operand: ADD pushes a + b and SUB pushes a - b |
| `TeachingVm.StringConcatOrder` | materials/vm_EX.py:45-49 | ADD of two strings concatenates top first |
| `TeachingVm.MismatchPopsBoth` | materials/vm_EX.py:45-54 | mixing an int and a string, or subtracting strings, raises TypeError after both pops |
| `TeachingVm.RunAppend` | materials/vm_EX.py:69-72 | running p then q is running p + q, stopping at the first exception |
| `TeachingVm.RunTwo` | materials/vm_EX.py:69-71 | two ops run one after the other |
| `TeachingVm.DemoRoundTrip` | materials/vm_EX.py:121-122 | the demo code survives serialize then deserialize |
| `TeachingVm.DemoStores` | materials/vm_EX.py:110-114 | the first four ops bind a = 10 and b = 20 |
| `TeachingVm.DemoLoads` | materials/vm_EX.py:116-117 | the loads push 10 and then 20 |
| `TeachingVm.DemoSubStore` | materials/vm_EX.py:118-119 | SUB and STORE_VAR bind c = 20 - 10 |
| `TeachingVm.DemoSubtracts` | materials/vm_EX.py:116-119 | the last four ops bind c = 10 with an empty stack |
| `TeachingVm.DemoRun` | materials/vm_EX.py:103-124 | the demo ends with an empty stack and a = 10, b = 20, c = 10 |
| `PowProgram.HalfBounds` | task0/xvm/our_program.py:13-22 | for n >= 2 the recursive argument n // 2 is at least 1 and below n |
| `PowProgram.ZeroRecursesOnZero` | task0/xvm/our_program.py:13-22 | for n == 0 the recursion is on 0 again, and 0 counts as even |
| `PowProgram.PowRecIsPow` | task0/xvm/our_program.py:4-26 | `pow_rec(x, n) == x^n` for every n >= 1 |
| `PowProgram.StoreArguments` | task0/xvm/our_program.py:71-74 | POW binds x, then n, from the caller's pushes |
| `PowProgram.TestZero` | task0/xvm/our_program.py:75-77 | n == 0 jumps to `Power 0`, anything else goes on |
| `PowProgram.ComputeHalf` | task0/xvm/our_program.py:79-83 | `LOAD_CONST 2; LOAD_VAR n; DIV` binds d = n // 2 (top is the left operand) |
| `PowProgram.DoubleHalf` | task0/xvm/our_program.py:84-87 | pushes 2 * d |
| `PowProgram.TestEven` | task0/xvm/our_program.py:89-92 | an even n jumps to `Even` |
| `PowProgram.LoadOneAndN` | task0/xvm/our_program.py:94-95 | pushes 1 and n |
| `PowProgram.TestOne` | task0/xvm/our_program.py:94-98 | n == 1 jumps to `Stop` |
| `PowProgram.ReturnFromPow` | task0/xvm/our_program.py:112 | RET leaves one result on the caller's stack, back after its CALL |
| `PowProgram.ReturnX` | task0/xvm/our_program.py:114-116 | `Stop` returns x |
| `PowProgram.ReturnMessage` | task0/xvm/our_program.py:131-133 | `Power 0` returns the message string |
| `PowProgram.CallHalf` | task0/xvm/our_program.py:100-103 | pushes d, x and "pow" and enters the callee with its arguments |
| `PowProgram.BackFromCallee` | task0/xvm/our_program.py:103-104 | the callee's return lands just after the CALL with the caller's variables |
| `PowProgram.SquareCode` | task0/xvm/our_program.py:104-108 | both squaring blocks are `STORE_VAR xn; LOAD_VAR xn; LOAD_VAR xn; MUL` |
| `PowProgram.StoreAndLoad` | task0/xvm/our_program.py:104-106 | binds xn and pushes it back |
| `PowProgram.Square` | task0/xvm/our_program.py:104-108 | binds xn = r and leaves r * r |
| `PowProgram.MultiplyX` | task0/xvm/our_program.py:110-111 | multiplies the square by x |
| `PowProgram.ReturnOdd` | task0/xvm/our_program.py:110-112 | returns x * r * r |
| `PowProgram.Prologue` | task0/xvm/our_program.py:71-92 | for n != 0, from entry to the even/odd branch |
| `PowProgram.HalfSquared` | task0/xvm/our_program.py:100-108 | the recursive call and the squaring leave pow_rec(x, n // 2)^2 |
| `PowProgram.PowCall` | task0/xvm/our_program.py:70-133 | a call of POW with int n >= 1 returns `pow_rec(x, n)` after `Cost(n)` instructions |
| `PowProgram.PowCallZero` | task0/xvm/our_program.py:74-77 | a call of POW with n == 0 returns the message after 8 instructions |
| `PowProgram.FloatExponentRejected` | task0/xvm/our_program.py:65-67 | a float n fails the first EQ's same-type assert, so the run raises AssertionError |
| `PowProgram.ReadOne` | task0/xvm/our_program.py:137-138 | INPUT_NUMBER and STORE_VAR bind a name to the next input |
| `PowProgram.ReadArguments` | task0/xvm/our_program.py:137-140 | ENTRY reads x and n in order from the input |
| `PowProgram.CallPow` | task0/xvm/our_program.py:142-145 | ENTRY pushes n, x, "pow" and calls |
| `PowProgram.PrintResult` | task0/xvm/our_program.py:147-149 | ENTRY binds xn and prints it |
| `PowProgram.BackInEntry` | task0/xvm/our_program.py:145-147 | POW's return resumes ENTRY after its CALL |
| `PowProgram.OurTableCode` | task0/xvm/our_program.py:155-160 | the code map holds POW under "pow" and ENTRY under `$entrypoint$` |
| `PowProgram.OurProgramTurns` | task0/xvm/our_program.py:155-165 | for n >= 1, the whole run, turn by turn |
| `PowProgram.OurProgramPrintsPower` | task0/xvm/our_program.py:155-165 | for int x and n >= 1 the program prints x^n, consumes both inputs, and returns an empty stack with x, n and xn |
| `PowProgram.OurProgramZeroTurns` | task0/xvm/our_program.py:155-165 | for n == 0, the whole run, turn by turn |
| `PowProgram.OurProgramZero` | task0/xvm/our_program.py:131-133 | for n == 0 the program prints the message string |
| `SampleRuns.Test1Turns` | task0/tests/test_part1.py:11-15 | TEST1 leaves 7 |
| `SampleRuns.RunTest1` | task0/tests/test_part1.py:17-26 | `run_code` returns the stack [7] |
| `SampleRuns.Test2Push` | task0/tests/test_part1.py:31-32 | pushes 3 and 4 |
| `SampleRuns.Test2Add` | task0/tests/test_part1.py:33-34 | adds and pushes 7 |
| `SampleRuns.Test2Tail` | task0/tests/test_part1.py:35-37 | `7 // 7` then `* 3` leaves 3 |
| `SampleRuns.RunTest2` | task0/tests/test_part1.py:40-49 | `run_code` returns the stack [3] |
| `SampleRuns.Test3BindA` | task0/tests/test_part1.py:56-57 | binds a = 7.0 |
| `SampleRuns.Test3BindB` | task0/tests/test_part1.py:58-59 | binds b = 2.0 |
| `SampleRuns.Test3Loads` | task0/tests/test_part1.py:60-61 | pushes b, then a |
| `SampleRuns.Test3Sub` | task0/tests/test_part1.py:60-62 | SUB computes 7.0 - 2.0 (a was on top) |
| `SampleRuns.Test3Root` | task0/tests/test_part1.py:63-64 | EXP then SQRT |
| `SampleRuns.Test3Negate` | task0/tests/test_part1.py:65 | NEG |
| `SampleRuns.Test3Store` | task0/tests/test_part1.py:65-66 | NEG, then binds `result` |
| `SampleRuns.Test3Prefix` | task0/tests/test_part1.py:56-62 | the first seven instructions |
| `SampleRuns.Test3Turns` | task0/tests/test_part1.py:55-67 | the whole of TEST3 |
| `SampleRuns.RunTest3` | task0/tests/test_part1.py:69-80 | `run_code` returns an empty stack with a, b and result = -sqrt(exp(7.0 - 2.0)) |

## Left out

- Console I/O is not modelled: `input()`, `print`, the prompts and all message formatting. A command's effect is given as its `Report`.
- `Debug.Debugger.Perform`, and with it `Step`, `Run`, `RunLoopMethod`, `RunTurn`, `Next`, `StepOver`, `OverLoopMethod` and `OverTurn`: before each INPUT_NUMBER the debugger rebuilds `MyIO` from a fresh console line of numbers (task0/xvm/run.py:172-182, 235-245, 301-311, 363-373). The model keeps one input buffer instead, each entry standing for the first number of one typed line; the other numbers of the line, the swap of `print_fn` to the new `MyIO`, and the "Input must be a number!" retry have no counterpart. The rebuild before INPUT_STRING is modelled (`Debug.DrivenOp`): it always ends in AttributeError.
- `Debug.Debugger.Execute`: exec runs `run_op` against whatever input function the VM holds at that moment, which the model does not track. That is the builtin `input` the debugger starts with (task0/xvm/run.py:69), under which INPUT_NUMBER always fails the assert of task0/xvm/vm.py:248 and INPUT_STRING pushes a console line; or the last `MyIO` a step, run or next installed, whose leftover numbers INPUT_NUMBER then takes, and whose str buffer after an INPUT_STRING makes both inputs raise AttributeError. The model's exec takes its inputs from the VM's one input buffer.
- `DebugFacts.RunLoopAgrees` and `DebugFacts.RunIsRunCode`: stated for programs without an argument-less INPUT_STRING (`ReadsNoString`). On such an instruction run stops with AttributeError (`DebugFacts.RunInputString`), where `run_code` would read a line. Their INPUT_NUMBER agreement holds under the one-buffer reading above.
- The `print`, `memory`, `frame`, `info`/`help` and `exit` commands only display state, so they are left out. The `memory` command's guard that `len(frames) == len(saved_ips)` is covered by `InterpreterFacts.ExecConsistent`.
- Exceptions are sorted by the file of the innermost traceback frame (vm.py or not). The model replaces this with the `inVm` flag of each raised outcome. Only `MyIO.input_fn` (task0/xvm/run.py:17-19) raises from outside vm.py: IndexError on an exhausted list buffer, and AttributeError on the str buffer the debugger installs before an INPUT_STRING.
- Floating point is not computed. Float values are symbolic terms, and a `FloatModel` parameter decides comparisons, `== 1`, and whether SQRT, EXP or a float DIV raises (ZeroDivisionError, math domain error, overflow). Float literal syntax is checked, but not its value.
- Python's `str.isdigit` and `int()` accept non-ASCII digits. The model treats only `0`-`9` as digits.
- `load` reading a file: a missing path, a usage error and an unreadable file all become `file == None` (`NotFound`). `Failed to parse` is never reached, because `parse_text` does not raise. `load` assigns `code` function by function before a later `parse_string` raises; the model ends the session (`Crash`) without keeping that partial map.
- `list` with no program loaded executes `return`, which ends the debugger. The model reports this as `Quit`. The `repr` failure branch of `list` is left out, because `repr` of an instruction does not raise.
- `Interpreter.VM.RunCode`, `Debug.Debugger.Run` and `Debug.Debugger.Next`: the loops take a `fuel` bound, and running out reports `OutOfFuel` or `Exhausted`. The source loops are unbounded, so a program that never ends is only modelled up to that bound.
- `PowProgram.OurProgramPrintsPower`: proved for int x and n >= 1, and `OurProgramZero` for n == 0. A float n is covered only up to the first failing EQ (`FloatExponentRejected`). A float x and negative n are not followed through.
- `SampleRuns.RunTest3`: the result is the symbolic term `-sqrt(exp(7.0 - 2.0))`. The test's rounded numeric comparison is not modelled.
- The file and serialization helpers are not modelled: `run_code_from_json`, `dump_stack`/`load_stack`, `dump_memory`/`load_memory` (task0/xvm/vm.py:378-417) and `dump_state`/`load_state` (materials/vm_EX.py:74-82).
- `Op.__str__`/`__repr__` are display only.
- vm_EX's `print(op)` inside `run_op` is left out.
- The teaching VM models int and string arguments only. `serialize_code` would print other Python values (floats, booleans) with `str`, and those are left out.
- `Interpreter.VM.RunMemory`: variables are a map keyed by the model's values, where `IntV(1)` and `RealV(FLit("1.0"))` are different keys. In Python, `1`, `1.0` and `1e0` are one dict key, so `STORE_VAR 1` then `LOAD_VAR 1.0` finds the variable there but raises the missing-variable AssertionError here (task0/xvm/vm.py:177-187). Programs that name variables with strings, as all of the repository's programs do, are not affected.
- `Convert.ConvertToNumber`, with `Convert.ParseInt`, `Convert.IntRoundTrip`, `TeachingVm.ShowDigits`, `TeachingVm.ArgRoundTrip`, `TeachingVm.LineRoundTrip` and `TeachingVm.RoundTrip`: CPython refuses to convert between int and str beyond 4300 decimal digits (the default integer string conversion limit). The model has no such limit. So a `LOAD_CONST` token of more than 4300 digits, where `int()` raises and `float()` gives inf (task0/xvm/vm.py:7-14), is an int in the model. `Op.text` and `deserialize_code` (materials/vm_EX.py:27, 94-95), which raise for such an int, are claimed to round-trip it.
- `DebugExamples.StepOverJump` and `DebugExamples.NextOverAddTen`: the sessions start from code maps written out instruction by instruction (`JumpCode`, `AddTen`, `CallingEntry`), transcribed from task0/xvm/test_debugger.py:26-38 and 228-235. That `load` of those file texts gives these maps is not derived.
- `PowProgram.PowCode`: the code of POW (task0/xvm/our_program.py:70-133) is written out instruction by instruction and is not derived from the POW text by `parse_string`. ENTRY and the three test programs are derived from their texts (`ProgramTexts`); POW's labels and its 17 paragraphs are not.
- The module-level driver of our_program.py reads `x` and `n` from the console with `from_stdin`. The model takes them as the VM's input buffer instead.
