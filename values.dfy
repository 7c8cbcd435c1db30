/** The values, opcodes and instructions of the XVM (task0/xvm/vm.py). */
module Values {

  /** Floating-point numbers are kept symbolic: a float value is the term that
      computed it.  Literals keep their source text. */
  datatype Float =
    | FLit(text: string)
    | FOfInt(i: int)
    | FBin(aop: ArithOp, lhs: Float, rhs: Float)
    | FUn(mop: MathOp, arg: Float)

  datatype ArithOp = Add | Sub | Mul | Div
  datatype MathOp = Sqrt | Neg | Exp
  datatype CmpOp = Eq | Neq | Gt | Lt | Ge | Le

  /** What the model does not compute about floats: whether a comparison holds,
      and whether evaluating a float term raises (ZeroDivisionError, a math
      domain error, OverflowError). */
  datatype FloatModel = FloatModel(holds: (CmpOp, Float, Float) -> bool, raises: Float -> bool)

  /** A Python value as the VM sees it: int, float or str. */
  datatype Value = IntV(i: int) | RealV(f: Float) | StrV(s: string)
  {
    predicate IsNumber() { IntV? || RealV? }
  }

  /** `type(a) == type(b) and isinstance(a, (int, float))` */
  predicate SameNumeric(a: Value, b: Value)
  {
    (a.IntV? && b.IntV?) || (a.RealV? && b.RealV?)
  }

  /** The float a number converts to (math.sqrt and math.exp accept ints). */
  function AsFloat(v: Value): Float
    requires v.IsNumber()
  {
    if v.IntV? then FOfInt(v.i) else v.f
  }

  /** Python's `a // b` on ints: the floor of the quotient (Dafny's `/` is Euclidean). */
  function FloorDiv(a: int, b: int): (q: int)
    requires b != 0
    ensures b > 0 ==> b * q <= a < b * q + b
    ensures b < 0 ==> b * q + b < a <= b * q
  {
    if b > 0 then a / b else (-a) / (-b)
  }

  /** Python's `a == b` for a VM value and the int literal 1 (`fl == 1` in CJMP):
      true for int 1 and for a float equal to 1. */
  predicate EqualsOne(v: Value, fm: FloatModel)
  {
    match v
    case IntV(i) => i == 1
    case RealV(f) => fm.holds(Eq, f, FOfInt(1))
    case StrV(_) => false
  }

  /** The opcodes of the VM, in the order of `class OpCode`. */
  datatype OpCode =
    | LoadConst | LoadVar | StoreVar
    | AddOp | SubOp | MulOp | DivOp
    | SqrtOp | NegOp | ExpOp
    | EqOp | NeqOp | GtOp | LtOp | GeOp | LeOp
    | Label | Jmp | Cjmp
    | Print | InputString | InputNumber
    | Call | Ret
    | Breakpoint

  /** The member name of an opcode, as `OpCode.<name>.name` gives it. */
  function Name(op: OpCode): string
  {
    match op
    case LoadConst => "LOAD_CONST"
    case LoadVar => "LOAD_VAR"
    case StoreVar => "STORE_VAR"
    case AddOp => "ADD"
    case SubOp => "SUB"
    case MulOp => "MUL"
    case DivOp => "DIV"
    case SqrtOp => "SQRT"
    case NegOp => "NEG"
    case ExpOp => "EXP"
    case EqOp => "EQ"
    case NeqOp => "NEQ"
    case GtOp => "GT"
    case LtOp => "LT"
    case GeOp => "GE"
    case LeOp => "LE"
    case Label => "LABEL"
    case Jmp => "JMP"
    case Cjmp => "CJMP"
    case Print => "PRINT"
    case InputString => "INPUT_STRING"
    case InputNumber => "INPUT_NUMBER"
    case Call => "CALL"
    case Ret => "RET"
    case Breakpoint => "BREAKPOINT"
  }

  /** `OpCode[name]`, failing (None) when `name` is not a member. */
  function FromName(name: string): (r: Option<OpCode>)
    ensures r.Some? ==> Name(r.value) == name
    ensures r.None? <==> forall op: OpCode :: Name(op) != name
  {
    match name
    case "LOAD_CONST" => Some(LoadConst)
    case "LOAD_VAR" => Some(LoadVar)
    case "STORE_VAR" => Some(StoreVar)
    case "ADD" => Some(AddOp)
    case "SUB" => Some(SubOp)
    case "MUL" => Some(MulOp)
    case "DIV" => Some(DivOp)
    case "SQRT" => Some(SqrtOp)
    case "NEG" => Some(NegOp)
    case "EXP" => Some(ExpOp)
    case "EQ" => Some(EqOp)
    case "NEQ" => Some(NeqOp)
    case "GT" => Some(GtOp)
    case "LT" => Some(LtOp)
    case "GE" => Some(GeOp)
    case "LE" => Some(LeOp)
    case "LABEL" => Some(Label)
    case "JMP" => Some(Jmp)
    case "CJMP" => Some(Cjmp)
    case "PRINT" => Some(Print)
    case "INPUT_STRING" => Some(InputString)
    case "INPUT_NUMBER" => Some(InputNumber)
    case "CALL" => Some(Call)
    case "RET" => Some(Ret)
    case "BREAKPOINT" => Some(Breakpoint)
    case _ => None
  }

  /** Every opcode is found again under its own name. */
  lemma FromNameOfName(op: OpCode)
    ensures FromName(Name(op)) == Some(op)
  {
  }

  datatype Option<T> = None | Some(value: T)

  /** An instruction: `Op(opcode, *args)`. */
  datatype Instr = Instr(opcode: OpCode, args: seq<Value>)

  /** A parsed function: `{'instructions': [...], 'labels': {...}}`. */
  datatype Code = Code(instructions: seq<Instr>, labels: map<string, nat>)

  /** The name of the function execution starts in. */
  const EntryPoint: string := "$entrypoint$"

  /** `instructions[ip]` with Python's indexing: a negative index counts from the end. */
  function Fetch(instrs: seq<Instr>, ip: int): (r: Option<Instr>)
    ensures 0 <= ip < |instrs| ==> r == Some(instrs[ip])
    ensures r.None? <==> !(-|instrs| <= ip < |instrs|)
  {
    if 0 <= ip < |instrs| then Some(instrs[ip])
    else if -|instrs| <= ip < 0 then Some(instrs[|instrs| + ip])
    else None
  }

  /** A negative instruction pointer fetches from the end: `-1` is the last
      instruction. `exec CALL` leaves the pointer at `-1`. */
  lemma FetchFromEnd(instrs: seq<Instr>, ip: int)
    requires -|instrs| <= ip < 0
    ensures Fetch(instrs, ip) == Some(instrs[|instrs| + ip])
  {
  }
}
