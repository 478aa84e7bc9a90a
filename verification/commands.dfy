/** The command table and the arity wrappers that call its entries. */
module Commands {
  import opened Base
  import opened Values
  import opened Stack
  import opened State

  /** Entries called without taking operands from the stack. */
  datatype NullaryOp =
    | ClearAll | ClearStack | ClearVariables | ClearMacros
    | Dup | Drop | Depth
    | Constant(name: string)  // `e`, `pi`, `rand`
    | NoEffect                // display switches, `help`, and the directive placeholders
    | Exit

  /** Entries wrapped so that they first pop one operand. */
  datatype UnaryOp =
    | Increment | Decrement
    | Pick | DropItems | DuplicateItems | Roll | RollDown
    | LogicalNot              // `~`, which the table binds to `operator.not_`
    | UnaryLibrary(name: string)

  /** Entries wrapped so that they first pop two operands. */
  datatype BinaryOp =
    | Add | Subtract | Multiply | Maximum | Minimum
    | Swap
    | BinaryLibrary(name: string)

  datatype Command = Nullary(n: NullaryOp) | Unary(u: UnaryOp) | Binary(b: BinaryOp)

  function UL(name: string): Command { Unary(UnaryLibrary(name)) }
  function BL(name: string): Command { Binary(BinaryLibrary(name)) }

  /** The built-in command table: the entry a name denotes, if any. The
      table is split into the groups the source lays it out in. */
  function Lookup(name: string): (r: Option<Command>)
    ensures r.Some? ==> |name| > 0
    ensures r == Some(Nullary(Exit)) <==> name == "exit"
    ensures r.Some? ==> DelegatesUnderName(name, r.value)
  {
    Either(ArithmeticEntry(name), Either(OperatorEntry(name), Either(MathsEntry(name), StackEntry(name))))
  }

  /** An entry handed to the library, or a constant, is handed over under
      the name the table binds it to. */
  predicate DelegatesUnderName(name: string, cmd: Command) {
    && (cmd.Unary? && cmd.u.UnaryLibrary? ==> cmd.u.name == name)
    && (cmd.Binary? && cmd.b.BinaryLibrary? ==> cmd.b.name == name)
    && (cmd.Nullary? && cmd.n.Constant? ==> cmd.n.name == name)
  }

  /** Arithmetic, the clearing commands and increments. */
  function ArithmeticEntry(name: string): (r: Option<Command>)
    ensures r.Some? ==> |name| > 0 && DelegatesUnderName(name, r.value)
    ensures r.Some? ==> r.value != Nullary(Exit)
  {
    match name
    case "+" => Some(Binary(Add))
    case "-" => Some(Binary(Subtract))
    case "*" => Some(Binary(Multiply))
    case "/" => Some(BL("/"))
    case "cla" => Some(Nullary(ClearAll))
    case "clr" => Some(Nullary(ClearStack))
    case "clv" => Some(Nullary(ClearVariables))
    case "clm" => Some(Nullary(ClearMacros))
    case "!" => Some(UL("!"))
    case "!=" => Some(BL("!="))
    case "%" => Some(BL("%"))
    case "++" => Some(Unary(Increment))
    case "--" => Some(Unary(Decrement))
    case _ => None
  }

  /** Bitwise, boolean and comparison operators. */
  function OperatorEntry(name: string): (r: Option<Command>)
    ensures r.Some? ==> |name| > 0 && DelegatesUnderName(name, r.value)
    ensures r.Some? ==> r.value != Nullary(Exit)
  {
    match name
    case "&" => Some(BL("&"))
    case "|" => Some(BL("|"))
    case "^" => Some(BL("^"))
    case "~" => Some(Unary(LogicalNot))
    case "<<" => Some(BL("<<"))
    case ">>" => Some(BL(">>"))
    case "&&" => Some(BL("&&"))
    case "||" => Some(BL("||"))
    case "^^" => Some(BL("^^"))
    case "<" => Some(BL("<"))
    case "<=" => Some(BL("<="))
    case "==" => Some(BL("=="))
    case ">" => Some(BL(">"))
    case ">=" => Some(BL(">="))
    case _ => None
  }

  /** Mathematical functions, display modes, constants and byte-order conversions. */
  function MathsEntry(name: string): (r: Option<Command>)
    ensures r.Some? ==> |name| > 0 && DelegatesUnderName(name, r.value)
    ensures r.Some? ==> r.value != Nullary(Exit)
  {
    match name
    case "acos" => Some(UL("acos"))
    case "asin" => Some(UL("asin"))
    case "atan" => Some(UL("atan"))
    case "cos" => Some(UL("cos"))
    case "cosh" => Some(UL("cosh"))
    case "sin" => Some(UL("sin"))
    case "sinh" => Some(UL("sinh"))
    case "tanh" => Some(UL("tanh"))
    case "ceil" => Some(UL("ceil"))
    case "floor" => Some(UL("floor"))
    case "round" => Some(UL("round"))
    case "ip" => Some(UL("ip"))
    case "fp" => Some(UL("fp"))
    case "sign" => Some(UL("sign"))
    case "abs" => Some(UL("abs"))
    case "max" => Some(Binary(Maximum))
    case "min" => Some(Binary(Minimum))
    case "hex" => Some(Nullary(NoEffect))
    case "dec" => Some(Nullary(NoEffect))
    case "bin" => Some(Nullary(NoEffect))
    case "oct" => Some(Nullary(NoEffect))
    case "e" => Some(Nullary(Constant("e")))
    case "pi" => Some(Nullary(Constant("pi")))
    case "rand" => Some(Nullary(Constant("rand")))
    case "exp" => Some(UL("exp"))
    case "fact" => Some(UL("fact"))
    case "sqrt" => Some(UL("sqrt"))
    case "ln" => Some(UL("ln"))
    case "log" => Some(BL("log"))
    case "pow" => Some(BL("pow"))
    case "hnl" => Some(UL("hnl"))
    case "hns" => Some(UL("hns"))
    case "nhl" => Some(UL("nhl"))
    case "nhs" => Some(UL("nhs"))
    case _ => None
  }

  /** Stack commands, directive placeholders, `help` and `exit`. */
  function StackEntry(name: string): (r: Option<Command>)
    ensures r.Some? ==> |name| > 0 && DelegatesUnderName(name, r.value)
    ensures r == Some(Nullary(Exit)) <==> name == "exit"
  {
    match name
    case "pick" => Some(Unary(Pick))
    case "repeat" => Some(Nullary(NoEffect))
    case "depth" => Some(Nullary(Depth))
    case "drop" => Some(Nullary(Drop))
    case "dropn" => Some(Unary(DropItems))
    case "dup" => Some(Nullary(Dup))
    case "dupn" => Some(Unary(DuplicateItems))
    case "roll" => Some(Unary(Roll))
    case "rolld" => Some(Unary(RollDown))
    case "stack" => Some(Nullary(NoEffect))
    case "swap" => Some(Binary(Swap))
    case "macro" => Some(Nullary(NoEffect))
    case "x=" => Some(Nullary(NoEffect))
    case "help" => Some(Nullary(NoEffect))
    case "exit" => Some(Nullary(Exit))
    case _ => None
  }

  /** A built-in command name. These names are reserved: neither a macro
      nor a variable may take one. */
  predicate IsCommand(name: string)
    ensures IsCommand(name) ==> |name| > 0
  {
    Lookup(name).Some?
  }

  /** `add_result_to_stack_if_not_none` after a successful call: push the
      normalised result, or fail when it cannot be normalised. */
  function PushResult(s: seq<Value>, result: Result<Raw>): (r: Outcome<seq<Value>>)
    ensures !r.Exited?
    ensures r.Failed? ==> r.state == s
    ensures result.Err? ==> r == Failed(s, result.error)
    ensures result.Ok? ==> (r.Done? <==> IsFiniteRaw(result.value))
    ensures r.Done? ==>
      && |r.state| == |s| + 1 && r.state[..|s|] == s
      && IsNormal(r.state[|s|]) && ValueNumber(r.state[|s|]) == RawNumber(result.value)
  {
    match result
    case Err(e) => Failed(s, e)
    case Ok(raw) =>
      match Normalize(raw)
      case Err(e) => Failed(s, e)
      case Ok(v) =>
        assert (s + [v])[..|s|] == s;
        Done(s + [v])
  }

  /** `~` as the table writes it: `operator.not_`, a logical negation that
      is true exactly for a zero operand. */
  function InvertAsWritten(v: Value): (r: Result<Raw>)
    ensures r.Ok? && r.value.RawBool?
    ensures v.Int? ==> (r.value.b <==> v.i == 0)
    ensures v.NonInt? ==> (r.value.b <==> v.f == Finite(0.0))
  {
    match v
    case Int(i) => Ok(RawBool(i == 0))
    case NonInt(f) => Ok(RawBool(f == Finite(0.0)))
  }

  /** `~` as the help text describes it: bitwise NOT, `-x - 1` on integers;
      Python refuses it on floats. The table does not use it. */
  function Invert(v: Value): (r: Result<Raw>)
    ensures r.Ok? <==> v.Int?
    ensures r.Ok? ==> r.value.RawInt? && r.value.i + v.i == -1
    ensures r.Err? ==> r.error == NotPossible
  {
    match v
    case Int(i) => Ok(RawInt(-i - 1))
    case NonInt(_) => Err(NotPossible)
  }

  /** The name a concretely defined arithmetic entry has in the table, used
      to hand non-integer operands to the library. */
  function ArithName(op: BinaryOp): string
    requires !op.Swap? && !op.BinaryLibrary?
  {
    match op
    case Add => "+"
    case Subtract => "-"
    case Multiply => "*"
    case Maximum => "max"
    case Minimum => "min"
  }

  function IntArith(op: BinaryOp, a: int, b: int): int
    requires !op.Swap? && !op.BinaryLibrary?
  {
    match op
    case Add => a + b
    case Subtract => a - b
    case Multiply => a * b
    case Maximum => if a >= b then a else b
    case Minimum => if a <= b then a else b
  }

  /** A one-operand entry applied to `arg`, which has already been popped
      from what is now `s`. */
  function ApplyUnary(lib: Library, op: UnaryOp, arg: Value, s: seq<Value>): (r: Outcome<seq<Value>>)
    ensures !r.Exited?
    ensures r.Failed? ==> r.state <= s
    ensures op.Increment? && arg.Int? ==> r == Done(s + [Int(arg.i + 1)])
    ensures op.Decrement? && arg.Int? ==> r == Done(s + [Int(arg.i - 1)])
    ensures op.LogicalNot? ==> r.Done? && (r.state == s + [Int(0)] || r.state == s + [Int(1)])
    ensures op.LogicalNot? ==> (r == Done(s + [Int(1)]) <==> IsFiniteValue(arg) && ValueNumber(arg) == 0.0)
    ensures (op.Increment? || op.Decrement? || op.LogicalNot? || op.UnaryLibrary?) && r.Done? ==>
      |r.state| == |s| + 1 && r.state[..|s|] == s && IsNormal(r.state[|s|])
  {
    match op
    case Increment =>
      if arg.Int? then PushResult(s, Ok(RawInt(arg.i + 1))) else PushResult(s, lib.unary("++", arg))
    case Decrement =>
      if arg.Int? then PushResult(s, Ok(RawInt(arg.i - 1))) else PushResult(s, lib.unary("--", arg))
    case Pick => PickNth(s, arg)
    case DropItems =>
      if arg.Int? then DropN(s, arg.i) else Failed(s, NotPossible)
    case DuplicateItems =>
      (match arg
       case Int(k) => DuplicateTop(s, k)
       case NonInt(f) =>
         Failed(s, if FloatAbove(f, |s|) then InsufficientDepth
                   else if FloatBelow(f, 1) then InvalidCount
                   else NotPossible))
    case Roll =>
      if arg.Int? then Done(Rotate(s, arg.i)) else Failed(s, NotPossible)
    case RollDown =>
      if arg.Int? then Done(Rotate(s, -arg.i)) else Failed(s, NotPossible)
    case LogicalNot => PushResult(s, InvertAsWritten(arg))
    case UnaryLibrary(name) => PushResult(s, lib.unary(name, arg))
  }

  /** A two-operand entry applied to `left` and `right` (the former top),
      both already popped from what is now `s`. */
  function ApplyBinary(lib: Library, op: BinaryOp, left: Value, right: Value, s: seq<Value>): (r: Outcome<seq<Value>>)
    ensures !r.Exited?
    ensures r.Failed? ==> r.state == s
    ensures op.Swap? ==> r.Done? && |r.state| == |s| + 2 && multiset(r.state) == multiset(s + [left, right])
    ensures !op.Swap? && r.Done? ==> |r.state| == |s| + 1 && r.state[..|s|] == s && IsNormal(r.state[|s|])
    ensures !op.Swap? && !op.BinaryLibrary? && left.Int? && right.Int? ==>
      r.Done? && r.state[|s|] == Int(IntArith(op, left.i, right.i))
  {
    match op
    case Swap => Done(s + [right, left])
    case BinaryLibrary(name) => PushResult(s, lib.binary(name, left, right))
    case _ =>
      if left.Int? && right.Int? then PushResult(s, Ok(RawInt(IntArith(op, left.i, right.i))))
      else PushResult(s, lib.binary(ArithName(op), left, right))
  }

  /** Call a table entry. The one- and two-operand wrappers check the depth
      before popping anything; once they have popped, a failure of the entry
      itself leaves the operands gone. */
  function Execute(lib: Library, st: Session, cmd: Command): (r: Outcome<Session>)
    ensures r.Exited? <==> cmd == Nullary(Exit)
    ensures r.state.vars == st.vars || r.state.vars == map[]
    ensures r.state.macros == st.macros || r.state.macros == map[]
    ensures !cmd.Nullary? ==> r.state.vars == st.vars && r.state.macros == st.macros
    ensures cmd != Nullary(ClearAll) && cmd != Nullary(ClearVariables) ==> r.state.vars == st.vars
    ensures cmd != Nullary(ClearAll) && cmd != Nullary(ClearMacros) ==> r.state.macros == st.macros
    ensures cmd.Unary? && |st.stack| == 0 ==> r == Failed(st, NeedsOneArgument)
    ensures cmd.Binary? && |st.stack| < 2 ==> r == Failed(st, NeedsTwoArguments)
    ensures cmd.Unary? && |st.stack| > 0 && r.Failed? ==> r.state.stack <= st.stack[..|st.stack| - 1]
    ensures cmd.Binary? && |st.stack| >= 2 && r.Failed? ==> r.state.stack == st.stack[..|st.stack| - 2]
  {
    var s := st.stack;
    match cmd
    case Nullary(op) =>
      (match op
       case ClearAll => Done(Initial)
       case ClearStack => Done(st.(stack := []))
       case ClearVariables => Done(st.(vars := map[]))
       case ClearMacros => Done(st.(macros := map[]))
       case Dup => Lift(st, DuplicateTop(s, 1))
       case Drop => Lift(st, DropN(s, 1))
       case Depth => Done(st.(stack := s + [Int(|s|)]))
       case Constant(name) => Lift(st, PushResult(s, Ok(lib.constant(name))))
       case NoEffect => Done(st)
       case Exit => Exited(st))
    case Unary(op) =>
      if |s| > 0 then Lift(st, ApplyUnary(lib, op, s[|s| - 1], s[..|s| - 1]))
      else Failed(st, NeedsOneArgument)
    case Binary(op) =>
      if |s| > 1 then Lift(st, ApplyBinary(lib, op, s[|s| - 2], s[|s| - 1], s[..|s| - 2]))
      else Failed(st, NeedsTwoArguments)
  }

  /** A stack outcome as an outcome on the whole session. */
  function Lift(st: Session, o: Outcome<seq<Value>>): (r: Outcome<Session>)
    requires !o.Exited?
    ensures r.state == WithStack(st, o.state)
    ensures r.Done? == o.Done? && (r.Failed? ==> o.Failed? && r.error == o.error)
    ensures !r.Exited?
  {
    match o
    case Done(s) => Done(WithStack(st, s))
    case Failed(s, e) => Failed(WithStack(st, s), e)
  }
}
