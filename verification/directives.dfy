/** The three directives the dispatch loop handles itself rather than
    through the command table: `repeat`, `macro` and `name=`. */
module Directives {
  import opened Base
  import opened Values
  import opened Text
  import opened State
  import opened Commands

  /** What every reachable session satisfies: macro names are alphabetic,
      not reserved, and their bodies never contain `macro`; variable names
      match `\w+` and are not reserved. */
  predicate WellFormed(st: Session) {
    MacrosWellFormed(st.macros) && VarsWellFormed(st.vars)
  }

  predicate MacrosWellFormed(macros: map<string, seq<string>>) {
    forall m :: m in macros ==> IsAlpha(m) && !IsCommand(m) && "macro" !in macros[m]
  }

  predicate VarsWellFormed(vars: map<string, Value>) {
    forall v :: v in vars ==> IsWord(v) && !IsCommand(v)
  }

  /** `n` copies of `t`, a token or a stack item. */
  function Copies<T>(t: T, n: nat): (r: seq<T>)
    ensures |r| == n
    ensures forall j :: 0 <= j < n ==> r[j] == t
  {
    seq(n, _ => t)
  }

  /** The count check of `get_repeat_commands` rejects `v`: below one, or
      a float that is not whole. Infinities and NaN make the check itself
      raise, and a whole float passes it only to fail when the token list
      is multiplied by it. */
  predicate CountRejected(v: Value) {
    match v
    case Int(k) => k < 1
    case NonInt(f) => FloatBelow(f, 1) || (f.Finite? && !IsWhole(f.r))
  }

  /** `get_repeat_commands`: validate the count on top of the stack and the
      token after `repeat` (at index `next`), and list the copies. The count
      is not popped here. */
  function RepeatCommands(stack: seq<Value>, tokens: seq<string>, next: nat): (r: Result<seq<string>>)
    ensures |stack| == 0 ==> r == Err(NoRepeatCount)
    ensures |stack| > 0 && next >= |tokens| ==> r == Err(NoRepeatAction)
    ensures r.Ok? <==> |stack| > 0 && next < |tokens| && stack[|stack| - 1].Int? && stack[|stack| - 1].i >= 1
    ensures r.Ok? ==> |r.value| == stack[|stack| - 1].i && forall j :: 0 <= j < |r.value| ==> r.value[j] == tokens[next]
    ensures r.Err? && |stack| > 0 && next < |tokens| ==>
      if CountRejected(stack[|stack| - 1]) then r.error == BadRepeatCount else r.error == NotPossible
  {
    if |stack| < 1 then Err(NoRepeatCount)
    else if next >= |tokens| then Err(NoRepeatAction)
    else
      match stack[|stack| - 1]
      case Int(k) =>
        if k < 1 then Err(BadRepeatCount) else Ok(Copies(tokens[next], k))
      case NonInt(f) =>
        match f
        case Finite(x) =>
          if x < 1.0 || !IsWhole(x) then Err(BadRepeatCount)
          else Err(NotPossible)          // the list cannot be multiplied by a float
        case Infinity(negative) =>
          if negative then Err(BadRepeatCount)
          else Err(NotPossible)          // converting infinity to int overflows
        case NaN => Err(NotPossible)     // converting NaN to int is a value error
  }

  /** `set_macro_command`: `input` is the rest of the line after `macro`;
      its first token names the macro and the others are its body. */
  function DefineMacro(macros: map<string, seq<string>>, input: seq<string>): (r: Result<map<string, seq<string>>>)
    ensures |input| == 0 ==> r == Err(NotPossible)
    ensures |input| > 0 && IsCommand(input[0]) ==> r == Err(ReservedName)
    ensures |input| > 0 && !IsCommand(input[0]) && !IsAlpha(input[0]) ==> r == Err(InvalidMacroName)
    ensures r.Ok? <==> |input| > 0 && !IsCommand(input[0]) && IsAlpha(input[0]) && "macro" !in input[1..]
    ensures r.Err? && |input| > 0 && !IsCommand(input[0]) && IsAlpha(input[0]) ==> r.error == NestedMacro
    ensures r.Ok? ==> r.value.Keys == macros.Keys + {input[0]}
    ensures r.Ok? ==> r.value[input[0]] == input[1..]
    ensures r.Ok? ==> forall m :: m in macros && m != input[0] ==> r.value[m] == macros[m]
  {
    if |input| == 0 then Err(NotPossible)   // indexing an empty list
    else if IsCommand(input[0]) then Err(ReservedName)
    else if !IsAlpha(input[0]) then Err(InvalidMacroName)
    else if "macro" in input[1..] then Err(NestedMacro)
    else Ok(macros[input[0] := input[1..]])
  }

  /** `set_variable`: pop the top of the stack into variable `name`. The
      reserved-name check comes before the stack is examined. */
  function AssignVariable(st: Session, name: string): (r: Outcome<Session>)
    ensures !r.Exited?
    ensures IsCommand(name) ==> r == Failed(st, ReservedName)
    ensures !IsCommand(name) && |st.stack| == 0 ==> r == Failed(st, NoValueForVariable)
    ensures r.Done? <==> !IsCommand(name) && |st.stack| > 0
    ensures r.Done? ==> r.state.stack + [st.stack[|st.stack| - 1]] == st.stack
    ensures r.Done? ==> name in r.state.vars && r.state.vars[name] == st.stack[|st.stack| - 1]
    ensures r.Done? ==> r.state.vars.Keys == st.vars.Keys + {name}
    ensures r.Done? ==> forall v :: v in st.vars && v != name ==> r.state.vars[v] == st.vars[v]
    ensures r.state.macros == st.macros
  {
    if IsCommand(name) then Failed(st, ReservedName)
    else if |st.stack| < 1 then Failed(st, NoValueForVariable)
    else
      var s := st.stack;
      assert s[..|s| - 1] + [s[|s| - 1]] == s;
      Done(Session(s[..|s| - 1], st.vars[name := s[|s| - 1]], st.macros))
  }
}
