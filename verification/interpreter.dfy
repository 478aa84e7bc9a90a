/** The token-dispatch loop of `main_loop`: one line is cut into tokens and
    consumed left to right by a cursor, while `repeat` and macro invocations
    rewrite the pending tokens in place. */
module Interpreter {
  import opened Base
  import opened Values
  import opened Text
  import opened Literals
  import opened Stack
  import opened State
  import opened Commands
  import opened Directives

  /** `str(v)`: how a variable's value re-enters the token stream. */
  function Render(lib: Library, v: Value): string {
    match v
    case Int(i) => IntToString(i)
    case NonInt(f) => lib.showFloat(f)
  }

  /** The token as the loop classifies it: a variable's name stands for the
      rendering of its value. The token list itself keeps the name. */
  function Substitute(lib: Library, vars: map<string, Value>, t: string): (r: string)
    ensures t !in vars ==> r == t
    ensures t in vars && vars[t].Int? ==> r == IntToString(vars[t].i)
  {
    if t in vars then Render(lib, vars[t]) else t
  }

  /** The pattern `^(\w+)=$`: the variable an assignment token names. */
  function AssignmentTarget(t: string): (r: Option<string>)
    ensures r.Some? <==> |t| >= 2 && t[|t| - 1] == '=' && IsWord(t[..|t| - 1])
    ensures r.Some? ==> IsWord(r.value) && r.value + "=" == t
  {
    if |t| >= 2 && t[|t| - 1] == '=' && IsWord(t[..|t| - 1]) then
      assert t[..|t| - 1] + "=" == t;
      Some(t[..|t| - 1])
    else None
  }

  /** The pattern `^dup(\d+)$`: how many items an indexed duplicate copies. */
  function DupCount(t: string): (r: Option<nat>)
    ensures r.Some? <==> |t| > 3 && t[..3] == "dup" && AllDigits(t[3..])
  {
    if |t| > 3 && t[..3] == "dup" && AllDigitsIn(t[3..], 10) then Some(DigitsValue(t[3..], 10))
    else None
  }

  /** How a line ends. */
  datatype Status =
    | Completed        // every token consumed, or a macro was defined
    | Aborted(error: Error)
    | Terminated       // the `exit` command
    | OutOfFuel        // the step bound ran out before the line ended

  /** One visit of the loop: either the loop goes on with a new session,
      token list and cursor, or the line is over. */
  datatype StepResult =
    | Next(st: Session, tokens: seq<string>, cursor: nat)
    | Halt(st: Session, status: Status)

  /** Continue after an operation, or stop the line with its failure. */
  function Resume(o: Outcome<Session>, tokens: seq<string>, cursor: nat): (r: StepResult)
    ensures r.st == o.state
    ensures r.Next? <==> o.Done?
    ensures r.Next? ==> r.tokens == tokens && r.cursor == cursor
    ensures o.Failed? ==> r == Halt(o.state, Aborted(o.error))
    ensures o.Exited? ==> r == Halt(o.state, Terminated)
  {
    match o
    case Done(s) => Next(s, tokens, cursor)
    case Failed(s, e) => Halt(s, Aborted(e))
    case Exited(s) => Halt(s, Terminated)
  }

  /** One pass of the inner loop on the token at cursor `i`, classified in
      the source's fixed order: `repeat`, `macro`, macro invocation, `name=`,
      `dupN`, command table, number. */
  function Step(lib: Library, st: Session, tokens: seq<string>, i: nat): (r: StepResult)
    requires i < |tokens|
    ensures r.Next? ==> i <= r.cursor <= i + 1 && r.cursor <= |r.tokens| && r.tokens[..i] == tokens[..i]
    ensures r.Halt? && r.status == Completed ==> Substitute(lib, st.vars, tokens[i]) == "macro"
    ensures r.Halt? ==> r.status != OutOfFuel
  {
    var t := Substitute(lib, st.vars, tokens[i]);
    var next := i + 1;
    if t == "repeat" then
      match RepeatCommands(st.stack, tokens, next)
      case Err(e) => Halt(st, Aborted(e))
      case Ok(copies) =>
        var rewritten := tokens[..i] + copies + tokens[next + 1..];
        assert rewritten[..i] == tokens[..i];
        Next(st.(stack := st.stack[..|st.stack| - 1]), rewritten, i)
    else if t == "macro" then
      match DefineMacro(st.macros, tokens[next..])
      case Err(e) => Halt(st, Aborted(e))
      case Ok(macros) => Halt(st.(macros := macros), Completed)
    else if t in st.macros then
      var rewritten := tokens[..i] + st.macros[t] + tokens[next..];
      assert rewritten[..i] == tokens[..i];
      Next(st, rewritten, i)
    else if AssignmentTarget(t).Some? then
      Resume(AssignVariable(st, AssignmentTarget(t).value), tokens, next)
    else if DupCount(t).Some? then
      Resume(Lift(st, DuplicateTop(st.stack, DupCount(t).value)), tokens, next)
    else if IsCommand(t) then
      Resume(Execute(lib, st, Lookup(t).value), tokens, next)
    else
      match ParseNumber(lib, t)
      case Ok(v) => Next(st.(stack := st.stack + [v]), tokens, next)
      case Err(e) => Halt(st, Aborted(e))
  }

  /** The session after a line, and how the line ended. */
  datatype LineResult = LineResult(st: Session, status: Status)

  /** A step function: what one visit of the loop does. */
  type Stepper = (Session, seq<string>, nat) -> StepResult

  /** The inner loop driven by any step function, from cursor `i`, allowed
      at most `fuel` visits. */
  function Drive(step: Stepper, st: Session, tokens: seq<string>, i: nat, fuel: nat): (r: LineResult)
    ensures i >= |tokens| ==> r == LineResult(st, Completed)
    ensures i < |tokens| && fuel == 0 ==> r == LineResult(st, OutOfFuel)
    ensures i < |tokens| && fuel > 0 && step(st, tokens, i).Halt? ==>
      r == LineResult(step(st, tokens, i).st, step(st, tokens, i).status)
    decreases fuel
  {
    if i >= |tokens| then LineResult(st, Completed)
    else if fuel == 0 then LineResult(st, OutOfFuel)
    else
      match step(st, tokens, i)
      case Halt(st', status) => LineResult(st', status)
      case Next(st', tokens', i') => Drive(step, st', tokens', i', fuel - 1)
  }

  /** A visit that lets the loop go on hands the rest of the line to the
      next visit, with one unit of fuel less. */
  lemma DriveAdvance(step: Stepper, st: Session, tokens: seq<string>, i: nat, fuel: nat, st': Session, tokens': seq<string>, i': nat)
    requires i < |tokens| && fuel > 0 && step(st, tokens, i) == Next(st', tokens', i')
    ensures Drive(step, st, tokens, i, fuel) == Drive(step, st', tokens', i', fuel - 1)
  {
  }

  /** Two visits that let the loop go on. */
  lemma DriveAdvanceTwice(step: Stepper, st: Session, tokens: seq<string>, i: nat, fuel: nat,
                          st1: Session, tokens1: seq<string>, i1: nat, st2: Session, tokens2: seq<string>, i2: nat)
    requires i < |tokens| && i1 < |tokens1| && fuel >= 2
    requires step(st, tokens, i) == Next(st1, tokens1, i1) && step(st1, tokens1, i1) == Next(st2, tokens2, i2)
    ensures Drive(step, st, tokens, i, fuel) == Drive(step, st2, tokens2, i2, fuel - 2)
  {
    DriveAdvance(step, st, tokens, i, fuel, st1, tokens1, i1);
  }

  /** The calculator's step as a step function. */
  function StepOf(lib: Library): Stepper {
    (st: Session, tokens: seq<string>, i: nat) => if i < |tokens| then Step(lib, st, tokens, i) else Halt(st, Completed)
  }

  /** The inner loop from cursor `i`. A macro may invoke itself, so without
      a bound on its visits the loop need not end. */
  function Run(lib: Library, st: Session, tokens: seq<string>, i: nat, fuel: nat): (r: LineResult)
    ensures i >= |tokens| ==> r == LineResult(st, Completed)
    ensures i < |tokens| && fuel == 0 ==> r == LineResult(st, OutOfFuel)
    ensures i < |tokens| && fuel > 0 && Step(lib, st, tokens, i).Halt? ==>
      r == LineResult(Step(lib, st, tokens, i).st, Step(lib, st, tokens, i).status)
    ensures r.status == OutOfFuel ==> i < |tokens| && (fuel == 0 || Step(lib, st, tokens, i).Next?)
  {
    Drive(StepOf(lib), st, tokens, i, fuel)
  }

  lemma {:induction false} DriveFuelMonotone(step: Stepper, st: Session, tokens: seq<string>, i: nat, fuel: nat, more: nat)
    requires Drive(step, st, tokens, i, fuel).status != OutOfFuel
    ensures Drive(step, st, tokens, i, fuel + more) == Drive(step, st, tokens, i, fuel)
    decreases fuel
  {
    if i < |tokens| && fuel > 0 {
      var r := step(st, tokens, i);
      if r.Next? {
        DriveFuelMonotone(step, r.st, r.tokens, r.cursor, fuel - 1, more);
      }
    }
  }

  /** `raw_input.strip().split(' ')`. */
  function Tokenize(line: string): (tokens: seq<string>)
    ensures |tokens| > 0
    ensures forall t :: t in tokens ==> ' ' !in t
  {
    Split(Strip(line))
  }

  /** Evaluate one input line against the session. */
  function EvalLine(lib: Library, st: Session, line: string, fuel: nat): (r: LineResult)
    ensures fuel == 0 ==> r == LineResult(st, OutOfFuel)
  {
    Run(lib, st, Tokenize(line), 0, fuel)
  }

  /** Why a sequence of input lines stopped being read. */
  datatype Finish =
    | InputExhausted   // every line was evaluated
    | ExitCommand      // a line ran `exit`
    | Diverged         // a line ran out of fuel

  datatype SessionEnd = SessionEnd(st: Session, finish: Finish)

  /** Evaluates one line against a session. */
  type LineEvaluator = (Session, string) -> LineResult

  /** Feed lines to an evaluator in turn until they run out, a line runs
      `exit`, or a line runs out of fuel. A failing line only abandons the
      rest of that line. */
  function Feed(eval: LineEvaluator, st: Session, lines: seq<string>): (r: SessionEnd)
    ensures |lines| == 0 ==> r == SessionEnd(st, InputExhausted)
    decreases |lines|
  {
    if |lines| == 0 then SessionEnd(st, InputExhausted)
    else
      var line := eval(st, lines[0]);
      match line.status
      case Terminated => SessionEnd(line.st, ExitCommand)
      case OutOfFuel => SessionEnd(line.st, Diverged)
      case _ => Feed(eval, line.st, lines[1..])
  }

  /** The interactive form of `main_loop`: the console's lines, given here
      as a parameter, are evaluated in turn against one session. */
  function EvalLines(lib: Library, st: Session, lines: seq<string>, fuel: nat): (r: SessionEnd)
    ensures |lines| == 0 ==> r == SessionEnd(st, InputExhausted)
    ensures |lines| > 0 && fuel == 0 ==> r == SessionEnd(st, Diverged)
  {
    Feed((s: Session, line: string) => EvalLine(lib, s, line, fuel), st, lines)
  }

  // ----- the session invariant -----

  /** No step breaks the invariant: definitions and assignments re-check
      the names they add. */
  lemma StepPreservesWellFormed(lib: Library, st: Session, tokens: seq<string>, i: nat)
    requires i < |tokens| && WellFormed(st)
    ensures WellFormed(Step(lib, st, tokens, i).st)
  {
    StepKeepsMacrosWellFormed(lib, st, tokens, i);
    StepKeepsVarsWellFormed(lib, st, tokens, i);
  }

  lemma StepKeepsMacrosWellFormed(lib: Library, st: Session, tokens: seq<string>, i: nat)
    requires i < |tokens| && MacrosWellFormed(st.macros)
    ensures MacrosWellFormed(Step(lib, st, tokens, i).st.macros)
  {
  }

  lemma StepKeepsVarsWellFormed(lib: Library, st: Session, tokens: seq<string>, i: nat)
    requires i < |tokens| && VarsWellFormed(st.vars)
    ensures VarsWellFormed(Step(lib, st, tokens, i).st.vars)
  {
  }

  /** Nor does a line. */
  lemma {:induction false} RunPreservesWellFormed(lib: Library, st: Session, tokens: seq<string>, i: nat, fuel: nat)
    requires WellFormed(st)
    ensures WellFormed(Run(lib, st, tokens, i, fuel).st)
    decreases fuel
  {
    if i < |tokens| && fuel > 0 {
      StepPreservesWellFormed(lib, st, tokens, i);
      var r := Step(lib, st, tokens, i);
      if r.Next? {
        RunPreservesWellFormed(lib, r.st, r.tokens, r.cursor, fuel - 1);
      }
    }
  }

  /** Nor does a session of lines, from start-up on. */
  lemma {:induction false} FeedPreservesWellFormed(lib: Library, st: Session, lines: seq<string>, fuel: nat)
    requires WellFormed(st)
    ensures WellFormed(Feed((s: Session, line: string) => EvalLine(lib, s, line, fuel), st, lines).st)
    decreases |lines|
  {
    if |lines| > 0 {
      var line := EvalLine(lib, st, lines[0], fuel);
      RunPreservesWellFormed(lib, st, Tokenize(lines[0]), 0, fuel);
      FeedPreservesWellFormed(lib, line.st, lines[1..], fuel);
    }
  }

  lemma EvalLinesPreservesWellFormed(lib: Library, st: Session, lines: seq<string>, fuel: nat)
    requires WellFormed(st)
    ensures WellFormed(EvalLines(lib, st, lines, fuel).st)
  {
    FeedPreservesWellFormed(lib, st, lines, fuel);
  }

  /** The start-up session is well formed. */
  lemma InitialWellFormed()
    ensures WellFormed(Initial)
  {
  }
}
