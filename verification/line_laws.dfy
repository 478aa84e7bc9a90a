/** Laws of whole lines and whole sessions, built from the step laws: what
    short command sequences do end to end, and how sessions of lines
    compose. */
module LineLaws {
  import opened Base
  import opened Values
  import opened Text
  import opened Stack
  import opened State
  import opened Commands
  import opened Directives
  import opened Interpreter
  import opened Laws
  import opened CommandLaws

  // ----- one visit at a time -----

  /** A command that fails ends the line with the session it reached:
      operands it popped stay popped, and no later token runs. */
  lemma CommandFailureEndsLine(lib: Library, st: Session, tokens: seq<string>, i: nat, fuel: nat)
    requires WellFormed(st) && i < |tokens| && Dispatched(tokens[i]) && fuel > 0
    requires Execute(lib, st, Lookup(tokens[i]).value).Failed?
    ensures var o := Execute(lib, st, Lookup(tokens[i]).value);
      Run(lib, st, tokens, i, fuel) == LineResult(o.state, Aborted(o.error))
  {
    CommandStep(lib, st, tokens, i);
  }

  // ----- short lines end to end -----

  /** A blank line is cut into the single empty token, which is not
      understood: the line ends with the session as it was. */
  lemma BlankLineUnparsable(lib: Library, st: Session, line: string, fuel: nat)
    requires WellFormed(st) && AllSpaces(line) && fuel > 0
    requires lib.parseFloat("") == None
    ensures Tokenize(line) == [""]
    ensures EvalLine(lib, st, line, fuel) == LineResult(st, Aborted(Unparsable))
  {
    StripOfSpaces(line);
    SplitJoin([""]);
    EmptyTokenStep(lib, st, [""], 0);
  }

  /** Two adjacent spaces make an empty token: in `1  2` the `1` is pushed,
      the empty token ends the line as not understood, and `2` never runs. */
  lemma DoubleSpaceAborts(lib: Library, st: Session, fuel: nat)
    requires WellFormed(st) && "1" !in st.vars && fuel >= 2
    requires lib.parseFloat("") == None
    ensures Tokenize("1  2") == ["1", "", "2"]
    ensures EvalLine(lib, st, "1  2", fuel) == LineResult(st.(stack := st.stack + [Int(1)]), Aborted(Unparsable))
  {
    TokenizeOneSpaceSpaceTwo();
    RunOneEmptyTwo(lib, st, fuel);
  }

  lemma RunOneEmptyTwo(lib: Library, st: Session, fuel: nat)
    requires WellFormed(st) && "1" !in st.vars && fuel >= 2
    requires lib.parseFloat("") == None
    ensures Run(lib, st, ["1", "", "2"], 0, fuel) == LineResult(st.(stack := st.stack + [Int(1)]), Aborted(Unparsable))
  {
    var tokens := ["1", "", "2"];
    assert IntToString(1) == "1";
    NumeralStep(lib, st, tokens, 0, 1);
    var st' := st.(stack := st.stack + [Int(1)]);
    DriveAdvance(StepOf(lib), st, tokens, 0, fuel, st', tokens, 1);
    EmptyTokenStep(lib, st', tokens, 1);
  }

  lemma TokenizeOneSpaceSpaceTwo()
    ensures Tokenize("1  2") == ["1", "", "2"]
  {
    var line := "1  2";
    StripOfPadded("", line, "");
    assert "" + line + "" == line;
    assert Join(["1", "", "2"]) == line;
    SplitJoin(["1", "", "2"]);
  }

  /** An integer operand followed by a command that succeeds on it. */
  lemma RunOperandCommand(lib: Library, st: Session, tokens: seq<string>, i: nat, k: int, fuel: nat)
    requires WellFormed(st) && i + 1 < |tokens| && fuel >= 2
    requires tokens[i] == IntToString(k) && tokens[i] !in st.vars && Dispatched(tokens[i + 1])
    requires Execute(lib, st.(stack := st.stack + [Int(k)]), Lookup(tokens[i + 1]).value).Done?
    ensures Run(lib, st, tokens, i, fuel) ==
      Run(lib, Execute(lib, st.(stack := st.stack + [Int(k)]), Lookup(tokens[i + 1]).value).state, tokens, i + 2, fuel - 2)
  {
    var st1 := st.(stack := st.stack + [Int(k)]);
    NumeralStep(lib, st, tokens, i, k);
    CommandStep(lib, st1, tokens, i + 1);
    var o := Execute(lib, st1, Lookup(tokens[i + 1]).value);
    DriveAdvanceTwice(StepOf(lib), st, tokens, i, fuel, st1, tokens, i + 1, o.state, tokens, i + 2);
  }

  /** The two visits of `k roll`: the numeral pushes `k`, then `roll`
      rotates the items below it. */
  lemma RollSteps(lib: Library, st: Session, tokens: seq<string>, i: nat, k: int)
    requires WellFormed(st) && i + 1 < |tokens|
    requires tokens[i] == IntToString(k) && tokens[i] !in st.vars && tokens[i + 1] == "roll"
    ensures StepOf(lib)(st, tokens, i) == Next(st.(stack := st.stack + [Int(k)]), tokens, i + 1)
    ensures StepOf(lib)(st.(stack := st.stack + [Int(k)]), tokens, i + 1) == Next(st.(stack := Rotate(st.stack, k)), tokens, i + 2)
  {
    NumeralStep(lib, st, tokens, i, k);
    RollName();
    RollRotates(lib, st, st.stack, k);
    CommandStep(lib, st.(stack := st.stack + [Int(k)]), tokens, i + 1);
  }

  /** The two visits of `k rolld`. */
  lemma RollDownSteps(lib: Library, st: Session, tokens: seq<string>, i: nat, k: int)
    requires WellFormed(st) && i + 1 < |tokens|
    requires tokens[i] == IntToString(k) && tokens[i] !in st.vars && tokens[i + 1] == "rolld"
    ensures StepOf(lib)(st, tokens, i) == Next(st.(stack := st.stack + [Int(k)]), tokens, i + 1)
    ensures StepOf(lib)(st.(stack := st.stack + [Int(k)]), tokens, i + 1) == Next(st.(stack := Rotate(st.stack, -k)), tokens, i + 2)
  {
    NumeralStep(lib, st, tokens, i, k);
    RollDownName();
    RollDownRotates(lib, st, st.stack, k);
    CommandStep(lib, st.(stack := st.stack + [Int(k)]), tokens, i + 1);
  }

  /** Four visits that each let the loop go on complete a line of four
      tokens. */
  lemma DriveFourSteps(step: Stepper, st: Session, tokens: seq<string>, fuel: nat,
                       st1: Session, st2: Session, st3: Session, st4: Session)
    requires |tokens| == 4 && fuel >= 4
    requires step(st, tokens, 0) == Next(st1, tokens, 1) && step(st1, tokens, 1) == Next(st2, tokens, 2)
    requires step(st2, tokens, 2) == Next(st3, tokens, 3) && step(st3, tokens, 3) == Next(st4, tokens, 4)
    ensures Drive(step, st, tokens, 0, fuel) == LineResult(st4, Completed)
  {
    DriveAdvanceTwice(step, st, tokens, 0, fuel, st1, tokens, 1, st2, tokens, 2);
    DriveAdvanceTwice(step, st2, tokens, 2, fuel - 2, st3, tokens, 3, st4, tokens, 4);
  }

  /** `k roll k rolld` leaves the session as it was. */
  lemma RollRoundTrip(lib: Library, st: Session, k: int, fuel: nat)
    requires WellFormed(st) && IntToString(k) !in st.vars && fuel >= 4
    ensures Run(lib, st, [IntToString(k), "roll", IntToString(k), "rolld"], 0, fuel) == LineResult(st, Completed)
  {
    var tokens := [IntToString(k), "roll", IntToString(k), "rolld"];
    var st2 := st.(stack := Rotate(st.stack, k));
    RollSteps(lib, st, tokens, 0, k);
    RollDownSteps(lib, st2, tokens, 2, k);
    RotateBackRestores(st.stack, k);
    DriveFourSteps(StepOf(lib), st, tokens, fuel, st.(stack := st.stack + [Int(k)]), st2,
                   st2.(stack := st2.stack + [Int(k)]), st);
  }

  /** `inc` is free to name a macro. */
  lemma IncName()
    ensures !IsCommand("inc") && IsAlpha("inc")
  {
  }

  /** `macro inc ++` defines `inc` as `++` and ends the line. */
  lemma DefineIncrementMacro(lib: Library, st: Session, fuel: nat)
    requires WellFormed(st) && fuel > 0
    ensures Run(lib, st, ["macro", "inc", "++"], 0, fuel) == LineResult(st.(macros := st.macros["inc" := ["++"]]), Completed)
  {
    var tokens := ["macro", "inc", "++"];
    IncName();
    MacroDefinitionEndsLine(lib, st, tokens, 0, fuel);
    assert tokens[1..] == ["inc", "++"] && tokens[1..][1..] == ["++"];
  }

  /** Three visits that each let the loop go on complete a line that the
      second visit rewrote into two tokens. */
  lemma DriveThreeSteps(step: Stepper, st: Session, tokens: seq<string>, fuel: nat,
                        st1: Session, expanded: seq<string>, st2: Session)
    requires 1 < |tokens| && |expanded| == 2 && fuel >= 3
    requires step(st, tokens, 0) == Next(st1, tokens, 1) && step(st1, tokens, 1) == Next(st1, expanded, 1)
    requires step(st1, expanded, 1) == Next(st2, expanded, 2)
    ensures Drive(step, st, tokens, 0, fuel) == LineResult(st2, Completed)
  {
    DriveAdvanceTwice(step, st, tokens, 0, fuel, st1, tokens, 1, st1, expanded, 1);
    DriveAdvance(step, st1, expanded, 1, fuel - 2, st2, expanded, 2);
  }

  /** With `inc` defined as `++`, `k inc` pushes `k + 1`. */
  lemma InvokeIncrementMacro(lib: Library, st: Session, k: int, fuel: nat)
    requires WellFormed(st) && "inc" in st.macros && st.macros["inc"] == ["++"]
    requires "inc" !in st.vars && IntToString(k) !in st.vars && fuel >= 3
    ensures Run(lib, st, [IntToString(k), "inc"], 0, fuel) == LineResult(st.(stack := st.stack + [Int(k + 1)]), Completed)
  {
    IncrementMacroSteps(lib, st, k);
    DriveThreeSteps(StepOf(lib), st, [IntToString(k), "inc"], fuel, st.(stack := st.stack + [Int(k)]),
                    [IntToString(k), "++"], st.(stack := st.stack + [Int(k + 1)]));
  }

  /** The three visits of `k inc`: push `k`, expand `inc`, run `++`. */
  lemma IncrementMacroSteps(lib: Library, st: Session, k: int)
    requires WellFormed(st) && "inc" in st.macros && st.macros["inc"] == ["++"]
    requires "inc" !in st.vars && IntToString(k) !in st.vars
    ensures var tokens, expanded := [IntToString(k), "inc"], [IntToString(k), "++"];
      var st1 := st.(stack := st.stack + [Int(k)]);
      && Step(lib, st, tokens, 0) == Next(st1, tokens, 1)
      && Step(lib, st1, tokens, 1) == Next(st1, expanded, 1)
      && Step(lib, st1, expanded, 1) == Next(st.(stack := st.stack + [Int(k + 1)]), expanded, 2)
  {
    var tokens := [IntToString(k), "inc"];
    var st1 := st.(stack := st.stack + [Int(k)]);
    NumeralStep(lib, st, tokens, 0, k);
    MacroInvocationStep(lib, st1, tokens, 1);
    assert tokens[..1] + st.macros["inc"] + tokens[2..] == [IntToString(k), "++"];
    IncrementStep(lib, st, [IntToString(k), "++"], k);
  }

  lemma IncrementStep(lib: Library, st: Session, tokens: seq<string>, k: int)
    requires WellFormed(st) && |tokens| == 2 && tokens[1] == "++" && "++" !in st.vars
    ensures Step(lib, st.(stack := st.stack + [Int(k)]), tokens, 1) == Next(st.(stack := st.stack + [Int(k + 1)]), tokens, 2)
  {
    ArithmeticLookups();
    CommandStep(lib, st.(stack := st.stack + [Int(k)]), tokens, 1);
    IncrementThenDecrement(lib, st, k);
  }

  /** The two lines `macro inc ++` and `k inc`: the second pushes `k + 1`
      and the macro stays defined. */
  lemma IncrementMacroLines(lib: Library, st: Session, k: int, fuel: nat)
    requires WellFormed(st) && "inc" !in st.vars && IntToString(k) !in st.vars && fuel >= 3
    ensures var def := Run(lib, st, ["macro", "inc", "++"], 0, fuel);
      && def.status == Completed
      && Run(lib, def.st, [IntToString(k), "inc"], 0, fuel) ==
         LineResult(Session(st.stack + [Int(k + 1)], st.vars, st.macros["inc" := ["++"]]), Completed)
  {
    DefineIncrementMacro(lib, st, fuel);
    var st1 := st.(macros := st.macros["inc" := ["++"]]);
    IncName();
    assert WellFormed(st1);
    InvokeIncrementMacro(lib, st1, k, fuel);
  }

  /** `name= name` leaves the stack as it was and the top item in the
      variable. */
  lemma AssignThenReference(lib: Library, st: Session, name: string, k: int, fuel: nat)
    requires WellFormed(st) && IsWord(name) && !IsCommand(name) && fuel >= 2
    requires |st.stack| > 0 && st.stack[|st.stack| - 1] == Int(k)
    ensures Run(lib, st, [name + "=", name], 0, fuel) == LineResult(st.(vars := st.vars[name := Int(k)]), Completed)
  {
    var tokens := [name + "=", name];
    var s := st.stack;
    AssignmentStep(lib, st, tokens, 0, name);
    var st1 := Session(s[..|s| - 1], st.vars[name := Int(k)], st.macros);
    assert WellFormed(st1);
    VariableReferenceStep(lib, st1, tokens, 1, k);
    assert s[..|s| - 1] + [Int(k)] == s;
    DriveAdvanceTwice(StepOf(lib), st, tokens, 0, fuel, st1, tokens, 1, st.(vars := st1.vars), tokens, 2);
  }

  /** The step copies the top item at each cursor from `i` to `i + n - 1`. */
  ghost predicate CopiesTopAt(step: Stepper, tokens: seq<string>, i: nat, n: nat,
                              vars: map<string, Value>, macros: map<string, seq<string>>) {
    forall stack: seq<Value>, j: nat :: i <= j < i + n && |stack| > 0 ==>
      step(Session(stack, vars, macros), tokens, j) == Next(Session(stack + [stack[|stack| - 1]], vars, macros), tokens, j + 1)
  }

  /** Driven by such a step, the loop copies the top item once per
      cursor. */
  lemma {:induction false} DriveCopiesTop(step: Stepper, st: Session, tokens: seq<string>, i: nat, n: nat, fuel: nat)
    requires CopiesTopAt(step, tokens, i, n, st.vars, st.macros)
    requires |st.stack| > 0 && i + n <= |tokens| && fuel >= n
    ensures Drive(step, st, tokens, i, fuel) ==
      Drive(step, st.(stack := st.stack + Copies(st.stack[|st.stack| - 1], n)), tokens, i + n, fuel - n)
    decreases n
  {
    var top := st.stack[|st.stack| - 1];
    if n == 0 {
      assert st.(stack := st.stack + Copies(top, 0)) == st;
    } else {
      var st' := st.(stack := st.stack + [top]);
      assert st == Session(st.stack, st.vars, st.macros);
      DriveAdvance(step, st, tokens, i, fuel, st', tokens, i + 1);
      DriveCopiesTop(step, st', tokens, i + 1, n - 1, fuel - 1);
      assert st'.stack + Copies(top, n - 1) == st.stack + Copies(top, n);
    }
  }

  /** Each `dup` token copies the top item. */
  lemma StepCopiesTop(lib: Library, tokens: seq<string>, i: nat, n: nat, vars: map<string, Value>, macros: map<string, seq<string>>)
    requires WellFormed(Session([], vars, macros)) && i + n <= |tokens|
    requires forall j :: i <= j < i + n ==> tokens[j] == "dup"
    ensures CopiesTopAt(StepOf(lib), tokens, i, n, vars, macros)
  {
    DupName();
    forall stack: seq<Value>, j: nat | i <= j < i + n && |stack| > 0
      ensures StepOf(lib)(Session(stack, vars, macros), tokens, j) ==
        Next(Session(stack + [stack[|stack| - 1]], vars, macros), tokens, j + 1)
    {
      var st := Session(stack, vars, macros);
      CommandStep(lib, st, tokens, j);
      DupThenDropRestores(lib, st);
    }
  }

  /** Two visits that rewrite the line into `expanded`, followed by `n`
      visits that each copy the top item, complete the line. */
  lemma DriveExpandThenCopy(step: Stepper, st: Session, tokens: seq<string>, fuel: nat,
                            st1: Session, expanded: seq<string>, n: nat)
    requires 1 < |tokens| && fuel >= n + 2 && |st.stack| > 0 && |expanded| == n + 1
    requires step(st, tokens, 0) == Next(st1, tokens, 1) && step(st1, tokens, 1) == Next(st, expanded, 1)
    requires CopiesTopAt(step, expanded, 1, n, st.vars, st.macros)
    ensures Drive(step, st, tokens, 0, fuel) ==
      LineResult(st.(stack := st.stack + Copies(st.stack[|st.stack| - 1], n)), Completed)
  {
    DriveAdvanceTwice(step, st, tokens, 0, fuel, st1, tokens, 1, st, expanded, 1);
    DriveCopiesTop(step, st, expanded, 1, n, fuel - 2);
  }

  /** `k repeat dup` pushes `k` copies of the top item. */
  lemma RepeatDup(lib: Library, st: Session, k: int, fuel: nat)
    requires WellFormed(st) && |st.stack| > 0 && k >= 1 && IntToString(k) !in st.vars && fuel >= k + 2
    ensures Run(lib, st, [IntToString(k), "repeat", "dup"], 0, fuel) ==
      LineResult(st.(stack := st.stack + Copies(st.stack[|st.stack| - 1], k)), Completed)
  {
    var tokens := [IntToString(k), "repeat", "dup"];
    var st1 := st.(stack := st.stack + [Int(k)]);
    var expanded := [IntToString(k)] + Copies("dup", k);
    NumeralStep(lib, st, tokens, 0, k);
    RepeatStep(lib, st1, tokens, 1, k);
    assert st1.stack[..|st1.stack| - 1] == st.stack;
    assert tokens[..1] + Copies("dup", k) + tokens[3..] == expanded;
    StepCopiesTop(lib, expanded, 1, k, st.vars, st.macros);
    DriveExpandThenCopy(StepOf(lib), st, tokens, fuel, st1, expanded, k);
  }

  // ----- sessions of lines -----

  /** Feeding two runs of lines one after the other is feeding their
      concatenation, unless the first run already ended the session. */
  lemma {:induction false} FeedAppend(eval: LineEvaluator, st: Session, first: seq<string>, second: seq<string>)
    ensures var a := Feed(eval, st, first);
      Feed(eval, st, first + second) == if a.finish == InputExhausted then Feed(eval, a.st, second) else a
    decreases |first|
  {
    if |first| > 0 {
      assert (first + second)[0] == first[0];
      assert (first + second)[1..] == first[1..] + second;
      FeedAppend(eval, eval(st, first[0]).st, first[1..], second);
    } else {
      assert first + second == second;
    }
  }

  /** So for the calculator's sessions. */
  lemma EvalLinesAppend(lib: Library, st: Session, first: seq<string>, second: seq<string>, fuel: nat)
    ensures var a := EvalLines(lib, st, first, fuel);
      EvalLines(lib, st, first + second, fuel) ==
        if a.finish == InputExhausted then EvalLines(lib, a.st, second, fuel) else a
  {
    FeedAppend((s: Session, line: string) => EvalLine(lib, s, line, fuel), st, first, second);
  }

  /** A session that ends on `exit` ignores every later line. */
  lemma ExitIgnoresLaterLines(lib: Library, st: Session, first: seq<string>, second: seq<string>, fuel: nat)
    ensures EvalLines(lib, st, first, fuel).finish == ExitCommand ==>
      EvalLines(lib, st, first + second, fuel) == EvalLines(lib, st, first, fuel)
  {
    EvalLinesAppend(lib, st, first, second, fuel);
  }
}
