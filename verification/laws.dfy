/** Properties of the dispatch loop: how each kind of token rewrites the
    pending tokens and the session, and what a whole line does. */
module Laws {
  import opened Base
  import opened Values
  import opened Text
  import opened Literals
  import opened Stack
  import opened State
  import opened Commands
  import opened Directives
  import opened Interpreter

  // ----- which tokens are which -----

  /** A name made only of characters outside `\w`. */
  predicate Symbolic(name: string) {
    |name| > 0 && forall j :: 0 <= j < |name| ==> !IsWordChar(name[j])
  }

  /** The arithmetic names are symbols or letters. */
  lemma ArithmeticNames(name: string)
    requires ArithmeticEntry(name).Some?
    ensures IsAlpha(name) || Symbolic(name)
  {
  }

  /** The operator names are symbols. */
  lemma OperatorNames(name: string)
    requires OperatorEntry(name).Some?
    ensures Symbolic(name)
  {
  }

  /** The mathematical names are letters. */
  lemma MathsNames(name: string)
    requires MathsEntry(name).Some?
    ensures IsAlpha(name)
  {
  }

  /** So are the stack names, apart from the `x=` placeholder. */
  lemma StackNames(name: string)
    requires StackEntry(name).Some?
    ensures IsAlpha(name) || name == "x="
  {
  }

  /** A name of letters or of symbols has no digit and is no assignment. */
  lemma PlainNameShape(name: string)
    requires IsAlpha(name) || Symbolic(name)
    ensures !HasDigit(name) && AssignmentTarget(name).None?
  {
    if IsAlpha(name) {
      assert !IsWordChar('=');
      assert name[|name| - 1] != '=';
    } else if |name| >= 2 {
      assert name[..|name| - 1][0] == name[0];
    }
  }

  /** No built-in command name contains a decimal digit, and the only one
      shaped like an assignment is the `x=` placeholder. */
  lemma CommandNamesHaveNoDigits(name: string)
    requires IsCommand(name)
    ensures !HasDigit(name)
    ensures AssignmentTarget(name).Some? ==> name == "x="
  {
    if ArithmeticEntry(name).Some? {
      ArithmeticNames(name);
    } else if OperatorEntry(name).Some? {
      OperatorNames(name);
    } else if MathsEntry(name).Some? {
      MathsNames(name);
    } else {
      StackNames(name);
    }
    if name != "x=" {
      PlainNameShape(name);
    } else {
      assert !IsDigit(name[0]) && !IsDigit(name[1]);
    }
  }

  /** The rendering of an integer is classified as a number: it is no
      directive, no macro name in a well-formed session, no assignment, no
      indexed duplicate and no command, and it parses back to the integer. */
  lemma NumeralIsNumber(lib: Library, st: Session, k: int)
    requires WellFormed(st)
    ensures var t := IntToString(k);
      && t != "repeat" && t != "macro" && t !in st.macros
      && AssignmentTarget(t).None? && DupCount(t).None? && !IsCommand(t)
      && ParseNumber(lib, t) == Ok(Int(k))
  {
    var t := IntToString(k);
    assert IsDigit(t[|t| - 1]);
    assert HasDigit(t);
    if IsCommand(t) {
      CommandNamesHaveNoDigits(t);
    }
    NumberRoundTrip(lib, k);
  }

  /** A table name the loop reaches through the command table: `repeat`
      and `macro` are handled as directives before it, and the `x=` entry
      is caught by the assignment pattern. */
  predicate Dispatched(t: string) {
    IsCommand(t) && t != "repeat" && t != "macro" && t != "x="
  }

  /** A command name is executed as its table entry; the rest of the line
      stays pending. */
  lemma CommandStep(lib: Library, st: Session, tokens: seq<string>, i: nat)
    requires WellFormed(st) && i < |tokens| && Dispatched(tokens[i])
    ensures Step(lib, st, tokens, i) == Resume(Execute(lib, st, Lookup(tokens[i]).value), tokens, i + 1)
  {
    var t := tokens[i];
    CommandNamesHaveNoDigits(t);
  }

  /** A variable holding an integer stands for that integer wherever its
      name appears, even when a macro has the same name. */
  lemma VariableReferenceStep(lib: Library, st: Session, tokens: seq<string>, i: nat, k: int)
    requires WellFormed(st) && i < |tokens|
    requires tokens[i] in st.vars && st.vars[tokens[i]] == Int(k)
    ensures Step(lib, st, tokens, i) == Next(st.(stack := st.stack + [Int(k)]), tokens, i + 1)
  {
    NumeralIsNumber(lib, st, k);
  }

  /** A numeral not used as a variable name pushes its integer. */
  lemma NumeralStep(lib: Library, st: Session, tokens: seq<string>, i: nat, k: int)
    requires WellFormed(st) && i < |tokens|
    requires tokens[i] == IntToString(k) && tokens[i] !in st.vars
    ensures Step(lib, st, tokens, i) == Next(st.(stack := st.stack + [Int(k)]), tokens, i + 1)
  {
    NumeralIsNumber(lib, st, k);
  }

  /** A token that no earlier branch claims is read as a number: it pushes
      what the parser makes of it, or ends the line as not understood. */
  lemma NumberStep(lib: Library, st: Session, tokens: seq<string>, i: nat)
    requires i < |tokens|
    requires var t := tokens[i];
      && t !in st.vars && t !in st.macros && !IsCommand(t)
      && AssignmentTarget(t).None? && DupCount(t).None?
    ensures var p := ParseNumber(lib, tokens[i]);
      && (p.Ok? ==> Step(lib, st, tokens, i) == Next(st.(stack := st.stack + [p.value]), tokens, i + 1))
      && (p.Err? ==> Step(lib, st, tokens, i) == Halt(st, Aborted(Unparsable)))
  {
    assert IsCommand("repeat") && IsCommand("macro");
  }

  /** The empty token, which two adjacent spaces produce, ends the line as
      not understood, with the session as it was. */
  lemma EmptyTokenStep(lib: Library, st: Session, tokens: seq<string>, i: nat)
    requires WellFormed(st) && i < |tokens| && tokens[i] == ""
    requires lib.parseFloat("") == None
    ensures Step(lib, st, tokens, i) == Halt(st, Aborted(Unparsable))
  {
    assert "" !in st.vars && "" !in st.macros;
    EmptyTokenUnparsable(lib);
    NumberStep(lib, st, tokens, i);
  }

  /** A macro name not hidden by a variable is replaced in place by the
      macro's body, and the cursor stays on the first token of the body. */
  lemma MacroInvocationStep(lib: Library, st: Session, tokens: seq<string>, i: nat)
    requires WellFormed(st) && i < |tokens|
    requires tokens[i] in st.macros && tokens[i] !in st.vars
    ensures Step(lib, st, tokens, i) == Next(st, tokens[..i] + st.macros[tokens[i]] + tokens[i + 1..], i)
  {
    assert IsCommand("repeat") && IsCommand("macro");
  }

  /** `name=` pops the top item into the variable `name`. */
  lemma AssignmentStep(lib: Library, st: Session, tokens: seq<string>, i: nat, name: string)
    requires WellFormed(st) && i < |tokens| && tokens[i] == name + "=" && IsWord(name)
    ensures Step(lib, st, tokens, i) == Resume(AssignVariable(st, name), tokens, i + 1)
  {
    var t := tokens[i];
    assert t[|t| - 1] == '=' && !IsWordChar('=') && !IsLetter('=');
    assert t !in st.vars && t !in st.macros;
    assert t[..|t| - 1] == name;
    assert AssignmentTarget(t) == Some(name);
  }

  /** `dupN` copies the top `N` items, for any decimal digits `N`,
      leading zeros included (`dup03` copies three). */
  lemma IndexedDuplicateStep(lib: Library, st: Session, tokens: seq<string>, i: nat, digits: string)
    requires WellFormed(st) && i < |tokens|
    requires |digits| > 0 && AllDigitsIn(digits, 10)
    requires tokens[i] == "dup" + digits && tokens[i] !in st.vars
    ensures Step(lib, st, tokens, i) == Resume(Lift(st, DuplicateTop(st.stack, DigitsValue(digits, 10))), tokens, i + 1)
  {
    var t := tokens[i];
    assert t[..3] == "dup" && t[3..] == digits;
    assert t[|t| - 1] == digits[|digits| - 1];
    assert HexValue(digits[|digits| - 1]) < 10;
    assert t[0] == 'd' && !IsLetter(t[|t| - 1]);
    assert t != "repeat" && t != "macro" && t !in st.macros;
    assert AssignmentTarget(t).None?;
    assert DupCount(t) == Some(DigitsValue(digits, 10));
  }

  /** In particular `dup` followed by the decimal rendering of `n` copies
      the top `n` items. */
  lemma IndexedDuplicateRendered(lib: Library, st: Session, tokens: seq<string>, i: nat, n: nat)
    requires WellFormed(st) && i < |tokens|
    requires tokens[i] == "dup" + NatToString(n) && tokens[i] !in st.vars
    ensures Step(lib, st, tokens, i) == Resume(Lift(st, DuplicateTop(st.stack, n)), tokens, i + 1)
  {
    DigitsOfNatToString(n);
    IndexedDuplicateStep(lib, st, tokens, i, NatToString(n));
  }

  // ----- directives over a whole line -----

  /** `macro` ends the line: the tokens after it are the definition and are
      never executed. A rejected definition leaves the session as it was. */
  lemma MacroDefinitionEndsLine(lib: Library, st: Session, tokens: seq<string>, i: nat, fuel: nat)
    requires WellFormed(st) && i < |tokens| && tokens[i] == "macro" && fuel > 0
    ensures var d := DefineMacro(st.macros, tokens[i + 1..]);
      Run(lib, st, tokens, i, fuel) ==
        if d.Ok? then LineResult(st.(macros := d.value), Completed)
        else LineResult(st, Aborted(d.error))
  {
    assert IsCommand("macro");
  }

  /** A valid `repeat` pops its count and replaces itself and the token
      after it by that many copies of the token, then goes on from the
      first copy. */
  lemma RepeatExpands(lib: Library, st: Session, tokens: seq<string>, i: nat, k: int, fuel: nat)
    requires WellFormed(st) && i + 1 < |tokens| && tokens[i] == "repeat"
    requires |st.stack| > 0 && st.stack[|st.stack| - 1] == Int(k) && k >= 1
    ensures Run(lib, st, tokens, i, fuel + 1) ==
      Run(lib, st.(stack := st.stack[..|st.stack| - 1]), tokens[..i] + Copies(tokens[i + 1], k) + tokens[i + 2..], i, fuel)
  {
    assert IsCommand("repeat");
  }

  /** The same, one visit at a time. */
  lemma RepeatStep(lib: Library, st: Session, tokens: seq<string>, i: nat, k: int)
    requires WellFormed(st) && i + 1 < |tokens| && tokens[i] == "repeat"
    requires |st.stack| > 0 && st.stack[|st.stack| - 1] == Int(k) && k >= 1
    ensures Step(lib, st, tokens, i) ==
      Next(st.(stack := st.stack[..|st.stack| - 1]), tokens[..i] + Copies(tokens[i + 1], k) + tokens[i + 2..], i)
  {
    assert IsCommand("repeat");
  }

  /** A rejected `repeat` ends the line with the session untouched, the
      count still on the stack. */
  lemma RepeatFailsCleanly(lib: Library, st: Session, tokens: seq<string>, i: nat, fuel: nat)
    requires WellFormed(st) && i < |tokens| && tokens[i] == "repeat" && fuel > 0
    requires RepeatCommands(st.stack, tokens, i + 1).Err?
    ensures Run(lib, st, tokens, i, fuel) == LineResult(st, Aborted(RepeatCommands(st.stack, tokens, i + 1).error))
  {
    assert IsCommand("repeat");
  }

  // ----- whole lines -----

  /** Fuel beyond what a line needs changes nothing. */
  lemma {:induction false} RunFuelMonotone(lib: Library, st: Session, tokens: seq<string>, i: nat, fuel: nat, more: nat)
    requires Run(lib, st, tokens, i, fuel).status != OutOfFuel
    ensures Run(lib, st, tokens, i, fuel + more) == Run(lib, st, tokens, i, fuel)
    decreases fuel
  {
    DriveFuelMonotone(StepOf(lib), st, tokens, i, fuel, more);
  }

  /** A macro whose body is its own name never finishes: the loop runs
      out of any bound on its steps. */
  lemma {:induction false} SelfMacroDiverges(lib: Library, st: Session, name: string, fuel: nat)
    requires WellFormed(st) && name in st.macros && st.macros[name] == [name] && name !in st.vars
    ensures Run(lib, st, [name], 0, fuel).status == OutOfFuel
    decreases fuel
  {
    if fuel > 0 {
      MacroInvocationStep(lib, st, [name], 0);
      assert [name][..0] + st.macros[name] + [name][1..] == [name];
      SelfMacroDiverges(lib, st, name, fuel - 1);
    }
  }

  /** The tokens naming the integers `ks`. */
  function Numerals(ks: seq<int>): (r: seq<string>)
    ensures |r| == |ks|
    ensures forall j :: 0 <= j < |ks| ==> r[j] == IntToString(ks[j])
  {
    seq(|ks|, j requires 0 <= j < |ks| => IntToString(ks[j]))
  }

  /** The stack items for the integers `ks`. */
  function Ints(ks: seq<int>): (r: seq<Value>)
    ensures |r| == |ks|
    ensures forall j :: 0 <= j < |ks| ==> r[j] == Int(ks[j])
  {
    if |ks| == 0 then [] else [Int(ks[0])] + Ints(ks[1..])
  }

  /** The tokens from cursor `i` on name the integers `ks`, and none of
      them is a variable. */
  predicate NumeralsAt(tokens: seq<string>, i: nat, ks: seq<int>, vars: map<string, Value>) {
    && i + |ks| <= |tokens|
    && forall j :: i <= j < i + |ks| ==> tokens[j] == IntToString(ks[j - i]) && tokens[j] !in vars
  }

  /** The step pushes the integers `ks` in turn at the cursors from `i`
      on, whatever the stack below. */
  ghost predicate PushesNumerals(step: Stepper, tokens: seq<string>, i: nat, ks: seq<int>,
                                 vars: map<string, Value>, macros: map<string, seq<string>>) {
    forall stack: seq<Value>, j: nat :: i <= j < i + |ks| ==>
      step(Session(stack, vars, macros), tokens, j) == Next(Session(stack + [Int(ks[j - i])], vars, macros), tokens, j + 1)
  }

  /** The step pushes any numeral no variable hides, whatever the stack
      below. */
  ghost predicate PushesAnyNumeral(step: Stepper, vars: map<string, Value>, macros: map<string, seq<string>>) {
    forall stack: seq<Value>, tokens: seq<string>, j: nat, k: int
      {:trigger step(Session(stack, vars, macros), tokens, j), IntToString(k)} ::
      j < |tokens| && tokens[j] == IntToString(k) && tokens[j] !in vars ==>
        step(Session(stack, vars, macros), tokens, j) == Next(Session(stack + [Int(k)], vars, macros), tokens, j + 1)
  }

  /** The calculator's step is such a step in a well-formed session. */
  lemma StepPushesAnyNumeral(lib: Library, vars: map<string, Value>, macros: map<string, seq<string>>)
    requires WellFormed(Session([], vars, macros))
    ensures PushesAnyNumeral(StepOf(lib), vars, macros)
  {
    forall stack: seq<Value>, tokens: seq<string>, j: nat, k: int |
      j < |tokens| && tokens[j] == IntToString(k) && tokens[j] !in vars
      ensures StepOf(lib)(Session(stack, vars, macros), tokens, j) == Next(Session(stack + [Int(k)], vars, macros), tokens, j + 1)
    {
      NumeralStep(lib, Session(stack, vars, macros), tokens, j, k);
    }
  }

  /** Such a step pushes the integers a run of numerals names. */
  lemma PushesNumeralsHere(step: Stepper, tokens: seq<string>, i: nat, ks: seq<int>,
                           vars: map<string, Value>, macros: map<string, seq<string>>)
    requires PushesAnyNumeral(step, vars, macros) && NumeralsAt(tokens, i, ks, vars)
    ensures PushesNumerals(step, tokens, i, ks, vars, macros)
  {
    forall stack: seq<Value>, j: nat | i <= j < i + |ks|
      ensures step(Session(stack, vars, macros), tokens, j) ==
        Next(Session(stack + [Int(ks[j - i])], vars, macros), tokens, j + 1)
    {
      PushesNumeralAt(step, tokens, i, ks, vars, macros, stack, j);
    }
  }

  lemma PushesNumeralAt(step: Stepper, tokens: seq<string>, i: nat, ks: seq<int>,
                        vars: map<string, Value>, macros: map<string, seq<string>>, stack: seq<Value>, j: nat)
    requires PushesAnyNumeral(step, vars, macros) && NumeralsAt(tokens, i, ks, vars) && i <= j < i + |ks|
    ensures step(Session(stack, vars, macros), tokens, j) == Next(Session(stack + [Int(ks[j - i])], vars, macros), tokens, j + 1)
  {
    var k := ks[j - i];
    assert tokens[j] == IntToString(k) && tokens[j] !in vars;
  }

  lemma PushesNumeralsTail(step: Stepper, tokens: seq<string>, i: nat, ks: seq<int>,
                           vars: map<string, Value>, macros: map<string, seq<string>>)
    requires |ks| > 0 && PushesNumerals(step, tokens, i, ks, vars, macros)
    ensures PushesNumerals(step, tokens, i + 1, ks[1..], vars, macros)
  {
    var i', rest := i + 1, ks[1..];
    forall stack: seq<Value>, j: nat | i' <= j < i' + |rest|
      ensures step(Session(stack, vars, macros), tokens, j) ==
        Next(Session(stack + [Int(rest[j - i'])], vars, macros), tokens, j + 1)
    {
      assert rest[j - i'] == ks[j - i];
    }
  }

  /** Driven by such a step, the numerals push the integers in order, one
      visit each, and the loop goes on after them. */
  lemma {:induction false} DrivePushesNumerals(step: Stepper, st: Session, tokens: seq<string>, i: nat, ks: seq<int>, fuel: nat)
    requires PushesNumerals(step, tokens, i, ks, st.vars, st.macros) && fuel >= |ks| && i + |ks| <= |tokens|
    ensures Drive(step, st, tokens, i, fuel) ==
      Drive(step, st.(stack := st.stack + Ints(ks)), tokens, i + |ks|, fuel - |ks|)
    decreases |ks|
  {
    if |ks| == 0 {
      assert st.(stack := st.stack + Ints(ks)) == st;
    } else {
      var st' := st.(stack := st.stack + [Int(ks[0])]);
      DrivePushesFirst(step, st, tokens, i, ks, fuel);
      DrivePushesNumerals(step, st', tokens, i + 1, ks[1..], fuel - 1);
      IntsCons(st.stack, ks);
    }
  }

  /** The first numeral of the run is pushed, and the rest still push. */
  lemma DrivePushesFirst(step: Stepper, st: Session, tokens: seq<string>, i: nat, ks: seq<int>, fuel: nat)
    requires PushesNumerals(step, tokens, i, ks, st.vars, st.macros) && 0 < |ks| <= fuel && i + |ks| <= |tokens|
    ensures Drive(step, st, tokens, i, fuel) == Drive(step, st.(stack := st.stack + [Int(ks[0])]), tokens, i + 1, fuel - 1)
    ensures PushesNumerals(step, tokens, i + 1, ks[1..], st.vars, st.macros)
  {
    assert st == Session(st.stack, st.vars, st.macros);
    DriveAdvance(step, st, tokens, i, fuel, st.(stack := st.stack + [Int(ks[0])]), tokens, i + 1);
    PushesNumeralsTail(step, tokens, i, ks, st.vars, st.macros);
  }

  lemma IntsCons(s: seq<Value>, ks: seq<int>)
    requires |ks| > 0
    ensures s + [Int(ks[0])] + Ints(ks[1..]) == s + Ints(ks)
  {
  }

  /** A line of numerals pushes the integers in order, one visit each. */
  lemma PushNumerals(lib: Library, st: Session, ks: seq<int>, fuel: nat)
    requires WellFormed(st) && fuel >= |ks|
    requires forall j :: 0 <= j < |ks| ==> IntToString(ks[j]) !in st.vars
    ensures Run(lib, st, Numerals(ks), 0, fuel) == LineResult(st.(stack := st.stack + Ints(ks)), Completed)
  {
    StepPushesAnyNumeral(lib, st.vars, st.macros);
    NumeralsAtStart(ks, st.vars);
    PushesNumeralsHere(StepOf(lib), Numerals(ks), 0, ks, st.vars, st.macros);
    DrivePushesNumerals(StepOf(lib), st, Numerals(ks), 0, ks, fuel);
  }

  lemma NumeralsAtStart(ks: seq<int>, vars: map<string, Value>)
    requires forall j :: 0 <= j < |ks| ==> IntToString(ks[j]) !in vars
    ensures NumeralsAt(Numerals(ks), 0, ks, vars)
  {
    var tokens := Numerals(ks);
    forall j | 0 <= j < |ks|
      ensures tokens[j] == IntToString(ks[j - 0]) && tokens[j] !in vars
    {
    }
  }
}
