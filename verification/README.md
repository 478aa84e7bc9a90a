# rpn: a verified model of the calculator's interpreter

`rpn.py` is a reverse-Polish command-line calculator. A line is cut into
tokens at single spaces, and the tokens are consumed left to right by a
cursor. Each token pushes a number, runs an entry of the command table, or
is one of the directives the loop handles itself:

- `repeat` copies the next token as many times as the top of the stack says;
- `macro name body…` defines a macro, and a macro's name later expands in place;
- `name=` pops the top of the stack into a variable;
- `dupN` duplicates the top `N` items.

State lives in one session: the operand stack, the variables and the macros.
A failing token abandons the rest of its line but keeps what the earlier
tokens did.

The Dafny project models that interpreter as pure functions over an
immutable `Session(stack, vars, macros)`.

| file | module | what it holds |
|---|---|---|
| `base.dfy` | `Base` | `Option`, `Result`, and the `Outcome` of an operation that may fail after mutating the state |
| `values.dfy` | `Values` | operands (`Int` or `NonInt` float); an abstract `Library` of the host's float numerics; result normalisation |
| `text.dfy` | `Text` | `str.strip()`, `str.split(' ')`, the `\w`/`isalpha` character classes, `str(int)` |
| `literals.dfy` | `Literals` | `int(token)` and the `0b`/`0x` literals |
| `stack.dfy` | `Stack` | the stack primitives: duplicate, rotate, drop, pick |
| `state.dfy` | `State` | the session |
| `commands.dfy` | `Commands` | the command table, the one- and two-operand wrappers, `~` |
| `directives.dfy` | `Directives` | `repeat`, `macro`, `name=`, and the session invariant |
| `interpreter.dfy` | `Interpreter` | `Step` (one visit of the inner loop); `Drive`/`Run` (the loop, bounded by fuel); `EvalLines` (a session of lines) |
| `laws.dfy` | `Laws` | what each kind of token does in one visit; the directives over a whole line |
| `command_laws.dfy` | `CommandLaws` | inverse pairs of table entries and their edge cases |
| `line_laws.dfy` | `LineLaws` | short lines end to end; how sessions of lines compose |

Macros may invoke themselves: `macro a a` followed by `a` never ends. So the
loop is bounded by fuel (one unit per visit) and may end `OutOfFuel`.
`SelfMacroDiverges` proves that such a line exhausts any bound.

Behaviours of `rpn.py` the model keeps:

- When a two-operand command fails (`3 0 /`), both operands have already
  been popped (rpn.py:170-176), and the line ends with them gone.
- `pick` indexes the stack with `n - 1`, as Python indexes a deque: a
  positive `n` counts from the bottom, and `0 pick` picks the top item.
- `~` is bound to `operator.not_` (rpn.py:416): it pushes 1 for a zero
  operand and 0 for any other, floats included.
- The errors are the ones the code raises. `Base.Error` has one constructor
  per distinct message, and every generic failure is `NotPossible`.
- A float count that is whole (`2.0 repeat dup`) passes the count check at
  rpn.py:82 but then fails when the token list is multiplied by it
  (rpn.py:85). The line is abandoned with the generic message, before the
  count is popped.
- The table's `x=` entry is unreachable: the token `x=` matches the
  assignment pattern first and assigns the variable `x`.

## Model

| member | source | states |
|---|---|---|
| Values.Normalize | rpn.py:191-193 | a result is pushed as an integer when it is whole, and otherwise kept as a float with the same value; infinities and NaN fail, because taking their floor raises |
| Values.NormalizeFixesNormal | rpn.py:191-193 | an integer, or a finite float that is not whole, is pushed unchanged |
| Values.NormalizeIdempotent | rpn.py:191-193 | normalising a normalised result changes nothing |
| Literals.ParsePrefixed | rpn.py:155-159 | a `0b`/`0x` token is read exactly when at least one digit of that base follows the prefix, and its value is those digits read in that base |
| Literals.ParseDecimal | rpn.py:160-161 | `int()` accepts exactly an optional sign followed by at least one decimal digit, and gives a negative number only after a minus sign |
| Literals.ParseNumber | rpn.py:154-167 | every parse failure is "can't understand"; a prefixed token is read exactly when its digits are valid, as their value in its base; a decimal integer token gives that integer; any other token is a float exactly when the float parser accepts it, and is that float |
| Literals.DigitsInRoundTrip | rpn.py:20-23 | the digits of `n` in base 2 or 16, as `bin` and `hex` write them, are valid digits of that base whose value is `n` |
| Literals.PrefixedRoundTrip | rpn.py:155-161 | the token `0b` or `0x` followed by the digits of `n` in that base is read back as the integer `n` |
| Literals.DecimalRoundTrip | rpn.py:160-161 | `int(str(k)) == k` for every integer `k` |
| Literals.NumberRoundTrip | rpn.py:154-167 | the decimal rendering of an integer is read back as that integer, never as a prefixed literal or a float |
| Literals.EmptyTokenUnparsable | rpn.py:160-166 | the empty token that two adjacent spaces produce is not a number |
| Text.Strip | rpn.py:109 | the stripped line neither starts nor ends with whitespace |
| Text.StripRemovesPadding | rpn.py:109 | stripping removes exactly the whitespace around a line and nothing inside it |
| Text.Split | rpn.py:109 | splitting gives at least one piece, no piece contains a space, and joining the pieces with single spaces gives back the line |
| Text.SplitJoin | rpn.py:109 | splitting a space-joined list of space-free pieces recovers the pieces, so the tokens are determined by the line |
| Text.IntToString | rpn.py:114 | `str(k)` of an integer is a minus sign exactly for negatives, followed by decimal digits |
| Stack.DuplicateTop | rpn.py:204-210 | duplicating `n` items succeeds exactly when `1 <= n <= depth` and appends the top `n` items in order; otherwise it fails with the depth error or the count error, stack unchanged |
| Stack.Rotate | rpn.py:213-218 | rotation keeps the length and the items; position `j` receives the item `n` places below it, cyclically |
| Stack.RotateBackRestores | rpn.py:213-218 | rotating by `-n` undoes rotating by `n`, for every `n` and every stack |
| Stack.DropN | rpn.py:226-228 | dropping `n` items succeeds exactly when `n <= depth`; otherwise the stack has been emptied one pop at a time before the failure |
| Stack.MoveToTop | rpn.py:239-241 | the chosen item ends on top, and the others keep their order |
| Stack.PickNth | rpn.py:235-241 | `n` above the depth does nothing; `1..depth` moves item `n - 1` from the bottom to the top; a non-positive `n` moves item `depth - 1 + n` to the top; in both cases the other items keep their order; an index below the bottom fails with the stack unchanged; a float `n` succeeds exactly when it exceeds the depth, and then does nothing |
| Stack.PickZeroKeepsStack | rpn.py:235-241 | `0 pick` leaves a non-empty stack as it is |
| Stack.PickMinusOneSwaps | rpn.py:235-241 | `-1 pick` exchanges the two top items |
| Stack.DropUndoesDuplicate | rpn.py:204-228 | duplicating the top `n` items and then dropping `n` restores the stack |
| Commands.PushResult | rpn.py:191-193 | a successful call pushes one normalised item equal in value to its result; a failing call or a non-finite result leaves the stack as it was |
| Commands.Lookup | rpn.py:398-487 | no table name is empty; `exit` is the only name bound to exiting; every entry handed to the library, and every constant, is handed over under its own table name |
| Commands.IsCommand | rpn.py:133-134 | the empty token is never a command name |
| Commands.InvertAsWritten | rpn.py:416 | `~` as the table wires it gives a boolean that is true exactly for a zero operand, integer or float |
| Commands.Invert | rpn.py:301 | `~` as the help text documents it maps an integer `k` to `-k - 1` and refuses floats; no table entry uses it |
| Commands.ApplyUnary | rpn.py:398-416 | on an integer `++` pushes `k + 1` and `--` pushes `k - 1`; `~` always succeeds and pushes 1 exactly for a zero operand, else 0; an entry that pushes a result leaves the items below unchanged and adds one normalised item; a failure never grows the stack |
| Commands.ApplyBinary | rpn.py:170-176 | `swap` always succeeds and keeps both items; an entry that succeeds leaves the items below unchanged and adds one normalised result; on two integers `+ - * max min` always succeed with their integer result; a failure leaves the operands popped |
| Commands.Execute | rpn.py:170-186 | only `exit` exits; a one- or two-operand entry with too few items fails with the arity error, session unchanged; once it has popped, a failure leaves the operands gone; only `cla` and `clv` may empty the variables and only `cla` and `clm` the macros, and every other entry leaves both tables as they were |
| Directives.RepeatCommands | rpn.py:75-85 | the checks fail in the source's order (empty stack, then missing token, then bad count); success exactly for a positive integer count, giving that many copies of the next token |
| Directives.DefineMacro | rpn.py:88-95 | a reserved name, then a non-alphabetic name, then a body containing `macro` are rejected; otherwise the macro is bound to exactly the body and every other macro is kept |
| Directives.AssignVariable | rpn.py:98-103 | a reserved name fails before the stack is examined, and an empty stack fails next; otherwise exactly the top item is popped into the variable and the other variables and the macros are kept |
| Interpreter.AssignmentTarget | rpn.py:30 | a token is an assignment exactly when it is a `\w+` word followed by `=`, and the word is the variable |
| Interpreter.DupCount | rpn.py:31 | a token is an indexed duplicate exactly when it is `dup` followed by decimal digits |
| Interpreter.Substitute | rpn.py:113-114 | a token that names no variable is kept as it is; a variable holding an integer stands for that integer's decimal rendering |
| Interpreter.Resume | rpn.py:137-148 | a failure halts the line with the state reached and the error; `exit` halts it as terminated; otherwise the loop goes on with the next token |
| Interpreter.Step | rpn.py:111-136 | a visit keeps the tokens before the cursor and moves the cursor by at most one; the only visit that ends a line successfully is a `macro` directive |
| Interpreter.Drive | rpn.py:111-148 | the loop over any visit function completes when no token is left at the cursor, runs out of fuel at a pending token when no visits are left, and a visit that halts ends the line with that visit's session and status |
| Interpreter.Run | rpn.py:111-148 | the same for the calculator's own visit; a line runs out of fuel only while a token is pending and the last visit let the loop go on |
| Interpreter.Tokenize | rpn.py:109 | a line always gives at least one token, and no token contains a space |
| Interpreter.EvalLine | rpn.py:108-109 | every line, even an empty one, gives a token, so a line allowed no visits runs out of fuel |
| Interpreter.EvalLines | rpn.py:106-108 | with no lines the session is left as it was and ends with its input exhausted; a first line allowed no visits stops the session as diverged |
| Interpreter.StepPreservesWellFormed | rpn.py:88-103 | no visit breaks the session invariant (macro names alphabetic and unreserved, bodies free of `macro`; variable names `\w+` and unreserved) |
| Interpreter.RunPreservesWellFormed | rpn.py:111-148 | nor does a whole line |
| Interpreter.EvalLinesPreservesWellFormed | rpn.py:106-148 | nor does a session of lines |
| Interpreter.InitialWellFormed | rpn.py:28-29 | the start-up session satisfies the invariant |
| Laws.CommandNamesHaveNoDigits | rpn.py:398-487 | no table name contains a digit, and `x=` is the only one shaped like an assignment, so numerals and `dupN` never reach the table |
| Laws.NumeralIsNumber | rpn.py:113-136 | the rendering of an integer is classified as a number and pushed as that integer |
| Laws.CommandStep | rpn.py:133-134 | a table name not hidden by a directive runs its entry, and the rest of the line stays pending |
| Laws.VariableReferenceStep | rpn.py:113-114 | a variable holding an integer pushes it, even when a macro has the same name |
| Laws.NumeralStep | rpn.py:135-136 | a numeral that names no variable pushes its integer |
| Laws.NumberStep | rpn.py:133-136 | a token that is no variable, macro, directive, assignment, indexed duplicate or command is parsed as a number: a parsed value is pushed and the loop moves on, and a failed parse ends the line as not understood with the session unchanged |
| Laws.EmptyTokenStep | rpn.py:154-166 | the empty token ends the line as not understood, session unchanged |
| Laws.MacroInvocationStep | rpn.py:125-127 | a macro name is replaced in place by the stored body, the cursor rewinds onto the body, and the stored macros are unchanged |
| Laws.AssignmentStep | rpn.py:128-130 | `name=` runs the assignment of `name` |
| Laws.IndexedDuplicateStep | rpn.py:131-132 | `dup` followed by any decimal digits, leading zeros included, duplicates the top items, as many as the digits denote |
| Laws.IndexedDuplicateRendered | rpn.py:131-132 | `dup` followed by the decimal rendering of `n` duplicates the top `n` items |
| Laws.MacroDefinitionEndsLine | rpn.py:122-124 | `macro` ends the line whatever follows; the tokens after it never run, and a rejected definition leaves the session as it was |
| Laws.RepeatExpands | rpn.py:117-121 | a valid `repeat` pops its count and replaces itself and the next token by that many copies; the tokens around them are untouched and the loop resumes on the first copy |
| Laws.RepeatStep | rpn.py:117-121 | the same, for one visit |
| Laws.RepeatFailsCleanly | rpn.py:117-119 | a rejected `repeat` ends the line with the session untouched, the count still on the stack |
| Laws.RunFuelMonotone | rpn.py:111-148 | once a line ends within a bound, more fuel does not change its result |
| Laws.SelfMacroDiverges | rpn.py:125-127 | a macro whose body is its own name never ends, whatever the bound |
| Laws.PushNumerals | rpn.py:154-167 | a line of numerals pushes their integers in input order |
| CommandLaws.SwapTwiceRestores | rpn.py:221-223 | `swap` exchanges the two top items, and a second `swap` restores them |
| CommandLaws.DupThenDropRestores | rpn.py:200-228 | `dup` pushes a copy of the top, and `drop` removes it again |
| CommandLaws.DupSwapDropRestores | rpn.py:200-228 | `dup swap drop` leaves a non-empty stack as it was |
| CommandLaws.DupAndDropOnEmptyStack | rpn.py:204-228 | on an empty stack `dup` fails with the depth error and `drop` with the generic error, session unchanged |
| CommandLaws.ClearAllIsThreeClears | rpn.py:261-264 | `cla` is `clr`, `clv` and `clm` in turn, and leaves the start-up session |
| CommandLaws.DepthThenDropAll | rpn.py:231-232 | `depth` pushes the number of items below it, so `depth dropn` empties the stack |
| CommandLaws.IncrementThenDecrement | rpn.py:410-411 | on integers `++` adds one and `--` undoes it |
| CommandLaws.AddThenSubtract | rpn.py:399-400 | on integers `+` adds, and subtracting the same operand undoes it |
| CommandLaws.MultiplyPushesProduct | rpn.py:401 | `a b *` replaces two integers by their product |
| CommandLaws.MaxMinPushExtremes | rpn.py:446-447 | `a b max` replaces two integers by the one that is at least both, and `a b min` by the one that is at most both |
| CommandLaws.RollThenRollDown | rpn.py:213-218 | `k roll` rotates the items below the count by `k`, and `k rolld` rotates them back |
| CommandLaws.InvertTwice | rpn.py:301 | the documented bitwise complement maps `k` to `-k - 1`, and complementing that result gives back `k` |
| CommandLaws.InvertAsWrittenDiffers | rpn.py:416 | as wired, `5 ~` pushes 0 where the complement is -6, `5 ~ ~` then pushes 1 rather than 5, and `0 ~` pushes 1 where the complement is -1 |
| LineLaws.CommandFailureEndsLine | rpn.py:137-148 | a failing command ends the line with the session it reached and the error; operands it popped stay popped |
| LineLaws.BlankLineUnparsable | rpn.py:109-166 | a line of only whitespace is the single empty token, and ends as not understood with the session unchanged |
| LineLaws.DoubleSpaceAborts | rpn.py:109-148 | the line `1  2` is the tokens `1`, empty and `2`; it pushes 1 and ends as not understood before `2` runs |
| LineLaws.RunOperandCommand | rpn.py:111-136 | an integer operand followed by a command that succeeds on it advances the line past both tokens |
| LineLaws.RollRoundTrip | rpn.py:213-218 | the line `k roll k rolld` completes and leaves the session exactly as it was |
| LineLaws.AssignThenReference | rpn.py:98-114 | the line `name= name` completes with the stack unchanged and the former top bound to `name` |
| LineLaws.RepeatDup | rpn.py:117-121 | the line `k repeat dup` completes with `k` copies of the top item pushed |
| LineLaws.DefineIncrementMacro | rpn.py:88-95 | the line `macro inc ++` completes, binding `inc` to `++` |
| LineLaws.InvokeIncrementMacro | rpn.py:125-127 | with `inc` bound to `++`, the line `k inc` completes with `k + 1` pushed |
| LineLaws.IncrementMacroLines | rpn.py:122-127 | after `macro inc ++`, the line `k inc` pushes `k + 1` and the macro stays defined |
| LineLaws.EvalLinesAppend | rpn.py:106-108 | evaluating two runs of lines in turn is evaluating their concatenation, unless the first run ended the session |
| LineLaws.ExitIgnoresLaterLines | rpn.py:486 | a session that reaches `exit` ignores every later line |

## Left out

- Input, output and the prompt are not modelled. The console's lines are a
  parameter of `EvalLines`, and the one-line command-line mode is `EvalLine`.
  The stack printing, colours, output modes, the vertical display toggle and
  `help` are presentation only. Their table entries do nothing to the session.
- `exit` ends the session (`Terminated`); the process exit itself is left out.
- The host's float numerics are kept in an abstract `Library` record:
  float parsing, `str(float)`, `e`, `pi`, `rand`, and every table entry the
  model does not define itself. This covers `/`, `%`, comparisons, bitwise and
  boolean operators, trigonometry, `fact`, `pow`, `sign` and the socket
  byte-order calls.
  Only `+ - * ++ -- max min swap dup drop depth dupn dropn pick roll rolld
  ~` and the clears are concrete on integers.
- Python's lexical leniencies are not modelled: underscores and surrounding
  whitespace in `int()`, and Unicode digits and letters in `\w`, `\d` and
  `isalpha`. Character classes are ASCII.
- `Literals.ParseNumber`: every malformed `0b`/`0x` literal fails with
  "can't understand". The source reports a few of them (those that make
  `literal_eval` raise something other than a syntax error) with the generic
  message.
- The loop is bounded by fuel. A line that needs more visits than the bound
  ends `OutOfFuel` and stops the session (`Diverged`). The source would loop
  forever, or until memory runs out.
- The deque has no size limit in the source, and the model's stack is an
  unbounded sequence.
- Stack.Rotate: rotates by any integer. In the source `deque.rotate`
  raises OverflowError for a count of magnitude 2^63 or more (rpn.py:214,
  218), and the line fails with the generic message, the count already
  popped. `CommandLaws.RollThenRollDown` and `LineLaws.RollRoundTrip`
  therefore hold in the source only for smaller counts.
- Directives.RepeatCommands: accepts any positive integer count. In the
  source `[action] * repeats` (rpn.py:85) raises OverflowError or
  MemoryError for a count too large for memory, and the line fails with
  the generic message, the count still on the stack.
- Literals.DecimalRoundTrip: holds for every integer. CPython 3.11 and later
  refuse to convert between `int` and a decimal string of more than 4300
  digits. A longer integer token then fails `int()` and is read by `float()`
  (as an infinity or an approximation), and `str()` of a variable holding
  such an integer (rpn.py:114) raises outside the `try` and ends the
  program. `Literals.NumberRoundTrip` and `Literals.ParseNumber` share the
  limit.
- Literals.ParsePrefixed: reads only the prefix followed by digits.
  `literal_eval` also accepts a trailing comment (`0x1f#c`), trailing tabs
  and newlines, and underscores between digits (`0b_1`); the model rejects
  these tokens as "can't understand".
- `rand`: the model pushes the fixed `lib.constant("rand")`, while the
  source draws a fresh random number at every use (rpn.py:456).
- Interpreter.AssignmentTarget and Interpreter.DupCount: Python's `$` also
  matches just before a final newline, so a token `x=` or `dup3` followed by
  a newline assigns or duplicates in the source (rpn.py:30-31, 128-132).
  The model rejects such tokens; a token keeps a newline only when one is
  passed inside the command-line argument.
- `Interpreter.Feed`: its contract states only the empty case. What it does
  with lines is stated by `LineLaws.EvalLinesAppend`,
  `LineLaws.ExitIgnoresLaterLines` and
  `Interpreter.EvalLinesPreservesWellFormed`.

## Findings

| source | as written | input that shows it | evidently intended | confidence | as-written member | corrected member |
|---|---|---|---|---|---|---|
| rpn.py:416 | `~` is wired to logical negation, which pushes 1 for zero and 0 for anything else | `5 ~` pushes 0 and `5 ~ ~` pushes 1 | the help text at rpn.py:301 calls `~` bitwise NOT: `5 ~` pushes -6, and `~ ~` is the identity | high; not executed | Commands.InvertAsWritten, CommandLaws.InvertAsWrittenDiffers | Commands.Invert, CommandLaws.InvertTwice |
