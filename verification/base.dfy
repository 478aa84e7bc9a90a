/** Failure-carrying datatypes shared by every part of the calculator model. */
module Base {

  datatype Option<+T> = None | Some(value: T)

  /** The first of two optional values that is present. */
  function Either<T>(a: Option<T>, b: Option<T>): (r: Option<T>)
    ensures r.Some? <==> a.Some? || b.Some?
    ensures a.Some? ==> r == a
  {
    if a.Some? then a else b
  }

  /** The failures the calculator reports. Each constructor stands for one
      distinct message the interpreter prints before abandoning a line. */
  datatype Error =
    | NoRepeatCount       // `repeat` with nothing on the stack
    | NoRepeatAction      // `repeat` as the last token of the line
    | BadRepeatCount      // repeat count below one or not whole
    | ReservedName        // macro or variable named after a built-in command
    | InvalidMacroName    // macro name with a non-letter in it
    | NestedMacro         // macro body containing the `macro` token
    | NoValueForVariable  // `name=` on an empty stack
    | InsufficientDepth   // duplicating more items than the stack holds
    | InvalidCount        // duplicating fewer than one item
    | NeedsOneArgument    // one-operand command on an empty stack
    | NeedsTwoArguments   // two-operand command with fewer than two items
    | Unparsable          // a token that is neither a command nor a number
    | ZeroDivision        // division or modulus by zero
    | NotPossible         // every other failure of an operation

  /** A computation that either yields a value or fails without side effects. */
  datatype Result<+T> = Ok(value: T) | Err(error: Error)

  /** A computation on a mutable state. Like the source, a failure keeps the
      state reached so far; `Exited` is the calculator's `exit` command. */
  datatype Outcome<+S> =
    | Done(state: S)
    | Failed(state: S, error: Error)
    | Exited(state: S)
}
