/** Algebraic laws of single table entries, stated on the session: pairs of
    commands that undo each other, and what the entries do at the edges. */
module CommandLaws {
  import opened Base
  import opened Values
  import opened Stack
  import opened State
  import opened Commands

  /** The names of the entries the laws below are about. */
  lemma ArithmeticLookups()
    ensures Lookup("+") == Some(Binary(Add)) && Lookup("-") == Some(Binary(Subtract))
    ensures Lookup("++") == Some(Unary(Increment)) && Lookup("--") == Some(Unary(Decrement))
  {
  }

  lemma SwapName()
    ensures Lookup("swap") == Some(Binary(Swap))
  {
  }

  lemma RollName()
    ensures Lookup("roll") == Some(Unary(Roll))
  {
  }

  lemma RollDownName()
    ensures Lookup("rolld") == Some(Unary(RollDown))
  {
  }

  lemma DupName()
    ensures Lookup("dup") == Some(Nullary(Dup))
  {
  }

  /** `swap` exchanges the two top items, and a second `swap` puts them
      back. */
  lemma SwapTwiceRestores(lib: Library, st: Session, a: Value, b: Value)
    ensures var once := Execute(lib, st.(stack := st.stack + [a, b]), Binary(Swap));
      && once == Done(st.(stack := st.stack + [b, a]))
      && Execute(lib, once.state, Binary(Swap)) == Done(st.(stack := st.stack + [a, b]))
  {
    SwapExchanges(lib, st, a, b);
    SwapExchanges(lib, st, b, a);
  }

  lemma SwapExchanges(lib: Library, st: Session, a: Value, b: Value)
    ensures Execute(lib, st.(stack := st.stack + [a, b]), Binary(Swap)) == Done(st.(stack := st.stack + [b, a]))
  {
    var ab := st.stack + [a, b];
    assert ab[..|ab| - 2] == st.stack && ab[|ab| - 2] == a && ab[|ab| - 1] == b;
  }

  /** `dup` pushes a copy of the top item and `drop` removes it again. */
  lemma DupThenDropRestores(lib: Library, st: Session)
    requires |st.stack| > 0
    ensures var once := Execute(lib, st, Nullary(Dup));
      && once == Done(st.(stack := st.stack + [st.stack[|st.stack| - 1]]))
      && Execute(lib, once.state, Nullary(Drop)) == Done(st)
  {
    var s := st.stack;
    assert s[|s| - 1..] == [s[|s| - 1]];
    DropUndoesDuplicate(s, 1);
  }

  /** `dup swap drop` leaves the stack as it was: the copy and the original
      are exchanged and the copy is dropped. */
  lemma DupSwapDropRestores(lib: Library, st: Session)
    requires |st.stack| > 0
    ensures var s, v := st.stack[..|st.stack| - 1], st.stack[|st.stack| - 1];
      var dup := Execute(lib, st, Nullary(Dup));
      var swap := Execute(lib, dup.state, Binary(Swap));
      && dup == Done(st.(stack := s + [v, v]))
      && swap == Done(st.(stack := s + [v, v]))
      && Execute(lib, swap.state, Nullary(Drop)) == Done(st)
  {
    var s, v := st.stack[..|st.stack| - 1], st.stack[|st.stack| - 1];
    assert st.stack == s + [v];
    DupThenDropRestores(lib, st);
    assert st.stack + [v] == s + [v, v];
    SwapTwiceRestores(lib, st.(stack := s), v, v);
  }

  /** On an empty stack `dup` reports the missing depth and `drop` the
      impossible pop; neither changes the session. */
  lemma DupAndDropOnEmptyStack(lib: Library, st: Session)
    requires st.stack == []
    ensures Execute(lib, st, Nullary(Dup)) == Failed(st, InsufficientDepth)
    ensures Execute(lib, st, Nullary(Drop)) == Failed(st, NotPossible)
  {
  }

  /** `cla` is `clr`, `clv` and `clm` in turn: it empties the stack and
      both name tables. */
  lemma ClearAllIsThreeClears(lib: Library, st: Session)
    ensures var clr := Execute(lib, st, Nullary(ClearStack));
      var clv := Execute(lib, clr.state, Nullary(ClearVariables));
      var clm := Execute(lib, clv.state, Nullary(ClearMacros));
      && clr.Done? && clv.Done? && clm.Done?
      && Execute(lib, st, Nullary(ClearAll)) == clm
      && clm.state == Session([], map[], map[])
  {
  }

  /** `depth` pushes the number of items below it, so `depth dropn`
      empties the stack. */
  lemma DepthThenDropAll(lib: Library, st: Session)
    ensures var depth := Execute(lib, st, Nullary(Depth));
      && depth == Done(st.(stack := st.stack + [Int(|st.stack|)]))
      && Execute(lib, depth.state, Unary(DropItems)) == Done(st.(stack := []))
  {
    var s := st.stack;
    var t := s + [Int(|s|)];
    assert t[..|t| - 1] == s && t[|t| - 1] == Int(|s|);
    assert ApplyUnary(lib, DropItems, Int(|s|), s) == Done([]);
  }

  /** On integers `++` and `--` are inverse. */
  lemma IncrementThenDecrement(lib: Library, st: Session, k: int)
    ensures var once := Execute(lib, st.(stack := st.stack + [Int(k)]), Unary(Increment));
      && once == Done(st.(stack := st.stack + [Int(k + 1)]))
      && Execute(lib, once.state, Unary(Decrement)) == Done(st.(stack := st.stack + [Int(k)]))
  {
    var s := st.stack;
    assert (s + [Int(k)])[..|s|] == s && (s + [Int(k + 1)])[..|s|] == s;
  }

  /** On integers, `b -` undoes `b +`. */
  lemma AddThenSubtract(lib: Library, st: Session, a: int, b: int)
    ensures var once := Execute(lib, st.(stack := st.stack + [Int(a), Int(b)]), Binary(Add));
      && once == Done(st.(stack := st.stack + [Int(a + b)]))
      && Execute(lib, once.state.(stack := once.state.stack + [Int(b)]), Binary(Subtract))
         == Done(st.(stack := st.stack + [Int(a)]))
  {
    var s := st.stack;
    assert (s + [Int(a), Int(b)])[..|s|] == s;
    assert (s + [Int(a + b)] + [Int(b)]) == s + [Int(a + b), Int(b)];
    assert (s + [Int(a + b), Int(b)])[..|s|] == s;
  }

  /** `k roll` rotates the items below the count by `k` places; `k rolld`
      afterwards rotates them back. */
  lemma RollThenRollDown(lib: Library, st: Session, s: seq<Value>, k: int)
    ensures var once := Execute(lib, st.(stack := s + [Int(k)]), Unary(Roll));
      && once == Done(st.(stack := Rotate(s, k)))
      && Execute(lib, once.state.(stack := once.state.stack + [Int(k)]), Unary(RollDown))
         == Done(st.(stack := s))
  {
    RollRotates(lib, st, s, k);
    RollDownRotates(lib, st, Rotate(s, k), k);
    RotateBackRestores(s, k);
  }

  lemma RollRotates(lib: Library, st: Session, s: seq<Value>, k: int)
    ensures Execute(lib, st.(stack := s + [Int(k)]), Unary(Roll)) == Done(st.(stack := Rotate(s, k)))
  {
    assert (s + [Int(k)])[..|s|] == s;
  }

  lemma RollDownRotates(lib: Library, st: Session, s: seq<Value>, k: int)
    ensures Execute(lib, st.(stack := s + [Int(k)]), Unary(RollDown)) == Done(st.(stack := Rotate(s, -k)))
  {
    assert (s + [Int(k)])[..|s|] == s;
  }

  /** `*` pushes the product of two integers in place of them. */
  lemma MultiplyPushesProduct(lib: Library, st: Session, a: int, b: int)
    ensures Execute(lib, st.(stack := st.stack + [Int(a), Int(b)]), Binary(Multiply))
      == Done(st.(stack := st.stack + [Int(a * b)]))
  {
    var s := st.stack;
    assert (s + [Int(a), Int(b)])[..|s|] == s;
  }

  /** `max` and `min` replace two integers by the larger and the smaller
      of them. */
  lemma MaxMinPushExtremes(lib: Library, st: Session, a: int, b: int)
    ensures var mx := Execute(lib, st.(stack := st.stack + [Int(a), Int(b)]), Binary(Maximum));
      && mx.Done? && |mx.state.stack| == |st.stack| + 1 && mx.state.stack[..|st.stack|] == st.stack
      && var m := mx.state.stack[|st.stack|]; m.Int? && m.i >= a && m.i >= b && (m.i == a || m.i == b)
    ensures var mn := Execute(lib, st.(stack := st.stack + [Int(a), Int(b)]), Binary(Minimum));
      && mn.Done? && |mn.state.stack| == |st.stack| + 1 && mn.state.stack[..|st.stack|] == st.stack
      && var m := mn.state.stack[|st.stack|]; m.Int? && m.i <= a && m.i <= b && (m.i == a || m.i == b)
  {
    var s := st.stack;
    assert (s + [Int(a), Int(b)])[..|s|] == s;
  }

  /** Bitwise NOT, the behaviour the help text gives `~`, is an
      involution on integers: `-k - 1` complemented again is `k`. */
  lemma InvertTwice(k: int)
    ensures Invert(Int(k)) == Ok(RawInt(-k - 1))
    ensures Invert(Int(Invert(Int(k)).value.i)) == Ok(RawInt(k))
  {
  }

  /** `~` as the table writes it is a logical negation: `5 ~` gives 0
      where the bitwise complement is -6, `5 ~ ~` gives 1 rather than 5,
      and `0 ~` gives 1 where the complement is -1. */
  lemma InvertAsWrittenDiffers(lib: Library, st: Session)
    ensures Invert(Int(5)) == Ok(RawInt(-6)) && Invert(Int(0)) == Ok(RawInt(-1))
    ensures var once := Execute(lib, st.(stack := st.stack + [Int(5)]), Unary(LogicalNot));
      && once == Done(st.(stack := st.stack + [Int(0)]))
      && Execute(lib, once.state, Unary(LogicalNot)) == Done(st.(stack := st.stack + [Int(1)]))
    ensures Execute(lib, st.(stack := st.stack + [Int(0)]), Unary(LogicalNot))
      == Done(st.(stack := st.stack + [Int(1)]))
  {
    var s := st.stack;
    assert (s + [Int(5)])[..|s|] == s && (s + [Int(0)])[..|s|] == s;
  }
}
