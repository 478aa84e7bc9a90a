/** The calculator's session: the operand stack and the two name tables. */
module State {
  import opened Values

  /** Everything a line can change. The display mode and the stack display
      toggle only affect rendering and are not part of the model. */
  datatype Session = Session(
    stack: seq<Value>,
    vars: map<string, Value>,
    macros: map<string, seq<string>>)

  /** The session at start-up. */
  const Initial: Session := Session([], map[], map[])

  /** The session with its stack replaced by the state of a stack outcome. */
  function WithStack(st: Session, stack: seq<Value>): (r: Session)
    ensures r.stack == stack && r.vars == st.vars && r.macros == st.macros
  {
    st.(stack := stack)
  }
}
