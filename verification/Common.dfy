/** What several modules share. */
module Common {

  datatype Option<+T> = None | Some(value: T)
  {
    predicate IsFailure() { None? }

    function PropagateFailure<U>(): Option<U>
      requires None?
    {
      None
    }

    function Extract(): T
      requires Some?
    {
      value
    }
  }

  /** The numbers from `from` up to, but not including, `to`. */
  function Span(from: nat, to: nat): seq<nat>
    requires from <= to
  {
    seq(to - from, i requires 0 <= i => from + i)
  }

  /** A tool call as the model asked for it. */
  datatype Call = Call(id: string, name: string, args: string)
}
