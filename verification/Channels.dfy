/** Go channels as values. A method of the model keeps a channel in a field and
    reassigns it, one assignment per channel operation.

    An operation that Go would turn into a panic (a send on a closed channel, a
    second close) or into a goroutine blocked for ever (a plain send into a full
    channel nobody drains) is not forbidden by a precondition. It is carried out
    and leaves `faulted` set, so that "no run of the program faults" is a
    property of the program and has to be proved. */
module Channels {

  datatype Option<+T> = None | Some(value: T)

  /** A buffered channel: what it holds, oldest first, and whether it is closed. */
  datatype Chan<T> = Chan(buf: seq<T>, cap: nat, closed: bool, faulted: bool) {

    predicate HasRoom() {
      |buf| < cap
    }

    /** `select { case c <- x: default: }`: the channel afterwards and whether x went in. */
    function TrySend(x: T): (Chan<T>, bool) {
      if closed then (this.(faulted := true), false)
      else if HasRoom() then (this.(buf := buf + [x]), true)
      else (this, false)
    }

    /** `c <- x` by a sender that must never wait. */
    function Send(x: T): Chan<T> {
      if closed || !HasRoom() then this.(faulted := true) else this.(buf := buf + [x])
    }

    function Close(): Chan<T> {
      if closed then this.(faulted := true) else this.(closed := true)
    }

    function Receive(): Chan<T>
      requires buf != []
    {
      this.(buf := buf[1..])
    }
  }

  function MakeChan<T>(cap: nat): Chan<T> {
    Chan([], cap, false, false)
  }

  /** A `chan struct{}` used only to be closed. */
  datatype Signal = Signal(closed: bool, faulted: bool) {
    function Close(): Signal {
      if closed then this.(faulted := true) else this.(closed := true)
    }
  }

  const OPEN := Signal(false, false)
}
