/** The state field of a client (client.go). Goroutines of several protocols write
    it without regard to one another, so it is a field and not a machine. */
module States {
  datatype ClientState = Connecting | Connected | DisconnectedState | Reconnecting | ClosingState | ClosedState {
    /** Close has begun, as far as this field tells. */
    predicate Ending() {
      ClosingState? || ClosedState?
    }
  }
}
