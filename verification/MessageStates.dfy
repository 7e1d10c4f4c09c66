/**
 The life of a tier-2 message: its states and the side whose thread runs each state's handler.
 */
module MessageStates {

  datatype Option<+T> = None | Some(value: T)

  datatype State =
    | Destruction
    | Failed
    | Aborted
    | Initialized
    | ExecCommand
    | WaitForTransmit
    | CommenceTransmit
    | ReadyToReceiveResponse
    | ResponsePending
    | ResponseComplete
    | TaskCompleted

  /** What an observer answers when it is asked about a state change. */
  datatype Verdict = Proceed | DontChange | ErrorOccurred

  /** The states handled by the receiver; all others are handled by the requester. */
  predicate ReceiverSide(st: State) {
    st in {ExecCommand, WaitForTransmit, CommenceTransmit, ReadyToReceiveResponse, ResponsePending}
  }
}
