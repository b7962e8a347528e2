/** The message vocabulary shared by the signalling server and the browser client.
    Every name here is the name of a Socket.IO event or of one of its fields. */
module Wire {

  /** A Socket.IO connection id. The server assigns it; clients use it as an address. */
  type Id = string

  /** A session description produced and consumed by the peer library; the relay and
      the call logic never look inside it. */
  datatype Signal = Signal(blob: string)

  datatype Option<T> = None | Some(value: T)

  /** Events a client emits to the server. */
  datatype Request =
    | CallUserRequest(userToCall: Id, signalData: Signal, from: Id, name: string)
    | AnswerCallRequest(signal: Signal, to: Id)
    | EndCallRequest(to: Id)
  {
    /** The connection id the server forwards this request to. */
    function Target(): Id
    {
      match this
      case CallUserRequest(userToCall, _, _, _) => userToCall
      case AnswerCallRequest(_, to) => to
      case EndCallRequest(to) => to
    }
  }

  /** Events the server emits to a client. */
  datatype Notice =
    | Me(id: Id)
    | CallUser(signal: Signal, from: Id, name: string)
    | CallAccepted(signal: Signal)
    | CallEnded
}
