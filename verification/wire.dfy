/** What the client exchanges with the outside: frames emitted on the
    socket.io connection, the user's callback, and the credentials record. */
module Wire {
  import opened PyValues

  /** One `socket.emit(event=..., data=...)`. */
  datatype Frame = Frame(event: string, data: Value)

  /** The socket.io client, reduced to the log of frames it was asked to send
      and whether it was told to disconnect. */
  class Transport {
    var sent: seq<Frame>
    var connected: bool

    constructor ()
      ensures sent == [] && !connected
    {
      sent := [];
      connected := false;
    }

    method Emit(f: Frame)
      modifies this
      ensures sent == old(sent) + [f] && connected == old(connected)
    {
      sent := sent + [f];
    }

    method Disconnect()
      modifies this
      ensures sent == old(sent) && !connected
    {
      connected := false;
    }
  }

  /** A callback handler `callback_handler(event_name=..., data=...)`, reduced
      to the log of its calls. */
  class Listener {
    var calls: seq<(string, Value)>

    constructor ()
      ensures calls == []
    {
      calls := [];
    }

    method Call(eventName: string, data: Value)
      modifies this
      ensures calls == old(calls) + [(eventName, data)]
    {
      calls := calls + [(eventName, data)];
    }
  }

  /** `OGSCredentials`: tokens are kept as the values they were given. */
  datatype Credentials = Credentials(
    clientId: Value,
    clientSecret: Value,
    username: Value,
    password: Value,
    accessToken: Value,
    refreshToken: Value,
    userId: Value,
    chatAuth: Value,
    userJwt: Value,
    notificationAuth: Value)
}
