/** `OGSSocket`: the client's socket.io session. It measures clock latency
    and drift from ping/pong round trips, forwards socket-level events to its
    callback, and keeps a registry of the games it has connected to. */
module Socket {
  import opened PyValues
  import opened Wire
  import GameData
  import GameClock
  import Game

  /** What one pong leaves in the socket, in seconds. */
  datatype PongReading = PongReading(latency: real, drift: real, lastPing: real)

  /** `on_pong(data)` at local time `now` (seconds since the epoch). The
      server stamps `client` (our send time) and `server` (its own time) in
      milliseconds. Both are read before anything is stored, so a missing or
      non-numeric stamp leaves the socket as it was. */
  function Pong(now: real, data: Value): (r: Result<PongReading>)
    ensures r.Ok? <==>
      && Subscript(data, "client").Ok? && Numeric(Subscript(data, "client").value).Ok?
      && Subscript(data, "server").Ok? && Numeric(Subscript(data, "server").value).Ok?
  {
    var nowMs := now * 1000.0;
    var clientV :- Subscript(data, "client");
    var client :- Numeric(clientV);
    var latency := nowMs - client;
    var serverV :- Subscript(data, "server");
    var server :- Numeric(serverV);
    var drift := (nowMs - latency / 2.0) - server;
    Ok(PongReading(latency / 1000.0, drift / 1000.0, nowMs / 1000.0))
  }

  /** With client stamp C, server stamp S and local time N (all in ms): the
      latency is the round trip N - C, the drift is how far the midpoint of
      the round trip is ahead of the server's clock, and the last ping is the
      local time; all in seconds. */
  lemma PongReadings(now: real, c: real, srv: real, data: Value)
    requires Subscript(data, "client").Ok? && Numeric(Subscript(data, "client").value) == Ok(c)
    requires Subscript(data, "server").Ok? && Numeric(Subscript(data, "server").value) == Ok(srv)
    ensures Pong(now, data).Ok?
    ensures Pong(now, data).value.latency == (now * 1000.0 - c) / 1000.0
    ensures Pong(now, data).value.drift == ((now * 1000.0 + c) / 2.0 - srv) / 1000.0
    ensures Pong(now, data).value.lastPing == now
    ensures srv / 1000.0 + Pong(now, data).value.drift == now - Pong(now, data).value.latency / 2.0
  {
  }

  /** The `net/ping` payload: our time in whole milliseconds (Python's `int`
      truncates toward zero) and the current estimates. */
  function PingFrame(now: real, drift: real, latency: real): (f: Frame)
    ensures f.event == "net/ping"
    ensures f.data.VDict? && IsDict(f.data.entries)
    ensures Lookup(f.data.entries, "drift") == Some(VReal(drift))
    ensures Lookup(f.data.entries, "latency") == Some(VReal(latency))
    ensures Lookup(f.data.entries, "client").Some? && Lookup(f.data.entries, "client").value.VInt?
    ensures var ms := Lookup(f.data.entries, "client").value.i;
      now >= 0.0 ==> ms as real <= now * 1000.0 < ms as real + 1.0
  {
    var d := [("client", VInt(Truncate(now * 1000.0))), ("drift", VReal(drift)), ("latency", VReal(latency))];
    DistinctKeys(d);
    Frame("net/ping", VDict(d))
  }

  /** The three login frames: `authenticate`, `notification/connect` and
      `chat/connect`. */
  function AuthenticateFrame(creds: Credentials): Frame
  {
    Frame("authenticate", VDict([("auth", creds.chatAuth), ("player_id", creds.userId),
                                 ("username", creds.username), ("jwt", creds.userJwt)]))
  }

  function NotificationConnectFrame(creds: Credentials): Frame
  {
    Frame("notification/connect", VDict([("auth", creds.notificationAuth), ("player_id", creds.userId),
                                         ("username", creds.username)]))
  }

  function ChatConnectFrame(creds: Credentials): Frame
  {
    Frame("chat/connect", VDict([("auth", creds.chatAuth), ("player_id", creds.userId),
                                 ("username", creds.username)]))
  }

  /** Each login frame is a dict carrying the user's id and name and the token
      of its channel: the chat token for the socket and chat, the notification
      token for notifications, plus the JWT when authenticating. */
  lemma LoginFrames(creds: Credentials)
    ensures forall f | f in [AuthenticateFrame(creds), NotificationConnectFrame(creds), ChatConnectFrame(creds)] ::
      && f.data.VDict? && IsDict(f.data.entries)
      && Lookup(f.data.entries, "player_id") == Some(creds.userId)
      && Lookup(f.data.entries, "username") == Some(creds.username)
    ensures Lookup(AuthenticateFrame(creds).data.entries, "auth") == Some(creds.chatAuth)
    ensures Lookup(AuthenticateFrame(creds).data.entries, "jwt") == Some(creds.userJwt)
    ensures Lookup(ChatConnectFrame(creds).data.entries, "auth") == Some(creds.chatAuth)
    ensures Lookup(NotificationConnectFrame(creds).data.entries, "auth") == Some(creds.notificationAuth)
  {
    DistinctKeys(AuthenticateFrame(creds).data.entries);
    DistinctKeys(NotificationConnectFrame(creds).data.entries);
    DistinctKeys(ChatConnectFrame(creds).data.entries);
    assert AuthenticateFrame(creds).data.entries[0].0 == "auth";
    assert AuthenticateFrame(creds).data.entries[3].0 == "jwt";
    assert ChatConnectFrame(creds).data.entries[0].0 == "auth";
    assert NotificationConnectFrame(creds).data.entries[0].0 == "auth";
    assert AuthenticateFrame(creds).data.entries[1].0 == "player_id";
    assert AuthenticateFrame(creds).data.entries[2].0 == "username";
    assert NotificationConnectFrame(creds).data.entries[1].0 == "player_id";
    assert NotificationConnectFrame(creds).data.entries[2].0 == "username";
    assert ChatConnectFrame(creds).data.entries[1].0 == "player_id";
    assert ChatConnectFrame(creds).data.entries[2].0 == "username";
  }

  class Socket {
    var clockDrift: real
    var clockLatency: real
    var lastPing: real
    var lastIssuedPing: int
    var games: map<int, Game.Game>
    var callback: Listener
    const credentials: Credentials
    const transport: Transport

    /** `OGSSocket(credentials)`: zeroed clock estimates, no games, a callback
        that ignores its calls, and a socket.io client not yet connected. */
    constructor (credentials: Credentials)
      ensures clockDrift == 0.0 && clockLatency == 0.0 && lastPing == 0.0 && lastIssuedPing == 0
      ensures games == map[]
      ensures this.credentials == credentials
      ensures fresh(transport) && transport.sent == [] && !transport.connected
      ensures fresh(callback) && callback.calls == []
    {
      clockDrift := 0.0;
      clockLatency := 0.0;
      lastPing := 0.0;
      lastIssuedPing := 0;
      games := map[];
      callback := new Listener();
      this.credentials := credentials;
      transport := new Transport();
    }

    /** The `connect` handler: authenticate (the one-second pause after it is
        not modelled). */
    method OnConnect()
      modifies transport
      ensures transport.sent == old(transport.sent) + [AuthenticateFrame(credentials)]
      ensures transport.connected == old(transport.connected)
    {
      transport.Emit(AuthenticateFrame(credentials));
    }

    /** The `net/pong` handler at local time `now`. */
    method OnPong(data: Value, now: real) returns (raised: Option<Exc>)
      modifies this
      ensures raised.None? <==> Pong(now, data).Ok?
      ensures Pong(now, data).Ok? ==>
        clockLatency == Pong(now, data).value.latency && clockDrift == Pong(now, data).value.drift &&
        lastPing == Pong(now, data).value.lastPing
      ensures Pong(now, data).Err? ==>
        raised == Some(Pong(now, data).error) &&
        clockLatency == old(clockLatency) && clockDrift == old(clockDrift) && lastPing == old(lastPing)
      ensures games == old(games) && callback == old(callback) && lastIssuedPing == old(lastIssuedPing)
    {
      var r := Pong(now, data);
      if r.Err? {
        raised := Some(r.error);
        return;
      }
      clockLatency := r.value.latency;
      clockDrift := r.value.drift;
      lastPing := r.value.lastPing;
      raised := None;
    }

    /** `ping()` at local time `now`: one frame, and no field changes
        (`last_issued_ping` is not updated). */
    method Ping(now: real)
      modifies transport
      ensures transport.sent == old(transport.sent) + [PingFrame(now, clockDrift, clockLatency)]
      ensures transport.connected == old(transport.connected)
    {
      transport.Emit(PingFrame(now, clockDrift, clockLatency));
    }

    /** `host_info()`: a `hostinfo` frame without a payload. */
    method HostInfo()
      modifies transport
      ensures transport.sent == old(transport.sent) + [Frame("hostinfo", VNone)]
      ensures transport.connected == old(transport.connected)
    {
      transport.Emit(Frame("hostinfo", VNone));
    }

    method NotificationConnect()
      modifies transport
      ensures transport.sent == old(transport.sent) + [NotificationConnectFrame(credentials)]
      ensures transport.connected == old(transport.connected)
    {
      transport.Emit(NotificationConnectFrame(credentials));
    }

    method ChatConnect()
      modifies transport
      ensures transport.sent == old(transport.sent) + [ChatConnectFrame(credentials)]
      ensures transport.connected == old(transport.connected)
    {
      transport.Emit(ChatConnectFrame(credentials));
    }

    /** The `active_game`, `notification`, `ERROR` and catch-all handlers:
        pass the event to the socket's callback. */
    method Forward(eventName: string, data: Value)
      modifies callback
      ensures callback.calls == old(callback.calls) + [(eventName, data)]
    {
      callback.Call(eventName, data);
    }

    /** `game_connect(game_id, callback_handler)`: a new game, registered under
        its id in place of any earlier one; without a handler it reports to
        the socket's own callback. */
    method GameConnect(gameId: int, handler: Listener?) returns (g: Game.Game)
      modifies this, transport
      ensures fresh(g) && g.Initial(VInt(gameId))
      ensures games == old(games)[gameId := g]
      ensures g.callback == (if handler == null then callback else handler)
      ensures g.transport == transport && g.credentials == credentials
      ensures transport.sent == old(transport.sent) + [Game.CommandFrame(Game.Connect, VInt(gameId), credentials)]
      ensures transport.connected == old(transport.connected)
      ensures clockDrift == old(clockDrift) && clockLatency == old(clockLatency) && lastPing == old(lastPing)
      ensures callback == old(callback) && lastIssuedPing == old(lastIssuedPing)
    {
      var cb := if handler == null then callback else handler;
      g := new Game.Game(transport, credentials, VInt(gameId), cb);
      assert g.Initial(VInt(gameId));
      Register(gameId, g);
    }

    /** `self.games[game_id] = game`: nothing else of the socket changes. */
    method Register(gameId: int, g: Game.Game)
      modifies this
      ensures games == old(games)[gameId := g]
      ensures clockDrift == old(clockDrift) && clockLatency == old(clockLatency) && lastPing == old(lastPing)
      ensures callback == old(callback) && lastIssuedPing == old(lastIssuedPing)
    {
      games := games[gameId := g];
    }

    /** `game_disconnect(game_id)`: `del self.games[game_id]`, a `KeyError`
        for an id that is not registered. No frame is sent. */
    method GameDisconnect(gameId: int) returns (raised: Option<Exc>)
      modifies this
      ensures raised.None? <==> gameId in old(games)
      ensures raised.Some? ==> raised == Some(KeyError(VInt(gameId))) && games == old(games)
      ensures raised.None? ==> games == old(games) - {gameId}
      ensures clockDrift == old(clockDrift) && clockLatency == old(clockLatency) && lastPing == old(lastPing)
      ensures callback == old(callback) && lastIssuedPing == old(lastIssuedPing)
    {
      if gameId !in games {
        raised := Some(KeyError(VInt(gameId)));
        return;
      }
      games := games - {gameId};
      raised := None;
    }

    /** `disconnect()`: closes the socket.io client; the games stay registered. */
    method Disconnect()
      modifies transport
      ensures transport.sent == old(transport.sent) && !transport.connected
    {
      transport.Disconnect();
    }
  }
}
