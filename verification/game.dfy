/** `OGSGame`: one game followed over the socket. Inbound events update the
    game data or the clock and are then passed on to the user's callback;
    outbound commands each emit one frame. */
module Game {
  import opened PyValues
  import opened Wire
  import GameData
  import GameClock

  /** The outbound commands of a game. */
  datatype Command =
    | Connect
    | Disconnect
    | GetGameData
    | Pause
    | Resume
    | Move(move: Value)
    | Resign
    | Cancel
    | Undo(moveNumber: Value)
    | CancelUndo(moveNumber: Value)
    | AcceptUndo(moveNumber: Value)
    | PassTurn
    | SendChat(message: Value, chatType: Value, moveNumber: Value)

  /** Commands that carry the chat token as `auth`. */
  predicate Authenticated(c: Command)
  {
    c.Move? || c.Resign? || c.Cancel? || c.Undo? || c.CancelUndo? || c.AcceptUndo? ||
    c.PassTurn? || c.SendChat?
  }

  /** The frame a command emits for the game whose current id is `gameId`. */
  function CommandFrame(c: Command, gameId: Value, creds: Credentials): Frame
  {
    var id := ("game_id", gameId);
    match c
    case Connect => Frame("game/connect", VDict([id, ("player_id", creds.userId), ("chat", VBool(false))]))
    case Disconnect => Frame("game/disconnect", VDict([id]))
    case GetGameData => Frame("game/" + Format(gameId) + "/gamedata", VDict([]))
    case Pause => Frame("game/pause", VDict([id]))
    case Resume => Frame("game/resume", VDict([id]))
    case Move(m) =>
      Frame("game/move", VDict([("auth", creds.chatAuth), ("player_id", creds.userId), id, ("move", m)]))
    case Resign => Frame("game/resign", VDict([("auth", creds.chatAuth), id]))
    case Cancel => Frame("game/cancel", VDict([("auth", creds.chatAuth), id]))
    case Undo(n) => Frame("game/undo/request", VDict([("auth", creds.chatAuth), id, ("move_number", n)]))
    case CancelUndo(n) => Frame("game/undo/cancel", VDict([("auth", creds.chatAuth), id, ("move_number", n)]))
    case AcceptUndo(n) => Frame("game/undo/accept", VDict([("auth", creds.chatAuth), id, ("move_number", n)]))
    case PassTurn =>
      Frame("game/move", VDict([("auth", creds.chatAuth), ("player_id", creds.userId), id, ("move", VStr(".."))]))
    case SendChat(body, kind, n) =>
      Frame("game/chat", VDict([("auth", creds.chatAuth), id, ("body", body), ("type", kind), ("move_number", n)]))
  }

  /** Every command frame is a dict with distinct keys naming the game;
      `game/<id>/gamedata` names it in the event instead, with an empty
      payload. */
  lemma CommandFrameNamesGame(c: Command, gameId: Value, creds: Credentials)
    ensures var r := CommandFrame(c, gameId, creds);
      && r.data.VDict? && IsDict(r.data.entries)
      && (c.GetGameData? ==> r.data.entries == [] && r.event == "game/" + Format(gameId) + "/gamedata")
      && (!c.GetGameData? ==> Lookup(r.data.entries, "game_id") == Some(gameId))
  {
    DistinctKeys(CommandFrame(c, gameId, creds).data.entries);
  }

  /** The game-play commands carry the chat token as `auth`, and no other
      command carries a token. */
  lemma CommandFrameAuth(c: Command, gameId: Value, creds: Credentials)
    ensures Lookup(CommandFrame(c, gameId, creds).data.entries, "auth") ==
      (if Authenticated(c) then Some(creds.chatAuth) else None)
  {
    var d := CommandFrame(c, gameId, creds).data.entries;
    if Authenticated(c) {
      DistinctKeys(d);
      assert d[0].0 == "auth";
    } else {
      KeyAbsent(d, "auth");
    }
  }

  /** `connect`, `move` and `pass_turn` carry the player id, and no other
      command does. */
  lemma CommandFramePlayer(c: Command, gameId: Value, creds: Credentials)
    ensures var d := CommandFrame(c, gameId, creds).data.entries;
      && ("player_id" in Keys(d) <==> c.Connect? || c.Move? || c.PassTurn?)
      && ("player_id" in Keys(d) ==> Lookup(d, "player_id") == Some(creds.userId))
  {
    var d := CommandFrame(c, gameId, creds).data.entries;
    if c.Connect? || c.Move? || c.PassTurn? {
      DistinctKeys(d);
    } else {
      KeyAbsent(d, "player_id");
    }
  }

  /** `pass_turn()` sends exactly what `move('..')` sends. */
  lemma PassTurnIsMove(gameId: Value, creds: Credentials)
    ensures CommandFrame(PassTurn, gameId, creds) == CommandFrame(Move(VStr("..")), gameId, creds)
  {
  }

  /** The events a game listens to, on `game/<id>/<name>`. */
  datatype InboundEvent =
    | MoveEvent | GameDataEvent | ClockEvent | PhaseEvent | LatencyEvent
    | UndoRequested | UndoAccepted | UndoCanceled

  /** The name an event is subscribed under and passed to the callback with. */
  function EventName(ev: InboundEvent): string
  {
    match ev
    case MoveEvent => "move"
    case GameDataEvent => "gamedata"
    case ClockEvent => "clock"
    case PhaseEvent => "phase"
    case LatencyEvent => "latency"
    case UndoRequested => "undo_requested"
    case UndoAccepted => "undo_accepted"
    case UndoCanceled => "undo_canceled"
  }

  /** The value of a game's state: its game data and its clock. */
  datatype SessionView = SessionView(gameData: GameData.GameDataView, clock: map<string, Value>)

  /** Every attribute of both dataclasses is present. */
  predicate SessionOk(s: SessionView)
  {
    && s.gameData.attrs.Keys == GameData.ScalarFields
    && s.gameData.timeControl.Keys == GameData.TimeControlFields
    && s.clock.Keys == GameClock.ClockFields
  }

  /** The state change made by the handler of `ev` receiving `data`, and the
      exception that stops it before it reaches the callback. */
  function Inbound(ev: InboundEvent, s: SessionView, data: Value): (r: Outcome<SessionView>)
    requires SessionOk(s)
    ensures SessionOk(r.state)
  {
    match ev
    case MoveEvent =>
      // the log message reads `data['move']`
      if Subscript(data, "move").Err? then Outcome(s, Some(Subscript(data, "move").error))
      else Outcome(s, None)
    case GameDataEvent =>
      if !data.VDict? then Outcome(s, Some(AttributeError))
      else
        var u := GameData.UpdateGameData(s.gameData, data.entries);
        GameData.UpdateKeepsShape(s.gameData, data.entries);
        if u.raised.Some? then Outcome(s.(gameData := u.state), u.raised)
        else if s.clock["system"] == VNone then
          Outcome(SessionView(u.state, s.clock["system" := u.state.timeControl["system"]]), None)
        else Outcome(SessionView(u.state, s.clock), None)
    case ClockEvent =>
      if !data.VDict? then Outcome(s, Some(AttributeError))
      else
        var u := GameClock.UpdateClock(s.clock, data.entries);
        GameClock.UpdateKeepsUnnamed(s.clock, data.entries);
        Outcome(s.(clock := u.state), u.raised)
    case PhaseEvent =>
      Outcome(s.(gameData := s.gameData.(attrs := s.gameData.attrs["phase" := data])), None)
    case LatencyEvent =>
      var l := Subscript(data, "latency");
      if l.Err? then Outcome(s, Some(l.error))
      else Outcome(s.(gameData := s.gameData.(attrs := s.gameData.attrs["latency" := l.value])), None)
    case UndoRequested => Outcome(s, None)
    case UndoAccepted => Outcome(s, None)
    case UndoCanceled => Outcome(s, None)
  }

  /** A `move` event stores nothing: in particular the move list is not
      appended to. It fails only when the payload has no `move`. */
  lemma MoveEventStoresNothing(s: SessionView, data: Value)
    requires SessionOk(s)
    ensures Inbound(MoveEvent, s, data).state == s
    ensures Inbound(MoveEvent, s, data).raised.None? <==> data.VDict? && "move" in Keys(data.entries)
  {
  }

  /** A `gamedata` event merges the payload into the game data; the clock's
      system is taken from the time control only while the clock has none, so
      once set it is never changed by game data, and no other clock field is
      touched. */
  lemma GameDataEventAdoptsSystem(s: SessionView, data: Value)
    requires SessionOk(s)
    requires data.VDict?
    ensures var r := Inbound(GameDataEvent, s, data);
      var u := GameData.UpdateGameData(s.gameData, data.entries);
      && r.state.gameData == u.state && r.raised == u.raised
      && (s.clock["system"] != VNone || r.raised.Some? ==> r.state.clock == s.clock)
      && (s.clock["system"] == VNone && r.raised.None? ==>
            r.state.clock == s.clock["system" := u.state.timeControl["system"]])
  {
    GameData.UpdateKeepsShape(s.gameData, data.entries);
  }

  /** The same `gamedata` payload received twice leaves the state the first
      one left (for payloads the game-data merge repeats idempotently). */
  lemma GameDataEventIdempotent(s: SessionView, data: Value)
    requires SessionOk(s)
    requires data.VDict? && IsDict(data.entries)
    requires forall e | e in data.entries :: GameData.Repeatable(e)
    requires Inbound(GameDataEvent, s, data).raised.None?
    ensures Inbound(GameDataEvent, Inbound(GameDataEvent, s, data).state, data) == Inbound(GameDataEvent, s, data)
  {
    var u := GameData.UpdateGameData(s.gameData, data.entries);
    GameData.UpdateKeepsShape(s.gameData, data.entries);
    GameData.UpdateIdempotent(s.gameData, data.entries);
    var once := Inbound(GameDataEvent, s, data).state;
    assert once.gameData == u.state;
    if s.clock["system"] == VNone {
      var c := s.clock["system" := u.state.timeControl["system"]];
      assert once.clock == c;
      if c["system"] == VNone {
        assert c["system" := u.state.timeControl["system"]] == c;
      }
    }
  }

  /** A `phase` event replaces the phase with the payload as it is, and a
      `latency` event stores `data['latency']`; nothing else changes. */
  lemma PhaseAndLatencyEvents(s: SessionView, data: Value)
    requires SessionOk(s)
    ensures var r := Inbound(PhaseEvent, s, data);
      && r.raised.None?
      && r.state.gameData.attrs.Keys == s.gameData.attrs.Keys
      && r.state.gameData.attrs["phase"] == data
      && (forall k | k in s.gameData.attrs && k != "phase" :: r.state.gameData.attrs[k] == s.gameData.attrs[k])
      && r.state.gameData.white == s.gameData.white && r.state.gameData.black == s.gameData.black
      && r.state.gameData.timeControl == s.gameData.timeControl
      && r.state.clock == s.clock
    ensures Inbound(LatencyEvent, s, data).raised.None? <==> data.VDict? && "latency" in Keys(data.entries)
    ensures Inbound(LatencyEvent, s, data).raised.None? ==>
      var l := Lookup(data.entries, "latency").value;
      Inbound(LatencyEvent, s, data).state == s.(gameData := s.gameData.(attrs := s.gameData.attrs["latency" := l]))
    ensures Inbound(LatencyEvent, s, data).raised.Some? ==> Inbound(LatencyEvent, s, data).state == s
  {
  }

  class Game {
    const transport: Transport
    const credentials: Credentials
    const callback: Listener
    const gameData: GameData.GameData
    const clock: GameClock.Clock

    /** The game data, its players and time control, and the clock are the
        game's own; the socket and the callback are shared with others. */
    ghost predicate Valid()
      reads this, gameData, gameData.Repr, clock
    {
      && gameData.Valid()
      && clock !in gameData.Repr && clock.Valid()
      && transport !in gameData.Repr && callback !in gameData.Repr
    }

    ghost function View(): SessionView
      reads this, gameData, gameData.Repr, clock
      requires Valid()
    {
      SessionView(gameData.View(), clock.attrs)
    }

    /** The game is as just connected to game `gameId`: fresh game data naming
        the game, and a clock with every field `None`. */
    ghost predicate Initial(gameId: Value)
      reads this, gameData, gameData.Repr, clock
    {
      Valid() && gameData.Initial(gameId) && clock.attrs == NoneAttrs(GameClock.ClockFields)
    }

    /** The id the game data holds now; commands use it. */
    function GameId(): Value
      reads this, gameData, gameData.Repr, clock
      requires Valid()
    {
      gameData.attrs["game_id"]
    }

    /** `OGSGame(game_socket, credentials, game_id, callback_handler)`: fresh
        game data and clock, then `connect()`. */
    constructor (transport: Transport, credentials: Credentials, gameId: Value, callback: Listener)
      modifies transport
      ensures fresh(gameData.Repr) && fresh(clock) && Initial(gameId)
      ensures this.transport == transport && this.credentials == credentials && this.callback == callback
      ensures transport.sent == old(transport.sent) + [CommandFrame(Command.Connect, gameId, credentials)]
      ensures transport.connected == old(transport.connected)
    {
      this.transport := transport;
      this.credentials := credentials;
      this.callback := callback;
      var data := new GameData.GameData(gameId);
      var clk := new GameClock.Clock();
      gameData := data;
      clock := clk;
      transport.Emit(CommandFrame(Command.Connect, gameId, credentials));
    }

    /** `_on_game_move`: nothing is stored; the log message reads
        `data['move']`, which is the only way the handler can fail. */
    method OnMove(data: Value) returns (raised: Option<Exc>)
      requires Valid()
      modifies callback
      ensures Outcome(View(), raised) == Inbound(MoveEvent, old(View()), data)
      ensures callback.calls == old(callback.calls) + (if raised.None? then [("move", data)] else [])
    {
      var m := Subscript(data, "move");
      if m.Err? {
        raised := Some(m.error);
        return;
      }
      raised := None;
      callback.Call("move", data);
    }

    /** `_on_game_data`: merge into the game data, then adopt the time
        control's system as the clock's if the clock has none. */
    method OnGameData(data: Value) returns (raised: Option<Exc>)
      requires Valid()
      modifies gameData.Repr, clock, callback
      ensures Valid()
      ensures Outcome(View(), raised) == Inbound(GameDataEvent, old(View()), data)
      ensures callback.calls == old(callback.calls) + (if raised.None? then [("gamedata", data)] else [])
    {
      if !data.VDict? {
        raised := Some(AttributeError);
        return;
      }
      raised := gameData.Update(data.entries);
      GameData.UpdateKeepsShape(old(gameData.View()), data.entries);
      if raised.Some? {
        return;
      }
      if clock.attrs["system"] == VNone {
        clock.attrs := clock.attrs["system" := gameData.timeControl.attrs["system"]];
      }
      callback.Call("gamedata", data);
    }

    /** `_on_game_clock`: merge into the clock. */
    method OnClock(data: Value) returns (raised: Option<Exc>)
      requires Valid()
      modifies clock, callback
      ensures Valid()
      ensures Outcome(View(), raised) == Inbound(ClockEvent, old(View()), data)
      ensures callback.calls == old(callback.calls) + (if raised.None? then [("clock", data)] else [])
    {
      if !data.VDict? {
        raised := Some(AttributeError);
        return;
      }
      raised := clock.Update(data.entries);
      GameClock.UpdateKeepsUnnamed(old(clock.attrs), data.entries);
      if raised.Some? {
        return;
      }
      callback.Call("clock", data);
    }

    /** `_on_game_phase`: the payload becomes the phase as it is. */
    method OnPhase(data: Value)
      requires Valid()
      modifies gameData, callback
      ensures Valid()
      ensures Outcome(View(), None) == Inbound(PhaseEvent, old(View()), data)
      ensures callback.calls == old(callback.calls) + [("phase", data)]
    {
      gameData.attrs := gameData.attrs["phase" := data];
      callback.Call("phase", data);
    }

    /** `_on_game_latency`: `data['latency']` becomes the latency. */
    method OnLatency(data: Value) returns (raised: Option<Exc>)
      requires Valid()
      modifies gameData, callback
      ensures Valid()
      ensures Outcome(View(), raised) == Inbound(LatencyEvent, old(View()), data)
      ensures callback.calls == old(callback.calls) + (if raised.None? then [("latency", data)] else [])
    {
      var l := Subscript(data, "latency");
      if l.Err? {
        raised := Some(l.error);
        return;
      }
      gameData.attrs := gameData.attrs["latency" := l.value];
      raised := None;
      callback.Call("latency", data);
    }

    /** The three undo handlers only pass the event on. */
    method OnUndo(ev: InboundEvent, data: Value)
      requires ev.UndoRequested? || ev.UndoAccepted? || ev.UndoCanceled?
      requires Valid()
      modifies callback
      ensures Outcome(View(), None) == Inbound(ev, old(View()), data)
      ensures callback.calls == old(callback.calls) + [(EventName(ev), data)]
    {
      callback.Call(EventName(ev), data);
    }

    /** One `socket.emit` for `c`. */
    method Send(c: Command)
      requires Valid()
      modifies transport
      ensures transport.sent == old(transport.sent) + [CommandFrame(c, GameId(), credentials)]
      ensures transport.connected == old(transport.connected)
    {
      transport.Emit(CommandFrame(c, gameData.attrs["game_id"], credentials));
    }

    method Connect()
      requires Valid()
      modifies transport
      ensures transport.sent == old(transport.sent) + [CommandFrame(Command.Connect, GameId(), credentials)]
      ensures transport.connected == old(transport.connected)
    {
      Send(Command.Connect);
    }

    method Disconnect()
      requires Valid()
      modifies transport
      ensures transport.sent == old(transport.sent) + [CommandFrame(Command.Disconnect, GameId(), credentials)]
      ensures transport.connected == old(transport.connected)
    {
      Send(Command.Disconnect);
    }

    method GetGameData()
      requires Valid()
      modifies transport
      ensures transport.sent == old(transport.sent) + [CommandFrame(Command.GetGameData, GameId(), credentials)]
      ensures transport.connected == old(transport.connected)
    {
      Send(Command.GetGameData);
    }

    method Pause()
      requires Valid()
      modifies transport
      ensures transport.sent == old(transport.sent) + [CommandFrame(Command.Pause, GameId(), credentials)]
      ensures transport.connected == old(transport.connected)
    {
      Send(Command.Pause);
    }

    method Resume()
      requires Valid()
      modifies transport
      ensures transport.sent == old(transport.sent) + [CommandFrame(Command.Resume, GameId(), credentials)]
      ensures transport.connected == old(transport.connected)
    {
      Send(Command.Resume);
    }

    method Move(move: Value)
      requires Valid()
      modifies transport
      ensures transport.sent == old(transport.sent) + [CommandFrame(Command.Move(move), GameId(), credentials)]
      ensures transport.connected == old(transport.connected)
    {
      Send(Command.Move(move));
    }

    method Resign()
      requires Valid()
      modifies transport
      ensures transport.sent == old(transport.sent) + [CommandFrame(Command.Resign, GameId(), credentials)]
      ensures transport.connected == old(transport.connected)
    {
      Send(Command.Resign);
    }

    method Cancel()
      requires Valid()
      modifies transport
      ensures transport.sent == old(transport.sent) + [CommandFrame(Command.Cancel, GameId(), credentials)]
      ensures transport.connected == old(transport.connected)
    {
      Send(Command.Cancel);
    }

    method Undo(move: Value)
      requires Valid()
      modifies transport
      ensures transport.sent == old(transport.sent) + [CommandFrame(Command.Undo(move), GameId(), credentials)]
      ensures transport.connected == old(transport.connected)
    {
      Send(Command.Undo(move));
    }

    method CancelUndo(move: Value)
      requires Valid()
      modifies transport
      ensures transport.sent == old(transport.sent) + [CommandFrame(Command.CancelUndo(move), GameId(), credentials)]
      ensures transport.connected == old(transport.connected)
    {
      Send(Command.CancelUndo(move));
    }

    method AcceptUndo(move: Value)
      requires Valid()
      modifies transport
      ensures transport.sent == old(transport.sent) + [CommandFrame(Command.AcceptUndo(move), GameId(), credentials)]
      ensures transport.connected == old(transport.connected)
    {
      Send(Command.AcceptUndo(move));
    }

    method PassTurn()
      requires Valid()
      modifies transport
      ensures transport.sent == old(transport.sent) + [CommandFrame(Command.PassTurn, GameId(), credentials)]
      ensures transport.connected == old(transport.connected)
    {
      Send(Command.PassTurn);
    }

    method SendChat(message: Value, chatType: Value, move: Value)
      requires Valid()
      modifies transport
      ensures transport.sent == old(transport.sent) + [CommandFrame(Command.SendChat(message, chatType, move), GameId(), credentials)]
      ensures transport.connected == old(transport.connected)
    {
      Send(Command.SendChat(message, chatType, move));
    }
  }
}
