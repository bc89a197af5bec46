# python-ogs: the game-state mirror, socket bookkeeping and challenge records, in Dafny

python-ogs is a Python client for the Online-Go server (OGS). This project models its core:

- **Game-data mirror.** The server's `gamedata` frames are merged into an `OGSGameData` record with its nested `Player` and `TimeControl` records.
- **Game clock.** `clock` frames are merged into an `OGSGameClock`.
- **Game session.** An `OGSGame` applies inbound socket events to that state, passes each event on to the user's callback, and turns outbound commands into socket frames.
- **Socket session.** An `OGSSocket` keeps the registry of connected games and the latency and drift estimated from ping/pong.
- **Challenge records.** These cover the two time-control parameter records, the challenge's own `OGSGameData` and `OGSChallenge`.
- **Parts of `OGSClient`.** These cover the settings payload builder, the received/sent challenge split and sending a challenge.

## Modules

| file | module | models |
|---|---|---|
| `values.dfy` | `PyValues` | Python values as received from the server. A dict is a sequence of `(key, value)` entries in insertion order. Also `d[k]`, `d[k] = v`, `dict.update`, the `hasattr`/`setattr` loop of the dataclasses, a loop that stops at the first exception (`Fold`), `==` between values and `int()` of a float. |
| `wire.dfy` | `Wire` | The socket.io client, as a log of emitted frames. The user's callback, as a log of calls. `OGSCredentials`. |
| `gamedata.dfy` | `GameData` | `src/ogsapi/ogsgamedata.py` |
| `gameclock.dfy` | `GameClock` | `src/ogsapi/ogsgameclock.py` |
| `game.dfy` | `Game` | `src/ogsapi/ogsgame.py` |
| `socket.dfy` | `Socket` | `src/ogsapi/ogssocket.py` |
| `challenge.dfy` | `Challenge` | `src/ogsapi/ogschallenge.py`; `OGSClient.create_challenge` is `Challenge.NewChallenge` |
| `client.dfy` | `Client` | `src/ogsapi/client.py`: `update_user_settings`, `received_challenges`, `sent_challenges`, `send_created_challenge`, the stored user id |

### How the records are modelled

**Attribute dictionaries.**
- A dataclass instance that is updated in place is a Dafny class with an attribute map `attrs`. Its invariant `Valid()` says the map holds exactly the declared fields.
- `hasattr(self, key)` is membership in that map.
- Each `update` method is a `while` loop over the frame. It is proved equal to a function on values: `SetAttrs` for the flat records, and `UpdateGameData` / `UpdateClock` for the two loops that may raise part-way. The properties are then lemmas about those functions.

**Exceptions.**
- Python raises in the middle of a loop. The writes made before the exception stay made.
- The loop functions therefore return an `Outcome(state, raised)`, and the methods return the exception they stopped with.

**Player slots and clock times.**
- `white_player`/`black_player` hold a `Player` object until a frame key of that very name replaces it with the raw value. A later `players` entry then calls `update` on whatever the slot holds: `Player.update` on an object, `dict.update` on a dict, and an `AttributeError` on anything else. `Player.update` needs a dict; `dict.update` also takes a list or string of key/value pairs.
- `white_time`/`black_time` of the clock start as `None`. The first frame stores its value as it is. Later frames call `update` on the stored value, which as a dict takes a dict or a sequence of pairs.

### Behaviour of the code worth knowing

- A `move` event stores nothing. The move list changes only when a `gamedata` frame naming `moves` replaces it.
- `set_timecontrol` assigns only its loop variable, so the clock's fields stay as they are when its `system` changes. `received` and `latency_when_received` are never stamped.
- A `players` entry merges each side field by field into the existing `Player`.
- A malformed payload raises inside the handler. Examples: a `move` event without `move`, a `latency` event without `latency`, a time that is neither a dict nor a sequence of pairs merged into a stored time. The state changes made before the exception stay, and the callback is not called.
- `game_disconnect` of an id that is not registered raises `KeyError`. It sends no frame.
- `disconnect` closes the socket but leaves the games registered.
- `ping` does not update `last_issued_ping`.
- Commands name the game by the `game_id` the game data holds now. A `gamedata` frame can overwrite that id. The event subscriptions keep the id the game was created with.
- `OGSClient` stores the whole `/me` response as the user id (see Findings).

## Model

The reference definitions the rows below are stated against are functions on values: `PyValues.SetAttrs`, `PyValues.DictUpdate`, `PyValues.DictUpdateWith` and `PyValues.Fold`; `GameData.UpdateGameData` with its step `GameData.StepGameData` and `GameData.MergeSide`; `GameClock.UpdateClock` with its step `GameClock.StepClock`; `Game.Inbound` and `Game.CommandFrame`; `Socket.Pong`; `Challenge.AfterPostInit`, `Challenge.CreateGame`, `Challenge.WithTimeControl` and `Challenge.CreateChallenge`; `Client.SettingsFields`, `Client.Given` and `Client.Select`. Each is characterised by the lemmas and methods whose rows name it.

| member | source | states |
|---|---|---|
| PyValues.Subscript | src/ogsapi/ogsgame.py:111 | `v[k]` succeeds exactly on a dict holding `k` and gives its value. A missing key is `KeyError(k)`; a value that is not a dict is `TypeError`. |
| PyValues.SetItemLookup | src/ogsapi/client.py:147-148 | After `d[k] = v`, `k` maps to `v`, every other key keeps its value, and the keys are the old ones plus `k`. |
| PyValues.DictUpdateLookup | src/ogsapi/ogsgameclock.py:99 | After `d.update(u)`, a key holds its value from `u` when `u` has it and its value from `d` otherwise. The keys are the union. |
| PyValues.DictUpdateIdempotent | src/ogsapi/ogsgameclock.py:99 | `d.update(u)` done twice leaves the dict that one call leaves, positions included. |
| PyValues.Iterate | src/ogsapi/client.py:316 | `for x in v` over a list yields its items. A string or dict yields one element per character or key. Anything else raises `TypeError`. |
| PyValues.UpdatePair | src/ogsapi/ogsgameclock.py:99 | An element of a non-dict `update` argument is a pair exactly when it iterates to two items with a string key, which become key and value. An element of another length raises `ValueError`; an element that is not iterable, or a key that is not a string, raises `TypeError`. |
| PyValues.PairsPrefix | src/ogsapi/ogsgameclock.py:99 | The pairs read from a non-dict argument are the elements' pairs up to the first element that is not one. Reading raises exactly when such an element exists, and raises what that first one raises. |
| PyValues.DictUpdateWith | src/ogsapi/ogsgameclock.py:99 | `d.update(x)` with a dict `x` is the entry-by-entry merge. A value that is not iterable raises `TypeError` and leaves `d` as it was. |
| PyValues.DictUpdateWithEmpty | src/ogsapi/ogsgameclock.py:99 | `d.update([])` and `d.update("")` change nothing and raise nothing. |
| PyValues.DictUpdateWithString | src/ogsapi/ogsgameclock.py:99 | `d.update(s)` for a non-empty string raises `ValueError` and assigns nothing. |
| PyValues.DictUpdateWithPairList | src/ogsapi/ogsgameclock.py:99 | `d.update([[k1, v1], ...])` with string keys assigns the pairs in order, as merging the dict of those pairs would. |
| PyValues.SetAttrs | src/ogsapi/ogsgamedata.py:35-37 | The `hasattr`/`setattr` loop never adds or removes an attribute: keys that are not fields are ignored. |
| PyValues.SetAttrsValue | src/ogsapi/ogsgamedata.py:35-37 | After the loop, a declared field named in the dict holds the dict's value for it, and every other field keeps its value. |
| PyValues.SetAttrsIdempotent | src/ogsapi/ogsgamedata.py:35-37 | Running the `setattr` loop twice with the same dict equals running it once. |
| PyValues.FoldStops | src/ogsapi/ogsgamedata.py:122-129 | Once an entry raises, no later entry of the dict is applied, and the state is the one reached when it raised. |
| PyValues.FoldIdempotent | src/ogsapi/ogsgamedata.py:122-129 | Suppose a step repeated on its own entry is a no-op and does not disturb another key's entry. Then a successful loop over a dict, run twice, ends where one run ends. |
| PyValues.NoneAttrs | src/ogsapi/ogsgamedata.py:28-31 | A fresh dataclass has exactly its declared fields, each `None`. |
| PyValues.Numeric | src/ogsapi/ogssocket.py:113-114 | Arithmetic is defined exactly on `bool`, `int` and `float` values. |
| PyValues.Truncate | src/ogsapi/ogssocket.py:154 | `int(x)` truncates toward zero. The result is within one of `x`, below it for positive `x` and above it for negative `x`. |
| Wire.Transport.Emit | src/ogsapi/ogsgame.py:135 | `socket.emit` appends exactly one frame to the log and does not change the connection. |
| Wire.Transport.Disconnect | src/ogsapi/ogssocket.py:197 | `socket.disconnect()` sends nothing and leaves the client disconnected. |
| Wire.Listener.Call | src/ogsapi/ogsgame.py:80 | A callback call appends exactly that `(event_name, data)` pair. |
| GameData.Player.constructor | src/ogsapi/ogsgamedata.py:28-31 | A fresh `Player` has `username`, `rank`, `professional` and `id`, all `None`. |
| GameData.Player.Update | src/ogsapi/ogsgamedata.py:33-38 | The player's fields end up as the `setattr` loop over the frame leaves them: named declared fields overwritten, other keys ignored, absent fields kept. The declared fields stay exactly the four. |
| GameData.TimeControl.constructor | src/ogsapi/ogsgamedata.py:54-60 | A fresh `TimeControl` has its seven fields, all `None`. |
| GameData.TimeControl.Update | src/ogsapi/ogsgamedata.py:62-67 | Same as `Player.Update`, over the seven time-control fields. |
| GameData.InitialGameDataFields | src/ogsapi/ogsgamedata.py:95-114 | A fresh `OGSGameData(game_id=g)` has `game_id = g`, an empty `moves`, `initial_state = {black: None, white: None}`, every other field `None`, and players and time control all `None`. |
| GameData.GameData.constructor | src/ogsapi/ogsgamedata.py:95-114 | The new object's state is that initial value, and its two `Player` objects and its `TimeControl` are fresh and distinct. |
| GameData.GameData.Update | src/ogsapi/ogsgamedata.py:116-130 | State and exception after `update(frame)` are those of the loop applying each entry in order and stopping at the first exception. The record keeps its declared fields. |
| GameData.GameData.Apply | src/ogsapi/ogsgamedata.py:123-129 | One entry: `players` merges both sides, `time_control` merges into the `TimeControl`, `white_player`/`black_player` replace the slot, another declared key is overwritten, and anything else is ignored. |
| GameData.GameData.MergeSlot | src/ogsapi/ogsgamedata.py:124-125 | `slot.update(value[side])`: `Player.update` on a player object, `dict.update` on a stored dict, otherwise `AttributeError`. A missing side is a `KeyError`. A player object given a non-dict side raises `AttributeError`. A stored dict takes a dict or a sequence of pairs, and keeps the pairs assigned before a bad element. Only that slot changes. |
| GameData.MergeSideAgain | src/ogsapi/ogsgamedata.py:124-125 | Merging the same side payload into a slot a second time changes nothing. |
| GameData.StepGameDataRepeatable | src/ogsapi/ogsgamedata.py:122-129 | Every step without a raw `white_player`/`black_player` key is a no-op when repeated, and does not undo the step of another key. |
| GameData.UpdateIdempotent | src/ogsapi/ogsgamedata.py:116-129 | Applying the same frame twice yields the state one application yields, for frames without `white_player`/`black_player` keys. |
| GameData.MergeThenRawSlotNotIdempotent | src/ogsapi/ogsgamedata.py:123-129 | A frame with a `players` merge and then a raw `white_player` value 5 succeeds once. The same frame again raises `AttributeError` at the merge. |
| GameData.UpdateScalars | src/ogsapi/ogsgamedata.py:128-129 | The scalar fields end as the `setattr` loop leaves them: `moves` and `game_id` are replaced wholesale and undeclared keys are ignored. |
| GameData.UpdateScalarField | src/ogsapi/ogsgamedata.py:128-129 | A scalar field named in the frame takes the frame's value; every other one keeps its value. |
| GameData.UpdateKeepsUnnamed | src/ogsapi/ogsgamedata.py:122-129 | A player slot or the time control that no key of the frame addresses is unchanged, even when the update raises. |
| GameData.UpdateMergesTimeControl | src/ogsapi/ogsgamedata.py:126-127 | A `time_control` entry is merged into the existing `TimeControl`: named fields take its values and the others are kept. |
| GameData.PlayersMergedFieldwise | src/ogsapi/ogsgamedata.py:123-125 | A `players` entry merges `white` and `black` field by field into the two players. Fields it does not name keep their values, and nothing else changes. |
| GameData.UpdateKeepsShape | src/ogsapi/ogsgamedata.py:122-129 | No update adds or removes an attribute of the game data or of its time control. |
| GameClock.ByoyomiTime.constructor | src/ogsapi/ogsgameclock.py:29-31 | A fresh `ByoyomiTime` has its three fields, all `None`. |
| GameClock.ByoyomiTime.Update | src/ogsapi/ogsgameclock.py:33-38 | The declared fields named in the frame are overwritten, others are kept, and unknown keys are ignored. |
| GameClock.FischerTime.constructor | src/ogsapi/ogsgameclock.py:49-50 | A fresh `FischerTime` has `thinking_time` and `skip_bonus`, both `None`. |
| GameClock.FischerTime.Update | src/ogsapi/ogsgameclock.py:52-60 | Same as `ByoyomiTime.Update`, over the Fischer fields. |
| GameClock.Clock.constructor | src/ogsapi/ogsgameclock.py:77-89 | A fresh clock has all eight fields `None`, including `white_time` and `black_time`. `__post_init__` leaves them so. |
| GameClock.Clock.Update | src/ogsapi/ogsgameclock.py:91-106 | State and exception after `update(frame)` are those of the loop over the frame, stopping at the first exception. The clock keeps its eight fields. |
| GameClock.Clock.SetTimeControl | src/ogsapi/ogsgameclock.py:108-119 | `set_timecontrol` changes no field of the clock. |
| GameClock.UpdateKeepsUnnamed | src/ogsapi/ogsgameclock.py:97-103 | No clock key is added or removed, and a field the frame does not name keeps its value, even on an exception. So `received` and `latency_when_received` are never stamped. |
| GameClock.UpdateScalarField | src/ogsapi/ogsgameclock.py:102-103 | A field other than the two times takes the frame's value when named, and is kept otherwise. |
| GameClock.UpdateStoresTime | src/ogsapi/ogsgameclock.py:98-103 | A player time that was `None` is stored as sent. A stored one is a dict, and after the update it is what `dict.update` makes of it with the frame's value, without an exception. |
| GameClock.StepClockRepeatable | src/ogsapi/ogsgameclock.py:97-103 | A clock step whose time value is `None` or a dict is a no-op when repeated, and does not undo another key's step. |
| GameClock.UpdateIdempotent | src/ogsapi/ogsgameclock.py:91-106 | Applying the same frame twice equals applying it once, when each time in the frame is `None` or a dict. |
| GameClock.ScalarTimeNotIdempotent | src/ogsapi/ogsgameclock.py:98-99 | A scalar time is stored by a first frame, and the same frame again raises `AttributeError`. |
| GameClock.PairSequenceTimeUpdate | src/ogsapi/ogsgameclock.py:98-99 | A stored time updated with `[]` is unchanged. With `[["periods", 4]]` it gets `periods = 4`. With `"ab"` it raises `ValueError`. |
| GameClock.ByoyomiPeriodUpdate | src/ogsapi/ogsgameclock.py:98-101 | After a full byoyomi time, a frame `{periods: 4}` changes only the period count and keeps `thinking_time` and `period_time`. |
| Game.CommandFrameNamesGame | src/ogsapi/ogsgame.py:132-224 | Every command frame is a dict with distinct keys carrying the game id; `get_gamedata` names the game in its event, with an empty payload. |
| Game.CommandFrameAuth | src/ogsapi/ogsgame.py:168-224 | The game-play commands carry the chat token as `auth`, and `connect`, `disconnect`, `get_gamedata`, `pause` and `resume` carry none. |
| Game.CommandFramePlayer | src/ogsapi/ogsgame.py:132-210 | Exactly `connect`, `move` and `pass_turn` carry `player_id`, and it is the user's id. |
| Game.PassTurnIsMove | src/ogsapi/ogsgame.py:207-210 | `pass_turn()` sends exactly the frame `move('..')` sends. |
| Game.Inbound | src/ogsapi/ogsgame.py:77-129 | No event handler adds or removes an attribute of the game data, its time control or the clock. |
| Game.MoveEventStoresNothing | src/ogsapi/ogsgame.py:78-80 | A `move` event changes no state, so the move list is not appended to. It fails exactly when the payload has no `move`. |
| Game.GameDataEventAdoptsSystem | src/ogsapi/ogsgame.py:83-89 | A `gamedata` event merges the payload into the game data. The clock's `system` is set from the time control only while it is `None`, so once set it never changes; no other clock field changes. |
| Game.GameDataEventIdempotent | src/ogsapi/ogsgame.py:83-89 | The same `gamedata` payload received twice leaves the state the first one left, for payloads whose entries are `GameData.Repeatable` (no raw `white_player`/`black_player` keys). |
| Game.PhaseAndLatencyEvents | src/ogsapi/ogsgame.py:103-112 | `phase` never raises and stores the raw payload as the phase; every other attribute, both players, the time control and the clock keep their values. `latency` stores `data['latency']`, failing exactly when it is missing, in which case nothing changes. |
| Game.Game.constructor | src/ogsapi/ogsgame.py:41-51 | A new game holds fresh game data for its id and an all-`None` clock, and has emitted exactly one `game/connect` frame. The connection state is unchanged. |
| Game.Game.OnMove | src/ogsapi/ogsgame.py:78-80 | State per `Inbound`; the callback gets `("move", data)` once when the handler does not raise. |
| Game.Game.OnGameData | src/ogsapi/ogsgame.py:83-89 | State and exception per `Inbound`; then the callback gets `("gamedata", data)` once. |
| Game.Game.OnClock | src/ogsapi/ogsgame.py:92-100 | The clock is merged per `Inbound`; then the callback gets `("clock", data)` once. |
| Game.Game.OnPhase | src/ogsapi/ogsgame.py:103-106 | The phase is replaced by the payload; the callback gets `("phase", data)` once. |
| Game.Game.OnLatency | src/ogsapi/ogsgame.py:109-112 | The latency is set to `data['latency']`; the callback gets `("latency", data)` once. |
| Game.Game.OnUndo | src/ogsapi/ogsgame.py:115-129 | The three undo events change nothing and pass their own name and the payload to the callback once. |
| Game.Game.Send | src/ogsapi/ogsgame.py:132-224 | A command appends exactly its frame, for the current game id, to the socket log. The connection state is unchanged, and nothing else can be modified. |
| Game.Game.Connect | src/ogsapi/ogsgame.py:132-135 | One `game/connect` frame `{game_id, player_id, chat: False}`. The connection state is unchanged. |
| Game.Game.Disconnect | src/ogsapi/ogsgame.py:137-140 | One `game/disconnect` frame `{game_id}`. The connection state is unchanged. |
| Game.Game.GetGameData | src/ogsapi/ogsgame.py:142-145 | One `game/<id>/gamedata` frame with an empty payload. The connection state is unchanged. |
| Game.Game.Pause | src/ogsapi/ogsgame.py:147-150 | One `game/pause` frame `{game_id}`. The connection state is unchanged. |
| Game.Game.Resume | src/ogsapi/ogsgame.py:152-155 | One `game/resume` frame `{game_id}`. The connection state is unchanged. |
| Game.Game.Move | src/ogsapi/ogsgame.py:157-168 | One `game/move` frame with `auth`, `player_id`, `game_id` and `move = m`. The connection state is unchanged. |
| Game.Game.Resign | src/ogsapi/ogsgame.py:170-173 | One `game/resign` frame `{auth, game_id}`. The connection state is unchanged. |
| Game.Game.Cancel | src/ogsapi/ogsgame.py:175-178 | One `game/cancel` frame `{auth, game_id}`. The connection state is unchanged. |
| Game.Game.Undo | src/ogsapi/ogsgame.py:180-187 | One `game/undo/request` frame with `move_number = n`. The connection state is unchanged. |
| Game.Game.CancelUndo | src/ogsapi/ogsgame.py:189-196 | One `game/undo/cancel` frame with `move_number = n`. The connection state is unchanged. |
| Game.Game.AcceptUndo | src/ogsapi/ogsgame.py:198-205 | One `game/undo/accept` frame with `move_number = n`. The connection state is unchanged. |
| Game.Game.PassTurn | src/ogsapi/ogsgame.py:207-210 | One `game/move` frame whose `move` is `'..'`. The connection state is unchanged. |
| Game.Game.SendChat | src/ogsapi/ogsgame.py:212-224 | One `game/chat` frame with `body`, `type` and `move_number`. The connection state is unchanged. |
| Socket.Pong | src/ogsapi/ogssocket.py:109-118 | The pong succeeds exactly when both stamps are present and numeric. |
| Socket.PongReadings | src/ogsapi/ogssocket.py:112-117 | With client stamp C, server stamp S and local time N in ms: latency `(N-C)/1000`, drift `((N+C)/2 - S)/1000`, last ping `N/1000`. Equivalently, the server time plus the drift is the midpoint of the round trip. |
| Socket.PingFrame | src/ogsapi/ogssocket.py:151-154 | `net/ping` carries the current drift and latency, and the local time in whole milliseconds, truncated. |
| Socket.LoginFrames | src/ogsapi/ogssocket.py:96-100 | The `authenticate`, `notification/connect` and `chat/connect` frames carry the user's id and name and their channel's token (chat, notification, chat plus JWT). |
| Socket.Socket.constructor | src/ogsapi/ogssocket.py:43-54 | Drift, latency, last ping and last issued ping are 0. There are no games, a fresh callback, and a fresh socket that has sent nothing and is not connected. |
| Socket.Socket.OnConnect | src/ogsapi/ogssocket.py:96-102 | Connecting emits exactly the `authenticate` frame. The connection state is unchanged. |
| Socket.Socket.OnPong | src/ogsapi/ogssocket.py:109-118 | On success the three estimates become the pong's readings. On a missing or non-numeric stamp it raises and nothing changes. The games never change. |
| Socket.Socket.Ping | src/ogsapi/ogssocket.py:151-154 | One `net/ping` frame from the current estimates; no socket field changes. The connection state is unchanged. |
| Socket.Socket.HostInfo | src/ogsapi/ogssocket.py:145-148 | One `hostinfo` frame without a payload. The connection state is unchanged. |
| Socket.Socket.NotificationConnect | src/ogsapi/ogssocket.py:156-159 | One `notification/connect` frame. The connection state is unchanged. |
| Socket.Socket.ChatConnect | src/ogsapi/ogssocket.py:161-164 | One `chat/connect` frame. The connection state is unchanged. |
| Socket.Socket.Forward | src/ogsapi/ogssocket.py:120-142 | A forwarded event reaches the socket's callback exactly once with its name and payload. |
| Socket.Socket.GameConnect | src/ogsapi/ogssocket.py:166-183 | A new game for the id replaces any earlier entry, and the other entries are kept. Without a handler the game gets the socket's own callback. It emits its `game/connect` frame and changes no other socket field. The connection state is unchanged. |
| Socket.Socket.Register | src/ogsapi/ogssocket.py:179 | The registry maps the id to the game and keeps every other entry. |
| Socket.Socket.GameDisconnect | src/ogsapi/ogssocket.py:185-192 | Exactly that id is removed. An id that is not registered raises `KeyError` and changes nothing. No frame is sent. |
| Socket.Socket.Disconnect | src/ogsapi/ogssocket.py:194-197 | The socket is closed and no frame is sent. The games stay registered, since only the socket is in the frame. |
| Challenge.Kwargs | src/ogsapi/ogschallenge.py:100 | `Cls(**kwargs)` succeeds exactly when every keyword is a field; otherwise `TypeError`. A named field takes its keyword's value and every other field its default. |
| Challenge.ParametersFromDict | src/ogsapi/ogschallenge.py:100-104 | A parameter record built from a dict keeps every value the dict gives and takes the defaults for the rest. A key that is not a field is the only failure. |
| Challenge.PostInitDispatch | src/ogsapi/ogschallenge.py:92-104 | Dict parameters with `time_control` `fischer`/`byoyomi` become that record, with `time_control` set to the name. A missing `time_control` raises `KeyError`. Any other name, or non-dict parameters, change nothing. |
| Challenge.PostInitRecordAgrees | src/ogsapi/ogschallenge.py:96-104 | After `__post_init__` the record's own `time_control` equals the game's. |
| Challenge.DefaultGame | src/ogsapi/ogschallenge.py:75-90 | `OGSGameData()` has the default fields, `time_control = "byoyomi"` and the Byoyomi defaults (main 2400, period 30, periods 5, min 1, max 300). |
| Challenge.SetTimeControlEffect | src/ogsapi/ogschallenge.py:106-118 | `time_control` becomes `tc`. `fischer`/`byoyomi` reset the parameters to that variant's defaults; any other value keeps them. |
| Challenge.SetTimeControlIdempotent | src/ogsapi/ogschallenge.py:106-118 | Setting the same time control twice equals setting it once. |
| Challenge.ChallengeGame.constructor | src/ogsapi/ogschallenge.py:75-90 | The generated `__init__` stores the given fields. |
| Challenge.ChallengeGame.PostInit | src/ogsapi/ogschallenge.py:92-104 | The in-place `__post_init__` leaves the state and exception `AfterPostInit` describes. |
| Challenge.ChallengeGame.SetTimeControl | src/ogsapi/ogschallenge.py:106-118 | The in-place `set_time_control` leaves the value `WithTimeControl` describes. |
| Challenge.NewChallengeGame | src/ogsapi/ogschallenge.py:75-104 | `OGSGameData(**kwargs)` is a fresh object with the value `__init__` then `__post_init__` give, or their exception. |
| Challenge.DefaultChallenge | src/ogsapi/ogschallenge.py:135-149 | `OGSChallenge()` has status `not_sent`, ranks 7 to 18, challenger white, and a default game. |
| Challenge.ChallengeInitEmpty | src/ogsapi/ogschallenge.py:135-143 | Before `__post_init__`, the defaults and an empty dict as `game`. |
| Challenge.ChallengeInitGame | src/ogsapi/ogschallenge.py:143 | `__init__` succeeds exactly on known keywords, and `game` holds the given value or an empty dict. |
| Challenge.ChallengeGameConverted | src/ogsapi/ogschallenge.py:145-149 | A challenge is built exactly when its keywords are fields and a dict `game` builds. A dict `game` becomes the `OGSGameData` built from it; any other value is kept. |
| Challenge.Challenge.constructor | src/ogsapi/ogschallenge.py:135-143 | The generated `__init__` stores the given fields. |
| Challenge.Challenge.PostInit | src/ogsapi/ogschallenge.py:145-149 | A dict `game` is replaced by the built object. If building raises, the challenge is left as it was. |
| Challenge.NewChallenge | src/ogsapi/client.py:260-271 | `create_challenge(**settings)` is a fresh `OGSChallenge` with the value `CreateChallenge` describes, or its exception. |
| Client.GivenLookup | src/ogsapi/client.py:147-160 | The payload built from a dict of arguments is a dict holding exactly the arguments that are not `None`, with their values. |
| Client.AssignIfGiven | src/ogsapi/client.py:147-148 | One `if v is not None: payload[k] = v` extends the payload built so far by that argument when it is given. |
| Client.UpdateUserSettings | src/ogsapi/client.py:146-165 | The request is `PUT /players/<user id>`, and its payload holds the given arguments under their keys, in order. |
| Client.SettingsFieldsDict | src/ogsapi/client.py:147-160 | The seven arguments go under seven distinct keys. |
| Client.SettingsPayload | src/ogsapi/client.py:146-161 | The payload holds a key exactly when its argument is not `None`. `private_name` travels as `real_name_is_private`, and no other key is sent. |
| Client.ChallengerId | src/ogsapi/client.py:317 | `challenge['challenger']['id']` succeeds exactly when both subscripts do. |
| Client.SelectStops | src/ogsapi/client.py:316-318 | Once a challenge raises, the loop's result is that error. |
| Client.SelectRaises | src/ogsapi/client.py:316-318 | The filter raises exactly when some challenge has no challenger id, with the error of the first such challenge. |
| Client.SelectMembers | src/ogsapi/client.py:316-318 | A challenge is selected exactly when it is in the list and its challenger id differs from (received) or equals (sent) the user id. |
| Client.SelectPositions | src/ogsapi/client.py:316-318 | The selection is the matching challenges in their original order, each matching position taken once. |
| Client.SelectPartition | src/ogsapi/client.py:333-335 | Over one list, received and sent succeed together. Together they hold every challenge as often as it occurs, and each challenge is in exactly one of them. |
| Client.PartitionCounts | src/ogsapi/client.py:316-318 | The multiset of received plus sent is the multiset of all challenges. |
| Client.SelectNoneMine | src/ogsapi/client.py:316-318 | When no challenger id equals the user id, everything is received and nothing is sent. |
| Client.ReceivedChallenges | src/ogsapi/client.py:304-319 | `GET /me/challenges/`. The loop returns the selection of received challenges, or the first exception. |
| Client.SentChallenges | src/ogsapi/client.py:322-336 | `GET /me/challenges`. The loop returns the selection of sent challenges, or the first exception. |
| Client.ChallengeDetails | src/ogsapi/client.py:295-298 | The result is `{challenge_id, game_id}` taken from the response's `challenge` and `game`. A missing one raises `KeyError`, checked in that order. |
| Client.SendCreatedChallenge | src/ogsapi/client.py:273-299 | With a username it POSTs to `/players/<id>/challenge/`; a player without `id` raises before sending. Without one it POSTs to `/challenges/`. The result is the challenge details of the response. |
| Client.AsWrittenSentIsEmpty | src/ogsapi/client.py:95 | With the `/me` response itself (a dict) as the user id, and numeric challenger ids, no challenge is sent and every challenge is received. |
| Client.OwnChallengeExample | src/ogsapi/client.py:95 | User 7's own challenge is reported as received and not sent. With the `id` field it is sent and not received. |
| Client.UserIdFromVitals | src/ogsapi/api.py:90 | The intended user id is the `id` field of the `/me` response, present exactly when the response has one. |
| Client.OwnChallengesAreSent | src/ogsapi/client.py:333-335 | With the intended id, every challenge whose challenger id equals the user's is sent and not received. |

The parameter defaults are the constants `Challenge.FischerDefaults` (src/ogsapi/ogschallenge.py:18-24: initial 900, max 1800, increment 30) and `Challenge.ByoyomiDefaults` (src/ogsapi/ogschallenge.py:41-49). The record defaults are `Challenge.GameDefaults` and `Challenge.ChallengeDefaults`.

## Left out

- `Wire.Transport.connected`: connecting is not modelled, so the flag only records `disconnect()`. It is `false` in every state the model reaches, and the clauses that keep it unchanged say only that nothing but `disconnect()` touches it.
- The socket.io transport itself: connecting, event registration and routing by event name. Handlers are methods called directly. `Transport` and `Listener` are logs of what was emitted and called.
- `sleep(1)` after authenticating is not modelled. `time()` is the parameter `now` of `OnPong` and `Ping`.
- The `__del__` finalisers of `OGSGame` and `OGSSocket`, which depend on garbage-collection timing.
- Floating point: the pong arithmetic and float values are exact `real`s.
- The HTTP layer (`src/ogsapi/ogsrestapi.py`) and every REST call. Responses are parameters and requests are results.
- The other `OGSClient` methods, each of which forwards one REST call.
- `src/ogsapi/api.py` and `ogs_client.py`, older copies of the same code. Only the user id they store is cited, as the intended behaviour.
- `src/ogsapi/ogsplayer.py`, logging and the `hostinfo` handler, which only logs.
- `hasattr` is membership in the declared fields. In Python it also matches method names such as `update`, so a frame key `update` would replace the bound method; that is not modelled.
- `Format` renders `None`, booleans, integers and strings as Python does. Floats, lists and dicts render as the empty string in event names and endpoints.
- PyEq: numbers are compared by value only at the top level. Lists and dicts are compared structurally, so `[1]` and `[1.0]`, or `[True]` and `[1]`, differ in the model although Python's `==` calls them equal. Two dicts are also compared entry by entry in insertion order, while Python's `==` ignores order. This only matters when a challenger id is itself a list or a dict.
- What the user's callback does when called. Its effects on the game are not modelled.
- A `game` keyword that is already an `OGSGameData` object, and a `time_control_parameters` keyword that is already a parameters object (src/ogsapi/ogschallenge.py:90): the model has only dicts and plain values there.
- `asdict(challenge)` is the `payload` parameter of `SendCreatedChallenge`. The `get_player` response is its `player` parameter.
- Aliasing of payload values. A raw `white_player`/`black_player` value (src/ogsapi/ogsgamedata.py:129) and a clock time stored as sent (src/ogsapi/ogsgameclock.py:102-103) are the payload's own dict objects. A later `players` merge (src/ogsapi/ogsgamedata.py:124-125) or time update (src/ogsapi/ogsgameclock.py:99) changes them in place, so an earlier payload that was handed to the callback (src/ogsapi/ogsgame.py:89, 98) changes with them. Model values are immutable: the callback log keeps each payload as it was received.
- Game.Game.OnGameData: the payload passed to the callback is the one received. Python passes the same object, which later merges into stored raw slots can change.
- Game.Game.OnClock: the payload passed to the callback is the one received. Python passes the same object, which later updates of a stored time can change.
- PyValues.UpdatePair: a pair whose key is a number, `bool` or `None` is assigned in Python under that key. The model's dicts have string keys only, so it raises `TypeError` there.
- `Socket.Socket`: no invariant ties the registered games to the socket's transport and credentials beyond what `GameConnect` ensures for the game it creates.
- GameData.UpdateIdempotent: proved for frames without `white_player`/`black_player` keys, whose `players` sides are dicts or pair sequences with distinct keys. Some frames outside that class are idempotent too, such as a raw dict `white_player` followed by a `players` merge. Others are not: `GameData.MergeThenRawSlotNotIdempotent` shows a `players` merge followed by a non-dict `white_player`, which raises on the repeat.
- Game.GameDataEventIdempotent: proved only for payloads whose entries are all `GameData.Repeatable`, with the restriction of `GameData.UpdateIdempotent`. Payloads with `white_player`/`black_player` keys are not covered.
- GameClock.UpdateIdempotent: proved for frames whose times are `None` or dicts. `ScalarTimeNotIdempotent` shows the other case fails.
- GameData.UpdateScalars: stated for updates that do not raise. On an exception the scalar fields hold the writes made before it, per `Fold`.

## Findings

| source | as written | input that shows it | evidently intended | confidence | as-written member | corrected member |
|---|---|---|---|---|---|---|
| src/ogsapi/client.py:95 | `credentials.user_id` is set to the whole `/me` response (a dict), so `challenger['id'] == user_id` never holds for a numeric id. | `/me` = `{id: 7, username: "me"}` and one challenge whose challenger id is 7: `sent_challenges` returns `[]` and `received_challenges` returns the user's own challenge. | `user_id` is the response's `id` field, as the older copies (src/ogsapi/api.py:90, ogs_client.py:44) store it. | not executed | Client.AsWrittenSentIsEmpty | Client.OwnChallengesAreSent |

`Client.ReceivedChallenges`, `Client.SentChallenges` and `Client.UpdateUserSettings` take the user id as a parameter. The model's intended id is `Client.UserIdFromVitals` of the `/me` response, and `Client.OwnChallengesAreSent` states what the split then gives.
