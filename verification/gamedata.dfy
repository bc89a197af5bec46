/** The per-game metadata mirror: `Player`, `TimeControl` and `OGSGameData`,
    each updated in place from a dict sent by the server. A dataclass instance
    is modelled by its attribute dictionary; `hasattr` is membership in the set
    of declared fields. */
module GameData {
  import opened PyValues

  const PlayerFields: set<string> := {"username", "rank", "professional", "id"}

  const TimeControlFields: set<string> :=
    {"system", "time_control", "speed", "pause_on_weekends", "time_increment", "initial_time", "max_time"}

  /** The fields of `OGSGameData` other than the two player slots and
      `time_control`, which hold objects. */
  const ScalarFields: set<string> :=
    {"game_id", "game_name", "private", "ranked", "handicap", "komi", "width", "height",
     "rules", "phase", "moves", "initial_state", "start_time", "latency"}

  class Player {
    var attrs: map<string, Value>

    ghost predicate Valid()
      reads this
    {
      attrs.Keys == PlayerFields
    }

    constructor ()
      ensures Valid() && attrs == NoneAttrs(PlayerFields)
    {
      attrs := NoneAttrs(PlayerFields);
    }

    /** `Player.update`: declared fields named in `newValues` are overwritten. */
    method Update(newValues: Dict)
      requires Valid()
      modifies this
      ensures Valid()
      ensures attrs == SetAttrs(old(attrs), newValues)
    {
      var i := 0;
      while i < |newValues|
        invariant 0 <= i <= |newValues|
        invariant attrs == SetAttrs(old(attrs), newValues[..i])
      {
        var (key, value) := newValues[i];
        if key in attrs {
          attrs := attrs[key := value];
        }
        assert newValues[..i + 1][..i] == newValues[..i];
        i := i + 1;
      }
      assert newValues[..i] == newValues;
    }
  }

  class TimeControl {
    var attrs: map<string, Value>

    ghost predicate Valid()
      reads this
    {
      attrs.Keys == TimeControlFields
    }

    constructor ()
      ensures Valid() && attrs == NoneAttrs(TimeControlFields)
    {
      attrs := NoneAttrs(TimeControlFields);
    }

    /** `TimeControl.update`: declared fields named in `newValues` are overwritten. */
    method Update(newValues: Dict)
      requires Valid()
      modifies this
      ensures Valid()
      ensures attrs == SetAttrs(old(attrs), newValues)
    {
      var i := 0;
      while i < |newValues|
        invariant 0 <= i <= |newValues|
        invariant attrs == SetAttrs(old(attrs), newValues[..i])
      {
        var (key, value) := newValues[i];
        if key in attrs {
          attrs := attrs[key := value];
        }
        assert newValues[..i + 1][..i] == newValues[..i];
        i := i + 1;
      }
      assert newValues[..i] == newValues;
    }
  }

  /** What the `white_player` or `black_player` attribute holds: the `Player`
      object it starts with, or whatever raw value a frame key of that very
      name assigned to it. */
  datatype PlayerSlot = PlayerObject(player: Player) | RawPlayer(value: Value)

  /** The value of a player slot: the player's attributes, or the raw value. */
  datatype SlotView = PlayerFieldsV(fields: map<string, Value>) | RawV(raw: Value)

  /** The value of an `OGSGameData` instance. */
  datatype GameDataView = GameDataView(
    attrs: map<string, Value>,
    white: SlotView,
    black: SlotView,
    timeControl: map<string, Value>)

  /** A freshly built `OGSGameData(game_id=gameId)`. */
  function InitialGameData(gameId: Value): GameDataView
  {
    GameDataView(
      NoneAttrs(ScalarFields)["game_id" := gameId]["moves" := VList([])]
        ["initial_state" := VDict([("black", VNone), ("white", VNone)])],
      PlayerFieldsV(NoneAttrs(PlayerFields)),
      PlayerFieldsV(NoneAttrs(PlayerFields)),
      NoneAttrs(TimeControlFields))
  }

  /** A fresh game has an empty move list, an initial state with no stones
      for either colour, players and time control all `None`, and no field
      set other than `game_id`. */
  lemma InitialGameDataFields(gameId: Value)
    ensures var r := InitialGameData(gameId);
      && r.attrs.Keys == ScalarFields
      && r.attrs["game_id"] == gameId && r.attrs["moves"] == VList([])
      && r.attrs["initial_state"] == VDict([("black", VNone), ("white", VNone)])
      && (forall k | k in r.attrs && k !in {"game_id", "moves", "initial_state"} :: r.attrs[k] == VNone)
      && r.white == r.black == PlayerFieldsV(map k | k in PlayerFields :: VNone)
      && r.timeControl.Keys == TimeControlFields
      && (forall k | k in r.timeControl :: r.timeControl[k] == VNone)
  {
  }

  /** `slot.update(payload[side])`, evaluated as Python does: the bound
      method `slot.update` first, then the subscript, then the call, which is
      `Player.update` for a player object (it needs `.items()`, so only a dict
      argument goes through) and `dict.update` for a raw dict (which also takes
      a sequence of pairs, and keeps the pairs before a bad one). */
  function MergeSide(s: SlotView, payload: Value, side: string): Outcome<SlotView>
  {
    if s.RawV? && !s.raw.VDict? then Outcome(s, Some(AttributeError))
    else match Subscript(payload, side)
      case Err(e) => Outcome(s, Some(e))
      case Ok(w) =>
        if s.PlayerFieldsV? then
          if w.VDict? then Outcome(PlayerFieldsV(SetAttrs(s.fields, w.entries)), None)
          else Outcome(s, Some(AttributeError))
        else
          var m := DictUpdateWith(s.raw.entries, w);
          Outcome(RawV(VDict(m.state)), m.raised)
  }

  /** One iteration of the loop in `OGSGameData.update`. */
  function StepGameData(v: GameDataView, e: Entry): Outcome<GameDataView>
  {
    var (key, value) := e;
    if key == "players" then
      var w := MergeSide(v.white, value, "white");
      if w.raised.Some? then Outcome(v.(white := w.state), w.raised)
      else
        var b := MergeSide(v.black, value, "black");
        Outcome(v.(white := w.state, black := b.state), b.raised)
    else if key == "time_control" then
      if value.VDict? then Outcome(v.(timeControl := SetAttrs(v.timeControl, value.entries)), None)
      else Outcome(v, Some(AttributeError))
    else if key == "white_player" then Outcome(v.(white := RawV(value)), None)
    else if key == "black_player" then Outcome(v.(black := RawV(value)), None)
    else if key in v.attrs then Outcome(v.(attrs := v.attrs[key := value]), None)
    else Outcome(v, None)
  }

  /** `OGSGameData.update(newValues)`. */
  function UpdateGameData(v: GameDataView, newValues: Dict): Outcome<GameDataView>
  {
    Fold(StepGameData, v, newValues)
  }

  class GameData {
    var attrs: map<string, Value>
    var whitePlayer: PlayerSlot
    var blackPlayer: PlayerSlot
    const timeControl: TimeControl
    ghost const Repr: set<object>

    ghost predicate Valid()
      reads this, Repr
    {
      && this in Repr
      && timeControl in Repr && timeControl.Valid()
      && attrs.Keys == ScalarFields
      && (whitePlayer.PlayerObject? ==> whitePlayer.player in Repr && whitePlayer.player.Valid())
      && (blackPlayer.PlayerObject? ==> blackPlayer.player in Repr && blackPlayer.player.Valid())
      && (whitePlayer.PlayerObject? && blackPlayer.PlayerObject? ==> whitePlayer.player != blackPlayer.player)
    }

    ghost function SlotOf(s: PlayerSlot): SlotView
      reads if s.PlayerObject? then {s.player} else {}
    {
      match s
      case PlayerObject(p) => PlayerFieldsV(p.attrs)
      case RawPlayer(r) => RawV(r)
    }

    ghost function View(): GameDataView
      reads this, Repr
      requires Valid()
    {
      GameDataView(attrs, SlotOf(whitePlayer), SlotOf(blackPlayer), timeControl.attrs)
    }

    /** The state of a freshly built `OGSGameData(game_id=gameId)`. */
    ghost predicate Initial(gameId: Value)
      reads this, Repr
    {
      Valid() && View() == InitialGameData(gameId)
    }

    constructor (gameId: Value)
      ensures fresh(Repr) && Initial(gameId)
    {
      var w := new Player();
      var b := new Player();
      var tc := new TimeControl();
      attrs := NoneAttrs(ScalarFields)["game_id" := gameId]["moves" := VList([])]
        ["initial_state" := VDict([("black", VNone), ("white", VNone)])];
      whitePlayer := PlayerObject(w);
      blackPlayer := PlayerObject(b);
      timeControl := tc;
      Repr := {this, w, b, tc};
    }

    /** `OGSGameData.update(newValues)`: returns the exception that stopped
        the loop, if any; the entries before it stay applied. */
    method Update(newValues: Dict) returns (raised: Option<Exc>)
      requires Valid()
      modifies Repr
      ensures Valid()
      ensures Outcome(View(), raised) == UpdateGameData(old(View()), newValues)
    {
      ghost var v0 := View();
      raised := None;
      var i := 0;
      while i < |newValues| && raised.None?
        invariant 0 <= i <= |newValues|
        invariant Valid()
        invariant Outcome(View(), raised) == Fold(StepGameData, v0, newValues[..i])
      {
        FoldPrefix(StepGameData, v0, newValues, i);
        raised := Apply(newValues[i]);
        i := i + 1;
      }
      if raised.Some? {
        FoldStops(StepGameData, v0, newValues, i);
      } else {
        assert newValues[..i] == newValues;
      }
    }

    /** The body of the loop in `OGSGameData.update` for one entry. */
    method Apply(e: Entry) returns (raised: Option<Exc>)
      requires Valid()
      modifies Repr
      ensures Valid()
      ensures Outcome(View(), raised) == StepGameData(old(View()), e)
    {
      var (key, value) := e;
      if key == "players" {
        raised := MergeSlot(true, value);
        if raised.None? {
          raised := MergeSlot(false, value);
        }
      } else if key == "time_control" {
        if value.VDict? {
          timeControl.Update(value.entries);
          raised := None;
        } else {
          raised := Some(AttributeError);
        }
      } else if key == "white_player" {
        whitePlayer := RawPlayer(value);
        raised := None;
      } else if key == "black_player" {
        blackPlayer := RawPlayer(value);
        raised := None;
      } else {
        if key in attrs {
          attrs := attrs[key := value];
        }
        raised := None;
      }
    }

    /** `self.white_player.update(value['white'])` (or the black one). */
    method MergeSlot(white: bool, payload: Value) returns (raised: Option<Exc>)
      requires Valid()
      modifies Repr
      ensures Valid()
      ensures var m := MergeSide(if white then old(View()).white else old(View()).black,
                                 payload, if white then "white" else "black");
              raised == m.raised &&
              View() == if white then old(View()).(white := m.state) else old(View()).(black := m.state)
    {
      var slot := if white then whitePlayer else blackPlayer;
      var side := if white then "white" else "black";
      match slot
      case RawPlayer(r) =>
        if !r.VDict? {
          raised := Some(AttributeError);
          return;
        }
        var sub := Subscript(payload, side);
        if sub.Err? {
          raised := Some(sub.error);
          return;
        }
        var m := DictUpdateWith(r.entries, sub.value);
        var merged := RawPlayer(VDict(m.state));
        if white {
          whitePlayer := merged;
        } else {
          blackPlayer := merged;
        }
        raised := m.raised;
      case PlayerObject(p) =>
        var sub := Subscript(payload, side);
        if sub.Err? {
          raised := Some(sub.error);
          return;
        }
        if !sub.value.VDict? {
          raised := Some(AttributeError);
          return;
        }
        p.Update(sub.value.entries);
        raised := None;
    }
  }

  /** A `players` payload whose `white`/`black` dicts are real dicts, and
      whose sequences of pairs, if any, name each key once. */
  predicate SideOk(payload: Value, side: string)
  {
    match Subscript(payload, side)
    case Ok(VDict(u)) => IsDict(u)
    case Ok(w) => Iterate(w).Ok? ==> IsDict(Pairs(Iterate(w).value).state)
    case _ => true
  }

  /** The entries for which one merge step repeated is a no-op, and which
      touch only the part of the state named by their key. */
  predicate Repeatable(e: Entry)
  {
    && e.0 != "white_player" && e.0 != "black_player"
    && (e.0 == "players" ==> SideOk(e.1, "white") && SideOk(e.1, "black"))
  }

  /** Merging the same side payload into a slot a second time changes nothing. */
  lemma MergeSideAgain(s: SlotView, payload: Value, side: string)
    requires SideOk(payload, side)
    requires MergeSide(s, payload, side).raised.None?
    ensures MergeSide(MergeSide(s, payload, side).state, payload, side) ==
            Outcome(MergeSide(s, payload, side).state, None)
  {
    var w := Subscript(payload, side).value;
    if s.PlayerFieldsV? {
      SetAttrsIdempotent(s.fields, w.entries);
    } else if w.VDict? {
      DictUpdateIdempotent(s.raw.entries, w.entries);
    } else {
      DictUpdateIdempotent(s.raw.entries, Pairs(Iterate(w).value).state);
    }
  }

  lemma StepGameDataRepeatable()
    ensures SelfAbsorbing(StepGameData, Repeatable)
    ensures KeyLocal(StepGameData, Repeatable)
  {
    forall t, e | Repeatable(e) && StepGameData(t, e).raised.None?
      ensures Absorbs(StepGameData, StepGameData(t, e).state, e)
    {
      var (key, value) := e;
      var t' := StepGameData(t, e).state;
      if key == "players" {
        MergeSideAgain(t.white, value, "white");
        MergeSideAgain(t.black, value, "black");
        assert t'.white == MergeSide(t.white, value, "white").state;
        assert t'.black == MergeSide(t.black, value, "black").state;
      } else if key == "time_control" {
        SetAttrsIdempotent(t.timeControl, value.entries);
      } else if key in t.attrs {
        assert t'.attrs[key := value] == t'.attrs;
      }
    }
    forall t, e, e2 | Repeatable(e) && Repeatable(e2) && e.0 != e2.0 &&
      Absorbs(StepGameData, t, e) && StepGameData(t, e2).raised.None?
      ensures Absorbs(StepGameData, StepGameData(t, e2).state, e)
    {
      var t' := StepGameData(t, e2).state;
      if e2.0 == "players" {
        assert t'.attrs == t.attrs && t'.timeControl == t.timeControl;
      } else if e2.0 == "time_control" {
        assert t'.attrs == t.attrs && t'.white == t.white && t'.black == t.black;
      } else if e2.0 in t.attrs {
        assert t'.white == t.white && t'.black == t.black && t'.timeControl == t.timeControl;
        if e.0 in t.attrs && e.0 != "players" && e.0 != "time_control" {
          assert t.attrs[e.0] == e.1;
          assert t'.attrs[e.0] == e.1;
          assert t'.attrs[e.0 := e.1] == t'.attrs;
        }
      } else {
        assert t' == t;
      }
    }
  }

  /** `OGSGameData.update` applied twice with the same dict leaves the state
      the first application left. */
  lemma UpdateIdempotent(v: GameDataView, newValues: Dict)
    requires IsDict(newValues)
    requires forall e | e in newValues :: Repeatable(e)
    requires UpdateGameData(v, newValues).raised.None?
    ensures UpdateGameData(UpdateGameData(v, newValues).state, newValues) == UpdateGameData(v, newValues)
  {
    StepGameDataRepeatable();
    FoldIdempotent(StepGameData, Repeatable, v, newValues);
  }

  /** Without the restriction to frames free of `white_player`/`black_player`
      keys the update is not idempotent: a `players` merge followed by a raw
      `white_player` value that is not a dict succeeds once, and on the repeat
      the merge finds a raw slot with no `update` method. */
  lemma MergeThenRawSlotNotIdempotent(gameId: Value)
    ensures var f := [("players", VDict([("white", VDict([])), ("black", VDict([]))])), ("white_player", VInt(5))];
      var once := UpdateGameData(InitialGameData(gameId), f);
      && IsDict(f) && once.raised.None? && once.state.white == RawV(VInt(5))
      && UpdateGameData(once.state, f) == Outcome(once.state, Some(AttributeError))
  {
    var f := [("players", VDict([("white", VDict([])), ("black", VDict([]))])), ("white_player", VInt(5))];
    var v0 := InitialGameData(gameId);
    assert f[..1][..0] == [] && f[..2] == f;
    DistinctKeys(f);
    FoldPrefix(StepGameData, v0, f, 0);
    FoldPrefix(StepGameData, v0, f, 1);
    var once := UpdateGameData(v0, f);
    assert once.state.white == RawV(VInt(5));
    FoldPrefix(StepGameData, once.state, f, 0);
    FoldStops(StepGameData, once.state, f, 1);
  }

  /** The scalar fields end up exactly as `setattr` over the frame leaves them:
      a declared key is overwritten wholesale (so `moves` is replaced, not
      appended to), anything else is ignored. */
  lemma {:induction false} UpdateScalars(v: GameDataView, newValues: Dict)
    requires v.attrs.Keys == ScalarFields
    requires UpdateGameData(v, newValues).raised.None?
    ensures UpdateGameData(v, newValues).state.attrs == SetAttrs(v.attrs, newValues)
  {
    if newValues != [] {
      var init := newValues[..|newValues| - 1];
      UpdateScalars(v, init);
    }
  }

  /** Field by field: a scalar field named in the frame takes the frame's value,
      every other one keeps its value. */
  lemma UpdateScalarField(v: GameDataView, newValues: Dict, k: string)
    requires v.attrs.Keys == ScalarFields
    requires UpdateGameData(v, newValues).raised.None?
    requires k in ScalarFields
    ensures k in UpdateGameData(v, newValues).state.attrs
    ensures UpdateGameData(v, newValues).state.attrs[k] ==
      match Lookup(newValues, k) case Some(x) => x case None => v.attrs[k]
  {
    UpdateScalars(v, newValues);
    SetAttrsValue(v.attrs, newValues, k);
  }

  /** Parts of the state no key of the frame addresses are left alone, even
      when the update stops with an exception. */
  lemma {:induction false} UpdateKeepsUnnamed(v: GameDataView, newValues: Dict)
    ensures "players" !in Keys(newValues) && "white_player" !in Keys(newValues) ==>
      UpdateGameData(v, newValues).state.white == v.white
    ensures "players" !in Keys(newValues) && "black_player" !in Keys(newValues) ==>
      UpdateGameData(v, newValues).state.black == v.black
    ensures "time_control" !in Keys(newValues) ==>
      UpdateGameData(v, newValues).state.timeControl == v.timeControl
  {
    if newValues != [] {
      var init := newValues[..|newValues| - 1];
      UpdateKeepsUnnamed(v, init);
    }
  }

  /** A `time_control` entry is merged into the existing `TimeControl`: fields
      it names take its values and the others are kept. */
  lemma {:induction false} UpdateMergesTimeControl(v: GameDataView, newValues: Dict, u: Dict)
    requires IsDict(newValues)
    requires Lookup(newValues, "time_control") == Some(VDict(u))
    requires UpdateGameData(v, newValues).raised.None?
    ensures UpdateGameData(v, newValues).state.timeControl == SetAttrs(v.timeControl, u)
  {
    var init, last := newValues[..|newValues| - 1], newValues[|newValues| - 1];
    if last.0 == "time_control" {
      UpdateKeepsUnnamed(v, init);
    } else {
      UpdateMergesTimeControl(v, init, u);
    }
  }

  /** A `players` entry merges each side's dict into that side's `Player`
      field by field; fields it does not name keep their values. */
  lemma PlayersMergedFieldwise(v: GameDataView, payload: Value, k: string)
    requires v.white.PlayerFieldsV? && v.black.PlayerFieldsV?
    requires StepGameData(v, ("players", payload)).raised.None?
    ensures var r := StepGameData(v, ("players", payload)).state;
      && Subscript(payload, "white").Ok? && Subscript(payload, "white").value.VDict?
      && Subscript(payload, "black").Ok? && Subscript(payload, "black").value.VDict?
      && r.white == PlayerFieldsV(SetAttrs(v.white.fields, Subscript(payload, "white").value.entries))
      && r.black == PlayerFieldsV(SetAttrs(v.black.fields, Subscript(payload, "black").value.entries))
      && r.attrs == v.attrs && r.timeControl == v.timeControl
    ensures k in v.white.fields ==>
      (StepGameData(v, ("players", payload)).state.white.fields[k] ==
       match Lookup(Subscript(payload, "white").value.entries, k) case Some(x) => x case None => v.white.fields[k])
  {
    if k in v.white.fields {
      SetAttrsValue(v.white.fields, Subscript(payload, "white").value.entries, k);
    }
  }

  /** No attribute is ever added or removed by an update. */
  lemma {:induction false} UpdateKeepsShape(v: GameDataView, newValues: Dict)
    ensures UpdateGameData(v, newValues).state.attrs.Keys == v.attrs.Keys
    ensures UpdateGameData(v, newValues).state.timeControl.Keys == v.timeControl.Keys
  {
    if newValues != [] {
      UpdateKeepsShape(v, newValues[..|newValues| - 1]);
    }
  }
}
