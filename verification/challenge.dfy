/** The challenge configuration records: the two time-control parameter
    dataclasses with their defaults, the challenge's `OGSGameData` (which
    turns a parameter dict into the matching record after `__init__`), and
    `OGSChallenge` (which turns a `game` dict into an `OGSGameData`). */
module Challenge {
  import opened PyValues

  /** `FischerTimeControlParameters()`. */
  const FischerDefaults: map<string, Value> := map[
    "system" := VStr("fischer"), "speed" := VStr("correspondence"), "time_control" := VStr("fischer"),
    "pause_on_weekends" := VBool(false), "initial_time" := VInt(900), "max_time" := VInt(1800),
    "time_increment" := VInt(30)]

  /** `ByoyomiTimeControlParameters()`. */
  const ByoyomiDefaults: map<string, Value> := map[
    "system" := VStr("byoyomi"), "speed" := VStr("correspondence"), "time_control" := VStr("byoyomi"),
    "pause_on_weekends" := VBool(false), "main_time" := VInt(2400), "period_time" := VInt(30),
    "periods" := VInt(5), "periods_min" := VInt(1), "periods_max" := VInt(300)]

  /** The fields of the challenge's `OGSGameData` other than
      `time_control_parameters`, with their defaults. */
  const GameDefaults: map<string, Value> := map[
    "name" := VStr("Friendly Game"), "rules" := VStr("japanese"), "ranked" := VBool(false),
    "width" := VInt(19), "height" := VInt(19), "handicap" := VInt(0), "komi_auto" := VStr("automatic"),
    "komi" := VReal(6.5), "disable_analysis" := VBool(false), "initial_state" := VNone,
    "private" := VBool(false), "rengo" := VBool(false), "rengo_casual_mode" := VBool(false),
    "time_control" := VStr("byoyomi"), "pause_on_weekends" := VBool(false)]

  /** The fields of `OGSChallenge` other than `game`, with their defaults. */
  const ChallengeDefaults: map<string, Value> := map[
    "status" := VStr("not_sent"), "initialized" := VBool(false), "min_ranking" := VInt(7),
    "max_ranking" := VInt(18), "challenger_color" := VStr("white"), "aga_ranked" := VBool(false),
    "invite_only" := VBool(false), "rengo_auto_start" := VInt(0)]

  /** The fields a dataclass built as `Cls(**kwargs)` starts with: a keyword
      that is not a field is a `TypeError`, a field named by a keyword takes
      its value, and every other field its default. The dataclasses here do
      not check the types of their fields. */
  function Kwargs(defaults: map<string, Value>, kwargs: Dict): (r: Result<map<string, Value>>)
    ensures r.Ok? <==> Keys(kwargs) <= defaults.Keys
    ensures r.Err? ==> r.error == TypeError
    ensures r.Ok? ==> r.value.Keys == defaults.Keys
    ensures r.Ok? ==> forall f | f in defaults ::
      r.value[f] == if f in Keys(kwargs) then Lookup(kwargs, f).value else defaults[f]
  {
    if kwargs == [] then Ok(defaults)
    else
      var m :- Kwargs(defaults, kwargs[..|kwargs| - 1]);
      var e := kwargs[|kwargs| - 1];
      if e.0 in defaults then Ok(m[e.0 := e.1]) else Err(TypeError)
  }

  /** What `time_control_parameters` holds: one of the two records, or
      whatever value it was given. */
  datatype TimeControlParameters =
    | FischerParams(fields: map<string, Value>)
    | ByoyomiParams(fields: map<string, Value>)
    | RawParams(value: Value)

  /** The value of a challenge's `OGSGameData`. */
  datatype GameView = GameView(attrs: map<string, Value>, parameters: TimeControlParameters)

  /** The `time_control` field names the variant of the parameter record. */
  predicate Consistent(v: GameView)
  {
    && (v.parameters.FischerParams? ==> "time_control" in v.attrs && v.attrs["time_control"] == VStr("fischer"))
    && (v.parameters.ByoyomiParams? ==> "time_control" in v.attrs && v.attrs["time_control"] == VStr("byoyomi"))
  }

  /** `OGSGameData.__init__(**kwargs)`, before `__post_init__`: the
      parameters default to a fresh `ByoyomiTimeControlParameters()`. */
  function GameInit(kwargs: Dict): Result<GameView>
  {
    var m :- Kwargs(GameDefaults["time_control_parameters" := VNone], kwargs);
    var parameters :=
      if "time_control_parameters" in Keys(kwargs) then RawParams(m["time_control_parameters"])
      else ByoyomiParams(ByoyomiDefaults);
    Ok(GameView(m - {"time_control_parameters"}, parameters))
  }

  /** `OGSGameData.__post_init__`: parameters given as a dict are matched on
      their `time_control`. `fischer` and `byoyomi` set `time_control` and
      then build the matching record from the dict; any other name leaves
      both fields as they are. */
  function AfterPostInit(v: GameView): (o: Outcome<GameView>)
  {
    if v.parameters.RawParams? && v.parameters.value.VDict? then
      var d := v.parameters.value.entries;
      match Subscript(v.parameters.value, "time_control")
      case Err(e) => Outcome(v, Some(e))
      case Ok(tc) =>
        if tc == VStr("fischer") then
          var named := v.(attrs := v.attrs["time_control" := VStr("fischer")]);
          match Kwargs(FischerDefaults, d)
          case Ok(p) => Outcome(named.(parameters := FischerParams(p)), None)
          case Err(e) => Outcome(named, Some(e))
        else if tc == VStr("byoyomi") then
          var named := v.(attrs := v.attrs["time_control" := VStr("byoyomi")]);
          match Kwargs(ByoyomiDefaults, d)
          case Ok(p) => Outcome(named.(parameters := ByoyomiParams(p)), None)
          case Err(e) => Outcome(named, Some(e))
        else Outcome(v, None)
    else Outcome(v, None)
  }

  /** `OGSGameData(**kwargs)`: `__init__`, then `__post_init__`; an exception
      from either means no object. */
  function CreateGame(kwargs: Dict): Result<GameView>
  {
    var v :- GameInit(kwargs);
    var o := AfterPostInit(v);
    if o.raised.Some? then Err(o.raised.value) else Ok(o.state)
  }

  /** `set_time_control(tc)` on a game whose value is `v`. */
  function WithTimeControl(v: GameView, tc: Value): GameView
  {
    var attrs := v.attrs["time_control" := tc];
    if tc == VStr("fischer") then GameView(attrs, FischerParams(FischerDefaults))
    else if tc == VStr("byoyomi") then GameView(attrs, ByoyomiParams(ByoyomiDefaults))
    else GameView(attrs, v.parameters)
  }

  /** Building a record from a parameter dict keeps every value the dict
      gives and takes the defaults for the rest; a key that is not a field of
      the record is a `TypeError`. */
  lemma ParametersFromDict(defaults: map<string, Value>, d: Dict)
    requires defaults == FischerDefaults || defaults == ByoyomiDefaults
    ensures Kwargs(defaults, d).Ok? ==> forall f | f in Keys(d) :: Kwargs(defaults, d).value[f] == Lookup(d, f).value
    ensures Kwargs(defaults, d).Ok? ==> forall f | f in defaults && f !in Keys(d) :: Kwargs(defaults, d).value[f] == defaults[f]
    ensures Kwargs(defaults, d).Err? <==> exists f | f in Keys(d) :: f !in defaults
  {
  }

  /** `__post_init__` on parameters given as a dict: a missing
      `time_control` is a `KeyError` that changes nothing; `fischer` or
      `byoyomi` yields the matching record with `time_control` set to agree
      with it; any other name, and parameters that are not a dict, change
      nothing. */
  lemma PostInitDispatch(v: GameView)
    ensures var o := AfterPostInit(v);
      && (!(v.parameters.RawParams? && v.parameters.value.VDict?) ==> o == Outcome(v, None))
      && (v.parameters.RawParams? && v.parameters.value.VDict? ==>
            var d := v.parameters.value.entries;
            && (Lookup(d, "time_control").None? ==> o == Outcome(v, Some(KeyError(VStr("time_control")))))
            && (Lookup(d, "time_control").Some? ==>
                  var tc := Lookup(d, "time_control").value;
                  && (tc != VStr("fischer") && tc != VStr("byoyomi") ==> o == Outcome(v, None))
                  && (tc == VStr("fischer") ==>
                        && o.state.attrs == v.attrs["time_control" := tc]
                        && (o.raised.None? <==> Keys(d) <= FischerDefaults.Keys)
                        && (o.raised.None? ==> o.state.parameters.FischerParams? && Consistent(o.state)))
                  && (tc == VStr("byoyomi") ==>
                        && o.state.attrs == v.attrs["time_control" := tc]
                        && (o.raised.None? <==> Keys(d) <= ByoyomiDefaults.Keys)
                        && (o.raised.None? ==> o.state.parameters.ByoyomiParams? && Consistent(o.state)))))
  {
  }

  /** A record built from a dict keeps the dict's own `time_control`, which
      is the name it was dispatched on; so after `__post_init__` the record
      and the game agree on the time control twice over. */
  lemma PostInitRecordAgrees(v: GameView)
    requires AfterPostInit(v).raised.None?
    requires v.parameters.RawParams? && v.parameters.value.VDict?
    ensures var p := AfterPostInit(v).state.parameters;
      (p.FischerParams? || p.ByoyomiParams?) ==> p.fields["time_control"] == AfterPostInit(v).state.attrs["time_control"]
  {
    var d := v.parameters.value.entries;
    var p := AfterPostInit(v).state.parameters;
    if p.FischerParams? {
      ParametersFromDict(FischerDefaults, d);
    } else if p.ByoyomiParams? {
      ParametersFromDict(ByoyomiDefaults, d);
    }
  }

  /** `OGSGameData()` with no arguments: the default fields, `time_control`
      `byoyomi`, and the Byoyomi defaults as parameters. */
  lemma DefaultGame()
    ensures CreateGame([]) == Ok(GameView(GameDefaults, ByoyomiParams(ByoyomiDefaults)))
    ensures GameDefaults["time_control"] == VStr("byoyomi") && Consistent(GameView(GameDefaults, ByoyomiParams(ByoyomiDefaults)))
  {
    assert GameDefaults["time_control_parameters" := VNone] - {"time_control_parameters"} == GameDefaults;
  }

  /** `set_time_control(tc)` always stores `tc` and leaves the other fields
      alone; `fischer` and `byoyomi` reset the parameters to that variant's
      defaults, so the game is consistent afterwards, and any other value
      keeps the parameters it had. */
  lemma SetTimeControlEffect(v: GameView, tc: Value)
    ensures WithTimeControl(v, tc).attrs == v.attrs["time_control" := tc]
    ensures tc == VStr("fischer") ==> WithTimeControl(v, tc).parameters == FischerParams(FischerDefaults)
    ensures tc == VStr("byoyomi") ==> WithTimeControl(v, tc).parameters == ByoyomiParams(ByoyomiDefaults)
    ensures tc != VStr("fischer") && tc != VStr("byoyomi") ==> WithTimeControl(v, tc).parameters == v.parameters
    ensures tc == VStr("fischer") || tc == VStr("byoyomi") ==> Consistent(WithTimeControl(v, tc))
  {
  }

  /** Setting the same time control twice is setting it once. */
  lemma SetTimeControlIdempotent(v: GameView, tc: Value)
    ensures WithTimeControl(WithTimeControl(v, tc), tc) == WithTimeControl(v, tc)
  {
    assert WithTimeControl(v, tc).attrs["time_control" := tc] == WithTimeControl(v, tc).attrs;
  }

  /** The challenge's `OGSGameData`, whose two time-control fields
      `__post_init__` and `set_time_control` overwrite in place. */
  class ChallengeGame {
    var attrs: map<string, Value>
    var parameters: TimeControlParameters

    function View(): GameView
      reads this
    {
      GameView(attrs, parameters)
    }

    /** The field assignments of the generated `__init__`. */
    constructor (v: GameView)
      ensures View() == v
    {
      attrs := v.attrs;
      parameters := v.parameters;
    }

    method PostInit() returns (raised: Option<Exc>)
      modifies this
      ensures Outcome(View(), raised) == AfterPostInit(old(View()))
    {
      raised := None;
      if !(parameters.RawParams? && parameters.value.VDict?) {
        return;
      }
      var d := parameters.value.entries;
      var tc := Subscript(parameters.value, "time_control");
      if tc.Err? {
        raised := Some(tc.error);
        return;
      }
      if tc.value == VStr("fischer") {
        attrs := attrs["time_control" := VStr("fischer")];
        var p := Kwargs(FischerDefaults, d);
        if p.Err? {
          raised := Some(p.error);
          return;
        }
        parameters := FischerParams(p.value);
      } else if tc.value == VStr("byoyomi") {
        attrs := attrs["time_control" := VStr("byoyomi")];
        var p := Kwargs(ByoyomiDefaults, d);
        if p.Err? {
          raised := Some(p.error);
          return;
        }
        parameters := ByoyomiParams(p.value);
      }
    }

    method SetTimeControl(tc: Value)
      modifies this
      ensures View() == WithTimeControl(old(View()), tc)
    {
      attrs := attrs["time_control" := tc];
      if tc == VStr("fischer") {
        parameters := FischerParams(FischerDefaults);
      } else if tc == VStr("byoyomi") {
        parameters := ByoyomiParams(ByoyomiDefaults);
      }
    }
  }

  /** `OGSGameData(**kwargs)` as an object. */
  method NewChallengeGame(kwargs: Dict) returns (r: Result<ChallengeGame>)
    ensures r.Ok? <==> CreateGame(kwargs).Ok?
    ensures r.Ok? ==> fresh(r.value) && r.value.View() == CreateGame(kwargs).value
    ensures r.Err? ==> r.error == CreateGame(kwargs).error
  {
    var v := GameInit(kwargs);
    if v.Err? {
      return Err(v.error);
    }
    var g := new ChallengeGame(v.value);
    var raised := g.PostInit();
    if raised.Some? {
      return Err(raised.value);
    }
    return Ok(g);
  }

  /** What `OGSChallenge.game` holds: a converted game object, or the value
      it was given when that was not a dict. */
  datatype GameSlot = GameObject(game: ChallengeGame) | RawGame(value: Value)
  datatype GameSlotView = GameV(view: GameView) | RawGameV(value: Value)

  /** The value of an `OGSChallenge`. */
  datatype ChallengeView = ChallengeView(attrs: map<string, Value>, game: GameSlotView)

  /** `OGSChallenge.__init__(**kwargs)`, before `__post_init__`: `game`
      defaults to a fresh empty dict. */
  function ChallengeInit(kwargs: Dict): Result<ChallengeView>
  {
    var m :- Kwargs(ChallengeDefaults["game" := VDict([])], kwargs);
    Ok(ChallengeView(m - {"game"}, RawGameV(m["game"])))
  }

  /** `OGSChallenge.__post_init__`: a dict `game` becomes
      `OGSGameData(**game)`; anything else stays. */
  function ChallengePostInit(c: ChallengeView): Result<ChallengeView>
  {
    if c.game.RawGameV? && c.game.value.VDict? then
      var g :- CreateGame(c.game.value.entries);
      Ok(c.(game := GameV(g)))
    else Ok(c)
  }

  function CreateChallenge(kwargs: Dict): Result<ChallengeView>
  {
    var c :- ChallengeInit(kwargs);
    ChallengePostInit(c)
  }

  /** `OGSChallenge()` with no arguments: `not_sent`, ranks 7 to 18, the
      challenger plays white, and a default game. */
  lemma DefaultChallenge()
    ensures CreateChallenge([]) == Ok(ChallengeView(ChallengeDefaults, GameV(GameView(GameDefaults, ByoyomiParams(ByoyomiDefaults)))))
  {
    ChallengeInitEmpty();
    DefaultGame();
  }

  lemma ChallengeInitEmpty()
    ensures ChallengeInit([]) == Ok(ChallengeView(ChallengeDefaults, RawGameV(VDict([]))))
  {
    assert ChallengeDefaults["game" := VDict([])] - {"game"} == ChallengeDefaults;
  }

  /** A challenge is built when its keywords are fields and its game, if a
      dict, builds; a dict game is then held as the game built from it, and
      any other game value as it was given. */
  lemma ChallengeGameConverted(kwargs: Dict)
    ensures CreateChallenge(kwargs).Ok? <==>
      && Keys(kwargs) <= ChallengeDefaults.Keys + {"game"}
      && (match Lookup(kwargs, "game") case Some(VDict(d)) => CreateGame(d).Ok? case _ => true)
    ensures CreateChallenge(kwargs).Ok? ==>
      CreateChallenge(kwargs).value.game ==
        match Lookup(kwargs, "game")
        case None => GameV(GameView(GameDefaults, ByoyomiParams(ByoyomiDefaults)))
        case Some(VDict(d)) => GameV(CreateGame(d).value)
        case Some(other) => RawGameV(other)
  {
    ChallengeInitGame(kwargs);
    DefaultGame();
  }

  /** Before `__post_init__`, `game` holds the value given for it, or an
      empty dict. */
  lemma ChallengeInitGame(kwargs: Dict)
    ensures ChallengeInit(kwargs).Ok? <==> Keys(kwargs) <= ChallengeDefaults.Keys + {"game"}
    ensures ChallengeInit(kwargs).Ok? ==>
      ChallengeInit(kwargs).value.game == RawGameV(if "game" in Keys(kwargs) then Lookup(kwargs, "game").value else VDict([]))
  {
    var defaults := ChallengeDefaults["game" := VDict([])];
    assert defaults.Keys == ChallengeDefaults.Keys + {"game"};
    assert "game" in defaults && defaults["game"] == VDict([]);
  }

  class Challenge {
    var attrs: map<string, Value>
    var game: GameSlot

    ghost function View(): ChallengeView
      reads this, if game.GameObject? then {game.game} else {}
    {
      ChallengeView(attrs, match game case GameObject(g) => GameV(g.View()) case RawGame(x) => RawGameV(x))
    }

    /** The field assignments of the generated `__init__`. */
    constructor (v: ChallengeView)
      requires v.game.RawGameV?
      ensures View() == v
    {
      attrs := v.attrs;
      game := RawGame(v.game.value);
    }

    /** `__post_init__`: if building the game raises, `game` keeps the dict. */
    method PostInit() returns (raised: Option<Exc>)
      requires game.RawGame?
      modifies this
      ensures ChallengePostInit(old(View())).Ok? ==> raised.None? && View() == ChallengePostInit(old(View())).value
      ensures ChallengePostInit(old(View())).Err? ==> raised == Some(ChallengePostInit(old(View())).error) && View() == old(View())
    {
      raised := None;
      if game.value.VDict? {
        var g := NewChallengeGame(game.value.entries);
        if g.Err? {
          raised := Some(g.error);
          return;
        }
        game := GameObject(g.value);
      }
    }
  }

  /** `OGSChallenge(**kwargs)` as an object. */
  method NewChallenge(kwargs: Dict) returns (r: Result<Challenge>)
    ensures r.Ok? <==> CreateChallenge(kwargs).Ok?
    ensures r.Ok? ==> fresh(r.value) && r.value.View() == CreateChallenge(kwargs).value
    ensures r.Err? ==> r.error == CreateChallenge(kwargs).error
  {
    var v := ChallengeInit(kwargs);
    if v.Err? {
      return Err(v.error);
    }
    var c := new Challenge(v.value);
    var raised := c.PostInit();
    if raised.Some? {
      return Err(raised.value);
    }
    return Ok(c);
  }
}
