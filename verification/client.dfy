/** `OGSClient`: the parts of the client that do more than forward one REST
    call — the settings payload built field by field, the split of the
    user's challenges into received and sent ones, sending a challenge, and
    the user id the client keeps in its credentials. The REST responses are
    parameters; the requests are results. */
module Client {
  import opened PyValues

  /** One `call_rest_endpoint(method, endpoint, payload)`. */
  datatype Request = Request(verb: string, endpoint: string, payload: Value)

  // ---------------------------------------------------------------------
  // update_user_settings

  /** The arguments of `update_user_settings` under the payload key each one
      is sent as, in the order they are assigned. */
  function SettingsFields(username: Value, firstName: Value, lastName: Value, privateName: Value,
                          country: Value, website: Value, about: Value): Dict
  {
    [("username", username)] + [("first_name", firstName)] + [("last_name", lastName)] +
    [("real_name_is_private", privateName)] + [("country", country)] + [("website", website)] +
    [("about", about)]
  }

  /** The entries whose value is not `None`, in order. */
  function Given(fields: Dict): Dict
  {
    if fields == [] then []
    else
      var before := Given(fields[..|fields| - 1]);
      if fields[|fields| - 1].1 != VNone then before + [fields[|fields| - 1]] else before
  }

  /** Of a dict, `Given` keeps exactly the keys whose value is not `None`,
      with their values, and is itself a dict. */
  lemma {:induction false} GivenLookup(fields: Dict, k: string)
    requires IsDict(fields)
    ensures IsDict(Given(fields)) && Keys(Given(fields)) <= Keys(fields)
    ensures Lookup(Given(fields), k) ==
      if Lookup(fields, k).Some? && Lookup(fields, k).value != VNone then Lookup(fields, k) else None
  {
    if fields != [] {
      var init, last := fields[..|fields| - 1], fields[|fields| - 1];
      GivenLookup(init, k);
      assert fields == init + [last];
      LookupAppend(init, last, k);
      if last.1 != VNone {
        LookupAppend(Given(init), last, k);
      }
    }
  }

  /** One line of the payload construction, `if v is not None:
      payload[k] = v`, for a key not assigned before; `seen` holds the
      arguments considered so far and `keys` their payload keys. */
  method AssignIfGiven(payload: Dict, ghost seen: Dict, ghost keys: set<string>, k: string, v: Value) returns (p: Dict)
    requires payload == Given(seen) && Keys(seen) == keys && k !in keys
    ensures p == Given(seen + [(k, v)]) && Keys(seen + [(k, v)]) == keys + {k}
  {
    assert (seen + [(k, v)])[..|seen|] == seen;
    LookupAppend(seen, (k, v), k);
    p := payload;
    if v != VNone {
      assert k !in Keys(payload) by {
        if k in Keys(payload) {
          GivenKeys(seen, k);
        }
      }
      SetItemNew(payload, k, v);
      p := SetItem(payload, k, v);
    }
  }

  lemma {:induction false} GivenKeys(fields: Dict, k: string)
    requires k in Keys(Given(fields))
    ensures k in Keys(fields)
  {
    var init, last := fields[..|fields| - 1], fields[|fields| - 1];
    LookupAppend(init, last, k);
    assert fields == init + [last];
    if last.1 != VNone {
      LookupAppend(Given(init), last, k);
    }
    if k != last.0 {
      GivenKeys(init, k);
    }
  }

  /** `update_user_settings(...)`: each argument that is not `None` is
      assigned to the payload in turn, and the payload is sent with `PUT` to
      the user's own player resource. */
  method UpdateUserSettings(userId: Value, username: Value, firstName: Value, lastName: Value,
                            privateName: Value, country: Value, website: Value, about: Value)
    returns (req: Request)
    ensures req.verb == "PUT" && req.endpoint == "/players/" + Format(userId)
    ensures req.payload == VDict(Given(SettingsFields(username, firstName, lastName, privateName,
                                                      country, website, about)))
  {
    var payload: Dict := [];
    payload := AssignIfGiven(payload, [], {}, "username", username);
    ghost var seen: Dict := [("username", username)];
    payload := AssignIfGiven(payload, seen, {"username"}, "first_name", firstName);
    seen := seen + [("first_name", firstName)];
    payload := AssignIfGiven(payload, seen, {"username", "first_name"}, "last_name", lastName);
    seen := seen + [("last_name", lastName)];
    payload := AssignIfGiven(payload, seen, {"username", "first_name", "last_name"}, "real_name_is_private", privateName);
    seen := seen + [("real_name_is_private", privateName)];
    payload := AssignIfGiven(payload, seen, {"username", "first_name", "last_name", "real_name_is_private"}, "country", country);
    seen := seen + [("country", country)];
    payload := AssignIfGiven(payload, seen, {"username", "first_name", "last_name", "real_name_is_private", "country"}, "website", website);
    seen := seen + [("website", website)];
    payload := AssignIfGiven(payload, seen, {"username", "first_name", "last_name", "real_name_is_private", "country", "website"}, "about", about);
    seen := seen + [("about", about)];
    req := Request("PUT", "/players/" + Format(userId), VDict(payload));
  }

  /** The settings fields form a dict with the seven payload keys. */
  lemma SettingsFieldsDict(username: Value, firstName: Value, lastName: Value, privateName: Value,
                           country: Value, website: Value, about: Value)
    ensures var f := SettingsFields(username, firstName, lastName, privateName, country, website, about);
      && IsDict(f)
      && Keys(f) == {"username", "first_name", "last_name", "real_name_is_private", "country", "website", "about"}
      && Lookup(f, "username") == Some(username) && Lookup(f, "first_name") == Some(firstName)
      && Lookup(f, "last_name") == Some(lastName) && Lookup(f, "real_name_is_private") == Some(privateName)
      && Lookup(f, "country") == Some(country) && Lookup(f, "website") == Some(website)
      && Lookup(f, "about") == Some(about)
  {
    var f := SettingsFields(username, firstName, lastName, privateName, country, website, about);
    assert f == [("username", username), ("first_name", firstName), ("last_name", lastName),
                 ("real_name_is_private", privateName), ("country", country), ("website", website),
                 ("about", about)];
    DistinctKeys(f);
    assert f[0].0 == "username" && f[1].0 == "first_name" && f[2].0 == "last_name";
    assert f[3].0 == "real_name_is_private" && f[4].0 == "country" && f[5].0 == "website" && f[6].0 == "about";
    forall k | k in Keys(f)
      ensures k in {"username", "first_name", "last_name", "real_name_is_private", "country", "website", "about"}
    {
      KeyIndex(f, k);
    }
  }

  /** The settings payload is a dict that holds an argument under its key
      exactly when the argument is not `None`; `private_name` travels as
      `real_name_is_private`, and no other key is ever sent. */
  lemma SettingsPayload(username: Value, firstName: Value, lastName: Value, privateName: Value,
                        country: Value, website: Value, about: Value)
    ensures var p := Given(SettingsFields(username, firstName, lastName, privateName, country, website, about));
      && IsDict(p)
      && Keys(p) <= {"username", "first_name", "last_name", "real_name_is_private", "country", "website", "about"}
      && Lookup(p, "username") == (if username == VNone then None else Some(username))
      && Lookup(p, "first_name") == (if firstName == VNone then None else Some(firstName))
      && Lookup(p, "last_name") == (if lastName == VNone then None else Some(lastName))
      && Lookup(p, "real_name_is_private") == (if privateName == VNone then None else Some(privateName))
      && Lookup(p, "country") == (if country == VNone then None else Some(country))
      && Lookup(p, "website") == (if website == VNone then None else Some(website))
      && Lookup(p, "about") == (if about == VNone then None else Some(about))
  {
    var f := SettingsFields(username, firstName, lastName, privateName, country, website, about);
    SettingsFieldsDict(username, firstName, lastName, privateName, country, website, about);
    GivenLookup(f, "username");
    GivenLookup(f, "first_name");
    GivenLookup(f, "last_name");
    GivenLookup(f, "real_name_is_private");
    GivenLookup(f, "country");
    GivenLookup(f, "website");
    GivenLookup(f, "about");
  }

  lemma {:induction false} KeyIndex(d: Dict, k: string)
    requires k in Keys(d)
    ensures exists i :: 0 <= i < |d| && d[i].0 == k
  {
    var init := d[..|d| - 1];
    if d[|d| - 1].0 != k {
      KeyIndex(init, k);
      var i :| 0 <= i < |init| && init[i].0 == k;
      assert d[i].0 == k;
    }
  }

  // ---------------------------------------------------------------------
  // received_challenges / sent_challenges

  /** `challenge['challenger']['id']`. */
  function ChallengerId(c: Value): (r: Result<Value>)
    ensures r.Ok? <==> Subscript(c, "challenger").Ok? && Subscript(Subscript(c, "challenger").value, "id").Ok?
  {
    var challenger :- Subscript(c, "challenger");
    Subscript(challenger, "id")
  }

  /** The challenges, in order, whose challenger is (`mine`) or is not the
      user; the first challenge without a challenger id raises. */
  function Select(cs: seq<Value>, userId: Value, mine: bool): Result<seq<Value>>
  {
    if cs == [] then Ok([])
    else
      var before :- Select(cs[..|cs| - 1], userId, mine);
      var id :- ChallengerId(cs[|cs| - 1]);
      Ok(if PyEq(id, userId) == mine then before + [cs[|cs| - 1]] else before)
  }

  /** One more challenge: selection of the longer prefix in terms of the
      shorter one. */
  lemma SelectStep(cs: seq<Value>, userId: Value, mine: bool, i: nat)
    requires i < |cs|
    ensures Select(cs[..i + 1], userId, mine) ==
      (var before :- Select(cs[..i], userId, mine);
       var id :- ChallengerId(cs[i]);
       Ok(if PyEq(id, userId) == mine then before + [cs[i]] else before))
  {
    assert cs[..i + 1][..i] == cs[..i];
  }

  /** Once a prefix raises, so does the whole sequence, with the same error. */
  lemma {:induction false} SelectStops(cs: seq<Value>, userId: Value, mine: bool, i: nat)
    requires i <= |cs| && Select(cs[..i], userId, mine).Err?
    ensures Select(cs, userId, mine) == Select(cs[..i], userId, mine)
  {
    if i < |cs| {
      assert cs[..|cs| - 1][..i] == cs[..i];
      SelectStops(cs[..|cs| - 1], userId, mine, i);
    } else {
      assert cs[..i] == cs;
    }
  }

  /** Selection raises exactly when some challenge has no challenger id, and
      then with the error of the first such challenge. */
  lemma {:induction false} SelectRaises(cs: seq<Value>, userId: Value, mine: bool)
    ensures Select(cs, userId, mine).Ok? <==> forall i | 0 <= i < |cs| :: ChallengerId(cs[i]).Ok?
    ensures forall i | 0 <= i < |cs| && ChallengerId(cs[i]).Err? && (forall j | 0 <= j < i :: ChallengerId(cs[j]).Ok?) ::
      Select(cs, userId, mine) == Err(ChallengerId(cs[i]).error)
  {
    if cs != [] {
      var init, last := cs[..|cs| - 1], cs[|cs| - 1];
      SelectRaises(init, userId, mine);
      assert forall i | 0 <= i < |init| :: init[i] == cs[i];
      if Select(init, userId, mine).Ok? {
        assert Select(cs, userId, mine).Ok? <==> ChallengerId(last).Ok?;
      } else {
        assert Select(cs, userId, mine) == Select(init, userId, mine);
      }
    }
  }

  /** Received and sent challenges split the user's challenges: each
      challenge lands in exactly one of them, and together they hold every
      challenge as often as it occurs. */
  lemma {:induction false} SelectPartition(cs: seq<Value>, userId: Value)
    ensures Select(cs, userId, false).Ok? <==> Select(cs, userId, true).Ok?
    ensures Select(cs, userId, false).Ok? ==>
      multiset(Select(cs, userId, false).value) + multiset(Select(cs, userId, true).value) == multiset(cs)
    ensures Select(cs, userId, false).Ok? ==> forall x | x in cs ::
      (x in Select(cs, userId, false).value) != (x in Select(cs, userId, true).value)
  {
    SelectRaises(cs, userId, false);
    SelectRaises(cs, userId, true);
    if Select(cs, userId, false).Ok? {
      PartitionCounts(cs, userId);
      SelectMembers(cs, userId, false);
      SelectMembers(cs, userId, true);
    }
  }

  lemma {:induction false} PartitionCounts(cs: seq<Value>, userId: Value)
    requires Select(cs, userId, false).Ok? && Select(cs, userId, true).Ok?
    ensures multiset(Select(cs, userId, false).value) + multiset(Select(cs, userId, true).value) == multiset(cs)
  {
    if cs != [] {
      var init, last := cs[..|cs| - 1], cs[|cs| - 1];
      assert cs == init + [last];
      assert Select(init, userId, false).Ok? && Select(init, userId, true).Ok? && ChallengerId(last).Ok?;
      PartitionCounts(init, userId);
      var received, sent := Select(init, userId, false).value, Select(init, userId, true).value;
      var mine := PyEq(ChallengerId(last).value, userId);
      assert Select(cs, userId, false).value == if mine then received else received + [last];
      assert Select(cs, userId, true).value == if mine then sent + [last] else sent;
      MultisetSplitStep(received, sent, init, last, mine);
    }
  }

  lemma MultisetSplitStep(received: seq<Value>, sent: seq<Value>, all: seq<Value>, x: Value, toSent: bool)
    requires multiset(received) + multiset(sent) == multiset(all)
    ensures multiset(if toSent then received else received + [x]) + multiset(if toSent then sent + [x] else sent)
      == multiset(all + [x])
  {
  }

  /** A challenge is selected exactly when it is one of the user's
      challenges whose challenger matches (`mine`) or does not match the
      user. */
  lemma {:induction false} SelectMembers(cs: seq<Value>, userId: Value, mine: bool)
    requires Select(cs, userId, mine).Ok?
    ensures forall x | x in cs :: ChallengerId(x).Ok?
    ensures forall x :: x in Select(cs, userId, mine).value <==>
      x in cs && PyEq(ChallengerId(x).value, userId) == mine
  {
    if cs != [] {
      var init, last := cs[..|cs| - 1], cs[|cs| - 1];
      assert cs == init + [last];
      var before := Select(init, userId, mine);
      assert before.Ok?;
      SelectMembers(init, userId, mine);
      var id := ChallengerId(last);
      assert id.Ok?;
      var after := if PyEq(id.value, userId) == mine then before.value + [last] else before.value;
      assert Select(cs, userId, mine) == Ok(after);
      forall x ensures x in after <==> x in cs && PyEq(ChallengerId(x).value, userId) == mine {
        assert x in cs <==> x in init || x == last;
      }
    }
  }

  /** Selection keeps the original order: the result is the challenge at
      each matching position, positions ascending, and every matching
      position is taken. */
  lemma {:induction false} SelectPositions(cs: seq<Value>, userId: Value, mine: bool) returns (idx: seq<int>)
    requires Select(cs, userId, mine).Ok?
    ensures |idx| == |Select(cs, userId, mine).value|
    ensures forall k | 0 <= k < |idx| ::
      && 0 <= idx[k] < |cs| && cs[idx[k]] == Select(cs, userId, mine).value[k]
      && ChallengerId(cs[idx[k]]).Ok? && PyEq(ChallengerId(cs[idx[k]]).value, userId) == mine
    ensures forall k, l | 0 <= k < l < |idx| :: idx[k] < idx[l]
    ensures forall i | 0 <= i < |cs| && ChallengerId(cs[i]).Ok? && PyEq(ChallengerId(cs[i]).value, userId) == mine ::
      i in idx
  {
    if cs == [] {
      idx := [];
    } else {
      var init, last := cs[..|cs| - 1], cs[|cs| - 1];
      assert forall i | 0 <= i < |init| :: init[i] == cs[i];
      var before := Select(init, userId, mine);
      assert before.Ok?;
      var idx0 := SelectPositions(init, userId, mine);
      var id := ChallengerId(last);
      assert id.Ok?;
      if PyEq(id.value, userId) == mine {
        assert Select(cs, userId, mine).value == before.value + [last];
        idx := idx0 + [|cs| - 1];
      } else {
        assert Select(cs, userId, mine).value == before.value;
        idx := idx0;
      }
    }
  }

  /** When no challenge is the user's own, every challenge is received and
      none is sent. */
  lemma {:induction false} SelectNoneMine(cs: seq<Value>, userId: Value)
    requires forall i | 0 <= i < |cs| :: ChallengerId(cs[i]).Ok? && !PyEq(ChallengerId(cs[i]).value, userId)
    ensures Select(cs, userId, false) == Ok(cs)
    ensures Select(cs, userId, true) == Ok([])
  {
    if cs != [] {
      var init, last := cs[..|cs| - 1], cs[|cs| - 1];
      assert forall i | 0 <= i < |init| :: init[i] == cs[i];
      SelectNoneMine(init, userId);
      assert cs == init + [last];
      assert ChallengerId(last).Ok? && !PyEq(ChallengerId(last).value, userId);
    }
  }

  /** The `results` of a `/me/challenges` response, iterated. */
  function Results(response: Value): Result<seq<Value>>
  {
    var results :- Subscript(response, "results");
    Iterate(results)
  }

  /** `received_challenges()`, given the response to its `GET`: the
      challenges whose challenger id differs from the user id. */
  method ReceivedChallenges(userId: Value, response: Value) returns (req: Request, r: Result<seq<Value>>)
    ensures req == Request("GET", "/me/challenges/", VNone)
    ensures r == (var cs :- Results(response); Select(cs, userId, false))
  {
    req := Request("GET", "/me/challenges/", VNone);
    var all := Results(response);
    if all.Err? {
      return req, Err(all.error);
    }
    var cs := all.value;
    var received: seq<Value> := [];
    var i := 0;
    while i < |cs|
      invariant 0 <= i <= |cs|
      invariant Select(cs[..i], userId, false) == Ok(received)
    {
      SelectStep(cs, userId, false, i);
      var id := ChallengerId(cs[i]);
      if id.Err? {
        SelectStops(cs, userId, false, i + 1);
        return req, Err(id.error);
      }
      if !PyEq(id.value, userId) {
        received := received + [cs[i]];
      }
      i := i + 1;
    }
    assert cs[..i] == cs;
    r := Ok(received);
  }

  /** `sent_challenges()`, given the response to its `GET`: the challenges
      whose challenger id equals the user id. */
  method SentChallenges(userId: Value, response: Value) returns (req: Request, r: Result<seq<Value>>)
    ensures req == Request("GET", "/me/challenges", VNone)
    ensures r == (var cs :- Results(response); Select(cs, userId, true))
  {
    req := Request("GET", "/me/challenges", VNone);
    var all := Results(response);
    if all.Err? {
      return req, Err(all.error);
    }
    var cs := all.value;
    var sent: seq<Value> := [];
    var i := 0;
    while i < |cs|
      invariant 0 <= i <= |cs|
      invariant Select(cs[..i], userId, true) == Ok(sent)
    {
      SelectStep(cs, userId, true, i);
      var id := ChallengerId(cs[i]);
      if id.Err? {
        SelectStops(cs, userId, true, i + 1);
        return req, Err(id.error);
      }
      if PyEq(id.value, userId) {
        sent := sent + [cs[i]];
      }
      i := i + 1;
    }
    assert cs[..i] == cs;
    r := Ok(sent);
  }

  // ---------------------------------------------------------------------
  // send_created_challenge

  /** `{'challenge_id': response['challenge'], 'game_id': response['game']}`. */
  function ChallengeDetails(response: Value): (r: Result<Value>)
    ensures r.Ok? <==> response.VDict? && "challenge" in Keys(response.entries) && "game" in Keys(response.entries)
    ensures r.Ok? ==>
      && r.value.VDict? && IsDict(r.value.entries)
      && Keys(r.value.entries) == {"challenge_id", "game_id"}
      && Lookup(r.value.entries, "challenge_id") == Lookup(response.entries, "challenge")
      && Lookup(r.value.entries, "game_id") == Lookup(response.entries, "game")
    ensures r.Err? && !response.VDict? ==> r.error == TypeError
    ensures r.Err? && response.VDict? && "challenge" !in Keys(response.entries) ==>
      r.error == KeyError(VStr("challenge"))
    ensures r.Err? && response.VDict? && "challenge" in Keys(response.entries) ==>
      r.error == KeyError(VStr("game"))
  {
    var challengeId :- Subscript(response, "challenge");
    var gameId :- Subscript(response, "game");
    var d := [("challenge_id", challengeId), ("game_id", gameId)];
    DistinctKeys(d);
    LookupAppend([("challenge_id", challengeId)], ("game_id", gameId), "challenge_id");
    LookupAppend([], ("challenge_id", challengeId), "challenge_id");
    assert d == [("challenge_id", challengeId)] + [("game_id", gameId)];
    Ok(VDict(d))
  }

  /** `send_created_challenge(challenge, player_username)`. `payload` is
      `asdict(challenge)`; `player` is `None` without a username and otherwise
      the `get_player(player_username)` response; `response` is the answer to
      the `POST`. A player without an `id` raises before anything is sent. */
  method SendCreatedChallenge(payload: Value, player: Option<Value>, response: Value)
    returns (sent: Option<Request>, r: Result<Value>)
    ensures player.Some? && Subscript(player.value, "id").Err? ==>
      sent == None && r == Err(Subscript(player.value, "id").error)
    ensures player.Some? && Subscript(player.value, "id").Ok? ==>
      sent == Some(Request("POST", "/players/" + Format(Subscript(player.value, "id").value) + "/challenge/", payload))
    ensures player.None? ==> sent == Some(Request("POST", "/challenges/", payload))
    ensures sent.Some? ==> r == ChallengeDetails(response)
  {
    var endpoint: string;
    if player.Some? {
      var playerId := Subscript(player.value, "id");
      if playerId.Err? {
        return None, Err(playerId.error);
      }
      endpoint := "/players/" + Format(playerId.value) + "/challenge/";
    } else {
      endpoint := "/challenges/";
    }
    sent := Some(Request("POST", endpoint, payload));
    r := ChallengeDetails(response);
  }

  // ---------------------------------------------------------------------
  // The user id kept in the credentials

  /** As written, the client stores the whole `/me` response `vitals` as its
      user id. With that dict as user id, no challenge whose challenger id
      is a number is ever the user's: all of them count as received and none
      as sent, including the user's own. */
  lemma {:induction false} AsWrittenSentIsEmpty(vitals: Value, cs: seq<Value>)
    requires vitals.VDict?
    requires forall i | 0 <= i < |cs| :: ChallengerId(cs[i]).Ok? && Numeric(ChallengerId(cs[i]).value).Ok?
    ensures Select(cs, vitals, true) == Ok([])
    ensures Select(cs, vitals, false) == Ok(cs)
  {
    forall i | 0 <= i < |cs| ensures !PyEq(ChallengerId(cs[i]).value, vitals) {
    }
    SelectNoneMine(cs, vitals);
  }

  /** User 7 sent one challenge: as written it is reported as received and
      not as sent; with the id taken from `/me` it is sent and not received. */
  lemma OwnChallengeExample()
    ensures var vitals := VDict([("id", VInt(7)), ("username", VStr("me"))]);
      var c := VDict([("challenger", VDict([("id", VInt(7))]))]);
      && Select([c], vitals, true) == Ok([])
      && Select([c], vitals, false) == Ok([c])
      && UserIdFromVitals(vitals) == Ok(VInt(7))
      && Select([c], UserIdFromVitals(vitals).value, true) == Ok([c])
      && Select([c], UserIdFromVitals(vitals).value, false) == Ok([])
  {
    var vitals := VDict([("id", VInt(7)), ("username", VStr("me"))]);
    var c := VDict([("challenger", VDict([("id", VInt(7))]))]);
    assert [c][..0] == [];
    DistinctKeys(vitals.entries);
    assert vitals.entries[0].0 == "id";
    assert Subscript(c, "challenger") == Ok(VDict([("id", VInt(7))]));
    assert ChallengerId(c) == Ok(VInt(7));
    assert !PyEq(VInt(7), vitals) && PyEq(VInt(7), VInt(7));
    assert Select([c][..0], vitals, false) == Ok([]);
    assert [] + [c] == [c];
  }

  /** The user id as intended: the `id` field of the `/me` response. */
  function UserIdFromVitals(vitals: Value): (r: Result<Value>)
    ensures r.Ok? <==> vitals.VDict? && "id" in Keys(vitals.entries)
    ensures r.Ok? ==> Lookup(vitals.entries, "id") == Some(r.value)
  {
    Subscript(vitals, "id")
  }

  /** With the user id taken from `/me`, every challenge whose challenger id
      equals the user's is sent and not received. */
  lemma OwnChallengesAreSent(vitals: Value, cs: seq<Value>)
    requires UserIdFromVitals(vitals).Ok?
    requires forall i | 0 <= i < |cs| :: ChallengerId(cs[i]).Ok?
    ensures Select(cs, UserIdFromVitals(vitals).value, true).Ok?
    ensures Select(cs, UserIdFromVitals(vitals).value, false).Ok?
    ensures forall x | x in cs && PyEq(ChallengerId(x).value, Lookup(vitals.entries, "id").value) ::
      x in Select(cs, UserIdFromVitals(vitals).value, true).value &&
      x !in Select(cs, UserIdFromVitals(vitals).value, false).value
  {
    var u := UserIdFromVitals(vitals).value;
    SelectRaises(cs, u, true);
    SelectRaises(cs, u, false);
    SelectMembers(cs, u, true);
    SelectMembers(cs, u, false);
  }
}
