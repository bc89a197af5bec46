/** The game clock mirror: `ByoyomiTime`, `FischerTime` and `OGSGameClock`.
    The clock keeps each player's time as whatever value the server sent: the
    first `white_time`/`black_time` is stored as it is, later ones are merged
    into it with `dict.update`. */
module GameClock {
  import opened PyValues

  const ByoyomiFields: set<string> := {"thinking_time", "periods", "period_time"}

  const FischerFields: set<string> := {"thinking_time", "skip_bonus"}

  const ClockFields: set<string> :=
    {"system", "current_player", "last_move", "expiration", "received",
     "latency_when_received", "white_time", "black_time"}

  class ByoyomiTime {
    var attrs: map<string, Value>

    ghost predicate Valid()
      reads this
    {
      attrs.Keys == ByoyomiFields
    }

    constructor ()
      ensures Valid() && attrs == NoneAttrs(ByoyomiFields)
    {
      attrs := NoneAttrs(ByoyomiFields);
    }

    /** `ByoyomiTime.update`: declared fields named in `newValues` are overwritten. */
    method Update(newValues: Dict)
      requires Valid()
      modifies this
      ensures Valid()
      ensures attrs == SetAttrs(old(attrs), newValues)
    {
      var i := 0;
      while i < |newValues|
        invariant 0 <= i <= |newValues|
        invariant attrs == SetAttrs(old(attrs), newValues[..i])
      {
        var (key, value) := newValues[i];
        if key in attrs {
          attrs := attrs[key := value];
        }
        assert newValues[..i + 1][..i] == newValues[..i];
        i := i + 1;
      }
      assert newValues[..i] == newValues;
    }
  }

  class FischerTime {
    var attrs: map<string, Value>

    ghost predicate Valid()
      reads this
    {
      attrs.Keys == FischerFields
    }

    constructor ()
      ensures Valid() && attrs == NoneAttrs(FischerFields)
    {
      attrs := NoneAttrs(FischerFields);
    }

    /** `FischerTime.update`: declared fields named in `newValues` are overwritten. */
    method Update(newValues: Dict)
      requires Valid()
      modifies this
      ensures Valid()
      ensures attrs == SetAttrs(old(attrs), newValues)
    {
      var i := 0;
      while i < |newValues|
        invariant 0 <= i <= |newValues|
        invariant attrs == SetAttrs(old(attrs), newValues[..i])
      {
        var (key, value) := newValues[i];
        if key in attrs {
          attrs := attrs[key := value];
        }
        assert newValues[..i + 1][..i] == newValues[..i];
        i := i + 1;
      }
      assert newValues[..i] == newValues;
    }
  }

  /** Whether `key` names a player's time that is already stored. */
  predicate HoldsTime(a: map<string, Value>, key: string)
  {
    (key == "white_time" || key == "black_time") && key in a && a[key] != VNone
  }

  /** One iteration of the loop in `OGSGameClock.update`. A stored time is
      merged into with `stored.update(value)`: a stored value without an
      `update` method raises `AttributeError`; a stored dict takes what
      `dict.update` makes of the argument, including the pairs assigned before
      a bad element. */
  function StepClock(a: map<string, Value>, e: Entry): Outcome<map<string, Value>>
  {
    var (key, value) := e;
    if HoldsTime(a, key) then
      if !a[key].VDict? then Outcome(a, Some(AttributeError))
      else
        var m := DictUpdateWith(a[key].entries, value);
        Outcome(a[key := VDict(m.state)], m.raised)
    else if key in a then Outcome(a[key := value], None)
    else Outcome(a, None)
  }

  /** The loop of `OGSGameClock.update`. */
  function UpdateClock(a: map<string, Value>, newValues: Dict): Outcome<map<string, Value>>
  {
    Fold(StepClock, a, newValues)
  }

  /** What the loop variable of `set_timecontrol` holds. */
  datatype TimeSlot = Byoyomi(b: ByoyomiTime) | Fischer(f: FischerTime) | Stored(value: Value)

  class Clock {
    var attrs: map<string, Value>

    ghost predicate Valid()
      reads this
    {
      attrs.Keys == ClockFields
    }

    /** `OGSGameClock()`: every field `None`, then `__post_init__`. */
    constructor ()
      ensures Valid()
      ensures attrs == NoneAttrs(ClockFields)
    {
      attrs := NoneAttrs(ClockFields);
      new;
      SetTimeControl();
    }

    /** `OGSGameClock.update(newValues)`: returns the exception that stopped
        the loop, if any. */
    method Update(newValues: Dict) returns (raised: Option<Exc>)
      requires Valid()
      modifies this
      ensures Valid()
      ensures Outcome(attrs, raised) == UpdateClock(old(attrs), newValues)
    {
      raised := None;
      var i := 0;
      while i < |newValues| && raised.None?
        invariant 0 <= i <= |newValues|
        invariant Valid()
        invariant Outcome(attrs, raised) == Fold(StepClock, old(attrs), newValues[..i])
      {
        FoldPrefix(StepClock, old(attrs), newValues, i);
        var (key, value) := newValues[i];
        if (key == "white_time" || key == "black_time") && attrs[key] != VNone {
          var stored := attrs[key];
          if !stored.VDict? {
            raised := Some(AttributeError);
          } else {
            var m := DictUpdateWith(stored.entries, value);
            attrs := attrs[key := VDict(m.state)];
            raised := m.raised;
          }
        } else if key in attrs {
          attrs := attrs[key := value];
        }
        i := i + 1;
      }
      if raised.Some? {
        FoldStops(StepClock, old(attrs), newValues, i);
        return;
      }
      assert newValues[..i] == newValues;
      SetTimeControl();
    }

    /** `OGSGameClock.set_timecontrol`. Each branch assigns the loop variable
        only (the test `player is not ByoyomiTime` compares an instance with
        the class itself and always holds), so no field of the clock changes. */
    method SetTimeControl()
      requires Valid()
      ensures attrs == old(attrs)
    {
      var players := [attrs["white_time"], attrs["black_time"]];
      for i := 0 to |players| {
        var player := Stored(players[i]);
        if attrs["system"] == VStr("byoyomi") {
          var b := new ByoyomiTime();
          player := Byoyomi(b);
        } else if attrs["system"] == VStr("fischer") {
          var f := new FischerTime();
          player := Fischer(f);
        } else {
          player := Stored(VNone);
        }
      }
    }
  }

  /** Keys of the clock are never added or removed, and a key the frame does
      not name keeps its value, even when the update stops with an exception.
      In particular the frame's `now` is ignored, and `received` and
      `latency_when_received` are not stamped. */
  lemma {:induction false} UpdateKeepsUnnamed(a: map<string, Value>, newValues: Dict)
    ensures UpdateClock(a, newValues).state.Keys == a.Keys
    ensures forall k | k in a && k !in Keys(newValues) :: UpdateClock(a, newValues).state[k] == a[k]
  {
    if newValues != [] {
      UpdateKeepsUnnamed(a, newValues[..|newValues| - 1]);
    }
  }

  /** A field other than the two times is overwritten with the frame's value
      when the frame names it, and kept otherwise. */
  lemma {:induction false} UpdateScalarField(a: map<string, Value>, newValues: Dict, k: string)
    requires k in a && k != "white_time" && k != "black_time"
    requires UpdateClock(a, newValues).raised.None?
    ensures k in UpdateClock(a, newValues).state
    ensures UpdateClock(a, newValues).state[k] ==
      match Lookup(newValues, k) case Some(x) => x case None => a[k]
  {
    UpdateKeepsUnnamed(a, newValues);
    if newValues != [] {
      UpdateScalarField(a, newValues[..|newValues| - 1], k);
    }
  }

  /** A player's time: stored as sent when the clock held `None`, merged into
      the stored dict otherwise, the frame's keys winning. */
  lemma {:induction false} UpdateStoresTime(a: map<string, Value>, newValues: Dict, side: string, x: Value)
    requires side == "white_time" || side == "black_time"
    requires side in a
    requires IsDict(newValues)
    requires Lookup(newValues, side) == Some(x)
    requires UpdateClock(a, newValues).raised.None?
    ensures side in UpdateClock(a, newValues).state
    ensures a[side] == VNone ==> UpdateClock(a, newValues).state[side] == x
    ensures a[side] != VNone ==>
      (a[side].VDict? && DictUpdateWith(a[side].entries, x).raised.None? &&
       UpdateClock(a, newValues).state[side] == VDict(DictUpdateWith(a[side].entries, x).state))
  {
    var init, last := newValues[..|newValues| - 1], newValues[|newValues| - 1];
    UpdateKeepsUnnamed(a, newValues);
    if last.0 == side {
      UpdateKeepsUnnamed(a, init);
    } else {
      UpdateStoresTime(a, init, side, x);
    }
  }

  /** The entries a repeated update leaves alone: player times that are `None`
      or real dicts. */
  predicate Repeatable(e: Entry)
  {
    (e.0 == "white_time" || e.0 == "black_time") ==>
      e.1 == VNone || (e.1.VDict? && IsDict(e.1.entries))
  }

  lemma StepClockRepeatable()
    ensures SelfAbsorbing(StepClock, Repeatable)
    ensures KeyLocal(StepClock, Repeatable)
  {
    forall t: map<string, Value>, e: Entry | Repeatable(e) && StepClock(t, e).raised.None?
      ensures Absorbs(StepClock, StepClock(t, e).state, e)
    {
      var (key, value) := e;
      var t' := StepClock(t, e).state;
      if HoldsTime(t, key) {
        DictUpdateIdempotent(t[key].entries, value.entries);
        assert t'[key := t'[key]] == t';
      } else if key in t {
        if HoldsTime(t', key) {
          DictUpdateAbsorbed(value.entries, value.entries);
        }
        assert t'[key := value] == t';
      }
    }
    forall t: map<string, Value>, e: Entry, e2: Entry | Repeatable(e) && Repeatable(e2) && e.0 != e2.0 &&
      Absorbs(StepClock, t, e) && StepClock(t, e2).raised.None?
      ensures Absorbs(StepClock, StepClock(t, e2).state, e)
    {
      var t' := StepClock(t, e2).state;
      assert t'.Keys == t.Keys;
      if e.0 in t {
        assert t'[e.0] == t[e.0];
        assert HoldsTime(t', e.0) == HoldsTime(t, e.0);
        if HoldsTime(t, e.0) {
          assert t[e.0 := t[e.0]] == t;
          assert t'[e.0 := t'[e.0]] == t';
        } else {
          assert t[e.0] == e.1;
          assert t'[e.0 := e.1] == t';
        }
      }
    }
  }

  /** `OGSGameClock.update` applied twice with the same frame leaves the state
      the first application left, provided each player time in the frame is
      `None` or a dict. */
  lemma UpdateIdempotent(a: map<string, Value>, newValues: Dict)
    requires IsDict(newValues)
    requires forall e | e in newValues :: Repeatable(e)
    requires UpdateClock(a, newValues).raised.None?
    ensures UpdateClock(UpdateClock(a, newValues).state, newValues) == UpdateClock(a, newValues)
  {
    StepClockRepeatable();
    FoldIdempotent(StepClock, Repeatable, a, newValues);
  }

  /** Without that proviso it fails: a scalar time is stored by the first
      update, and the second one calls `update` on it. */
  lemma ScalarTimeNotIdempotent()
    ensures var once := UpdateClock(NoneAttrs(ClockFields), [("white_time", VInt(30))]);
      once.raised.None? &&
      UpdateClock(once.state, [("white_time", VInt(30))]) == Outcome(once.state, Some(AttributeError))
  {
    var a := NoneAttrs(ClockFields);
    assert [("white_time", VInt(30))][..0] == [];
  }

  /** A byoyomi clock: a full time followed by a frame carrying only the new
      period count keeps the main time and the period length. */
  lemma ByoyomiPeriodUpdate()
    ensures var full := VDict([("thinking_time", VInt(300)), ("periods", VInt(5)), ("period_time", VInt(30))]);
      var a1 := UpdateClock(NoneAttrs(ClockFields), [("system", VStr("byoyomi")), ("white_time", full)]);
      var a2 := UpdateClock(a1.state, [("white_time", VDict([("periods", VInt(4))]))]);
      && a1.raised.None? && a2.raised.None?
      && "white_time" in a2.state && "system" in a2.state && a2.state["white_time"].VDict?
      && Lookup(a2.state["white_time"].entries, "thinking_time") == Some(VInt(300))
      && Lookup(a2.state["white_time"].entries, "periods") == Some(VInt(4))
      && Lookup(a2.state["white_time"].entries, "period_time") == Some(VInt(30))
      && a2.state["system"] == VStr("byoyomi")
  {
    var full := VDict([("thinking_time", VInt(300)), ("periods", VInt(5)), ("period_time", VInt(30))]);
    var f1 := [("system", VStr("byoyomi")), ("white_time", full)];
    var f2 := [("white_time", VDict([("periods", VInt(4))]))];
    var a0 := NoneAttrs(ClockFields);
    var s1 := a0["system" := VStr("byoyomi")];
    var s2 := s1["white_time" := full];
    assert a0["white_time"] == VNone;
    FoldPrefix(StepClock, a0, f1, 0);
    assert f1[..0] == [];
    assert Fold(StepClock, a0, f1[..1]) == Outcome(s1, None);
    FoldPrefix(StepClock, a0, f1, 1);
    assert f1[..2] == f1;
    assert UpdateClock(a0, f1) == Outcome(s2, None);
    FoldPrefix(StepClock, s2, f2, 0);
    assert f2[..0] == [] && f2[..1] == f2;
    DictUpdateLookup(full.entries, f2[0].1.entries, "thinking_time");
    DictUpdateLookup(full.entries, f2[0].1.entries, "periods");
    DictUpdateLookup(full.entries, f2[0].1.entries, "period_time");
  }

  /** A stored time also takes a list of pairs: an empty list changes
      nothing, `[["periods", 4]]` sets the period count, and a string whose
      characters are not pairs raises `ValueError`. */
  lemma PairSequenceTimeUpdate(t: Dict)
    ensures var a := NoneAttrs(ClockFields)["white_time" := VDict(t)];
      && UpdateClock(a, [("white_time", VList([]))]) == Outcome(a, None)
      && UpdateClock(a, [("white_time", VList([VList([VStr("periods"), VInt(4)])]))]) ==
         Outcome(a["white_time" := VDict(DictUpdate(t, [("periods", VInt(4))]))], None)
      && UpdateClock(a, [("white_time", VStr("ab"))]) == Outcome(a, Some(ValueError))
  {
    var a := NoneAttrs(ClockFields)["white_time" := VDict(t)];
    var f1 := [("white_time", VList([]))];
    var f2 := [("white_time", VList([VList([VStr("periods"), VInt(4)])]))];
    var f3 := [("white_time", VStr("ab"))];
    assert f1[..0] == [] && f2[..0] == [] && f3[..0] == [];
    assert a["white_time" := VDict(t)] == a;
    DictUpdateWithEmpty(t, VList([]));
    var ps := [("periods", VInt(4))];
    assert VList(seq(|ps|, i requires 0 <= i < |ps| => VList([VStr(ps[i].0), ps[i].1]))) == f2[0].1;
    DictUpdateWithPairList(t, ps);
    DictUpdateWithString(t, "ab");
  }
}
