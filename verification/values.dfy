/** Python values as the client receives them from the server, Python dicts,
    and the two merge operations the client is built from: `setattr` over the
    declared fields of a dataclass, and the built-in `dict.update`. */
module PyValues {

  datatype Option<T> = None | Some(value: T)

  /** A JSON-like Python value. */
  datatype Value =
    | VNone
    | VBool(b: bool)
    | VInt(i: int)
    | VReal(r: real)
    | VStr(s: string)
    | VList(items: seq<Value>)
    | VDict(entries: seq<(string, Value)>)

  /** A Python dict with string keys, in insertion order. */
  type Dict = seq<(string, Value)>
  type Entry = (string, Value)

  /** The exceptions the modelled code can raise. */
  datatype Exc = KeyError(key: Value) | TypeError | ValueError | AttributeError

  datatype Result<T> = Ok(value: T) | Err(error: Exc) {
    predicate IsFailure() { Err? }
    function PropagateFailure<U>(): Result<U> requires Err? { Err(error) }
    function Extract(): T requires Ok? { value }
  }

  /** The state reached by a loop that may stop at a `raise`: what was written
      before the exception stays written. */
  datatype Outcome<S> = Outcome(state: S, raised: Option<Exc>)

  function Keys(d: Dict): set<string>
  {
    if d == [] then {} else Keys(d[..|d| - 1]) + {d[|d| - 1].0}
  }

  /** The keys of a Python dict are distinct. */
  predicate IsDict(d: Dict)
  {
    d == [] || (IsDict(d[..|d| - 1]) && d[|d| - 1].0 !in Keys(d[..|d| - 1]))
  }

  /** `d[k]` when present. For a dict, whose keys are distinct, this is the
      entry for `k`; for any sequence of pairs it is the last one, which is also
      what a run of assignments in that order leaves behind. */
  function Lookup(d: Dict, k: string): (r: Option<Value>)
    ensures r.Some? <==> k in Keys(d)
  {
    if d == [] then None
    else if d[|d| - 1].0 == k then Some(d[|d| - 1].1)
    else Lookup(d[..|d| - 1], k)
  }

  lemma LookupAppend(d: Dict, e: Entry, k: string)
    ensures Lookup(d + [e], k) == if e.0 == k then Some(e.1) else Lookup(d, k)
    ensures Keys(d + [e]) == Keys(d) + {e.0}
  {
    assert (d + [e])[..|d|] == d;
  }

  lemma {:induction false} EntryKeyIn(d: Dict, e: Entry)
    requires e in d
    ensures e.0 in Keys(d)
  {
    if d[|d| - 1] != e {
      assert e in d[..|d| - 1] by {
        var i :| 0 <= i < |d| && d[i] == e;
        assert d[..|d| - 1][i] == e;
      }
      EntryKeyIn(d[..|d| - 1], e);
    }
  }

  /** A key no entry carries is not a key of the dict. */
  lemma {:induction false} KeyAbsent(d: Dict, k: string)
    requires forall i | 0 <= i < |d| :: d[i].0 != k
    ensures k !in Keys(d)
  {
    if d != [] {
      var init := d[..|d| - 1];
      assert forall i | 0 <= i < |init| :: init[i] == d[i];
      KeyAbsent(init, k);
    }
  }

  /** Entries with pairwise distinct keys form a dict, and each key maps to
      the value beside it. */
  lemma {:induction false} DistinctKeys(d: Dict)
    requires forall i, j | 0 <= i < j < |d| :: d[i].0 != d[j].0
    ensures IsDict(d)
    ensures forall i | 0 <= i < |d| :: Lookup(d, d[i].0) == Some(d[i].1)
  {
    if d != [] {
      var init := d[..|d| - 1];
      assert forall i | 0 <= i < |init| :: init[i] == d[i];
      DistinctKeys(init);
      KeyAbsent(init, d[|d| - 1].0);
    }
  }

  /** Python `v[k]` for a string key `k`. */
  function Subscript(v: Value, k: string): (r: Result<Value>)
    ensures r.Ok? <==> v.VDict? && k in Keys(v.entries)
    ensures r.Ok? ==> Some(r.value) == Lookup(v.entries, k)
    ensures r.Err? && v.VDict? ==> r.error == KeyError(VStr(k))
    ensures r.Err? && !v.VDict? ==> r.error == TypeError
  {
    if !v.VDict? then Err(TypeError)
    else match Lookup(v.entries, k)
      case Some(x) => Ok(x)
      case None => Err(KeyError(VStr(k)))
  }

  /** Python `d[k] = v`: an existing key keeps its position, a new key is
      appended. */
  function SetItem(d: Dict, k: string, v: Value): (r: Dict)
    ensures |r| == if k in Keys(d) then |d| else |d| + 1
  {
    if k !in Keys(d) then d + [(k, v)]
    else if d[|d| - 1].0 == k then d[..|d| - 1] + [(k, v)]
    else SetItem(d[..|d| - 1], k, v) + [d[|d| - 1]]
  }

  lemma {:induction false} SetItemLookup(d: Dict, k: string, v: Value, k': string)
    ensures Lookup(SetItem(d, k, v), k') == if k' == k then Some(v) else Lookup(d, k')
    ensures Keys(SetItem(d, k, v)) == Keys(d) + {k}
  {
    if k !in Keys(d) {
      LookupAppend(d, (k, v), k');
    } else {
      var init, last := d[..|d| - 1], d[|d| - 1];
      assert d == init + [last];
      LookupAppend(init, last, k');
      if last.0 == k {
        LookupAppend(init, (k, v), k');
      } else {
        SetItemLookup(init, k, v, k');
        LookupAppend(SetItem(init, k, v), last, k');
      }
    }
  }

  /** Assigning a key the dict does not have appends one entry. */
  lemma SetItemNew(d: Dict, k: string, v: Value)
    requires k !in Keys(d)
    ensures SetItem(d, k, v) == d + [(k, v)]
  {
  }

  /** Writing the value a key already holds leaves the dict as it was. */
  lemma {:induction false} SetItemSame(d: Dict, k: string, v: Value)
    requires Lookup(d, k) == Some(v)
    ensures SetItem(d, k, v) == d
  {
    if d[|d| - 1].0 != k {
      SetItemSame(d[..|d| - 1], k, v);
    }
  }

  /** The built-in `d.update(u)`: the entries of `u` are assigned in order. */
  function DictUpdate(d: Dict, u: Dict): Dict
  {
    if u == [] then d
    else SetItem(DictUpdate(d, u[..|u| - 1]), u[|u| - 1].0, u[|u| - 1].1)
  }

  /** After `d.update(u)` a key holds its value from `u` when `u` has it, and
      its value from `d` otherwise. */
  lemma {:induction false} DictUpdateLookup(d: Dict, u: Dict, k: string)
    ensures Lookup(DictUpdate(d, u), k) == if k in Keys(u) then Lookup(u, k) else Lookup(d, k)
    ensures Keys(DictUpdate(d, u)) == Keys(d) + Keys(u)
  {
    if u != [] {
      var init, last := u[..|u| - 1], u[|u| - 1];
      DictUpdateLookup(d, init, k);
      SetItemLookup(DictUpdate(d, init), last.0, last.1, k);
    }
  }

  /** A dict that already agrees with `u` on every key of `u` is left as it is
      by `update(u)`, positions included. */
  lemma {:induction false} DictUpdateAbsorbed(d: Dict, u: Dict)
    requires IsDict(u)
    requires forall k :: k in Keys(u) ==> Lookup(d, k) == Lookup(u, k)
    ensures DictUpdate(d, u) == d
  {
    if u != [] {
      var init, last := u[..|u| - 1], u[|u| - 1];
      forall k | k in Keys(init) ensures Lookup(d, k) == Lookup(init, k) {
        assert k != last.0;
      }
      DictUpdateAbsorbed(d, init);
      SetItemSame(d, last.0, last.1);
    }
  }

  /** `d.update(u); d.update(u)` has the effect of one `d.update(u)`. */
  lemma DictUpdateIdempotent(d: Dict, u: Dict)
    requires IsDict(u)
    ensures DictUpdate(DictUpdate(d, u), u) == DictUpdate(d, u)
  {
    forall k | k in Keys(u) ensures Lookup(DictUpdate(d, u), k) == Lookup(u, k) {
      DictUpdateLookup(d, u, k);
    }
    DictUpdateAbsorbed(DictUpdate(d, u), u);
  }

  /** Python `for x in v`: a list yields its items, a string its characters
      and a dict its keys; other values are not iterable. */
  function Iterate(v: Value): (r: Result<seq<Value>>)
    ensures r.Ok? <==> v.VList? || v.VStr? || v.VDict?
    ensures v.VList? ==> r == Ok(v.items)
    ensures v.VStr? ==> r.Ok? && |r.value| == |v.s|
    ensures v.VDict? ==> r.Ok? && |r.value| == |v.entries|
    ensures r.Err? ==> r.error == TypeError
  {
    match v
    case VList(items) => Ok(items)
    case VStr(s) => Ok(seq(|s|, i requires 0 <= i < |s| => VStr([s[i]])))
    case VDict(d) => Ok(seq(|d|, i requires 0 <= i < |d| => VStr(d[i].0)))
    case _ => Err(TypeError)
  }

  /** One element of a non-dict argument of `d.update(x)`: it must iterate to
      exactly two items, key first. A key that is a list or a dict is not
      hashable; a number, `bool` or `None` key is hashable in Python but these
      dicts have string keys only, so it is refused here as well. */
  function UpdatePair(x: Value): (r: Result<Entry>)
    ensures r.Ok? <==> Iterate(x).Ok? && |Iterate(x).value| == 2 && Iterate(x).value[0].VStr?
    ensures r.Ok? ==> r.value == (Iterate(x).value[0].s, Iterate(x).value[1])
    ensures r.Err? && Iterate(x).Ok? && |Iterate(x).value| != 2 ==> r.error == ValueError
    ensures r.Err? && !(Iterate(x).Ok? && |Iterate(x).value| != 2) ==> r.error == TypeError
  {
    var kv :- Iterate(x);
    if |kv| != 2 then Err(ValueError)
    else if kv[0].VStr? then Ok((kv[0].s, kv[1]))
    else Err(TypeError)
  }

  /** The pairs read from the elements of a non-dict argument of `update`, in
      order, up to the first element that is not a pair, which raises. */
  function Pairs(items: seq<Value>): Outcome<Dict>
  {
    if items == [] then Outcome([], None)
    else
      var o := Pairs(items[..|items| - 1]);
      if o.raised.Some? then o
      else match UpdatePair(items[|items| - 1])
        case Err(e) => Outcome(o.state, Some(e))
        case Ok(p) => Outcome(o.state + [p], None)
  }

  /** `Pairs` reads each element in turn and stops at the first one that is
      not a pair, raising what that element raises. */
  lemma {:induction false} PairsPrefix(items: seq<Value>)
    ensures |Pairs(items).state| <= |items|
    ensures forall i | 0 <= i < |Pairs(items).state| :: UpdatePair(items[i]) == Ok(Pairs(items).state[i])
    ensures Pairs(items).raised.None? <==> |Pairs(items).state| == |items|
    ensures Pairs(items).raised.Some? ==>
      UpdatePair(items[|Pairs(items).state|]).Err? &&
      Pairs(items).raised == Some(UpdatePair(items[|Pairs(items).state|]).error)
  {
    if items != [] {
      var init := items[..|items| - 1];
      PairsPrefix(init);
      assert forall i | 0 <= i < |init| :: init[i] == items[i];
    }
  }

  /** The built-in `d.update(x)` for any argument: a dict is merged entry by
      entry; any other iterable is read as a sequence of key/value pairs,
      assigned one by one, so the pairs before a bad element stay assigned
      when it raises; a value that is not iterable raises `TypeError`. */
  function DictUpdateWith(d: Dict, x: Value): (r: Outcome<Dict>)
    ensures x.VDict? ==> r == Outcome(DictUpdate(d, x.entries), None)
    ensures !Iterate(x).Ok? ==> r == Outcome(d, Some(TypeError))
  {
    if x.VDict? then Outcome(DictUpdate(d, x.entries), None)
    else match Iterate(x)
      case Err(e) => Outcome(d, Some(e))
      case Ok(items) =>
        var p := Pairs(items);
        Outcome(DictUpdate(d, p.state), p.raised)
  }

  /** An empty list or an empty string updates nothing. */
  lemma DictUpdateWithEmpty(d: Dict, x: Value)
    requires x == VList([]) || x == VStr("")
    ensures DictUpdateWith(d, x) == Outcome(d, None)
  {
  }

  /** A non-empty string is a sequence of one-character strings, none of them
      a pair: its first character raises `ValueError` before anything is
      assigned. */
  lemma DictUpdateWithString(d: Dict, s: string)
    requires s != ""
    ensures DictUpdateWith(d, VStr(s)) == Outcome(d, Some(ValueError))
  {
    var items := Iterate(VStr(s)).value;
    assert items[0] == VStr([s[0]]);
    assert UpdatePair(items[0]) == Err(ValueError);
    PairsPrefix(items);
  }

  /** A list of two-item lists with string keys is assigned pair by pair. */
  lemma DictUpdateWithPairList(d: Dict, ps: Dict)
    ensures DictUpdateWith(d, VList(seq(|ps|, i requires 0 <= i < |ps| => VList([VStr(ps[i].0), ps[i].1])))) ==
      Outcome(DictUpdate(d, ps), None)
  {
    var items := seq(|ps|, i requires 0 <= i < |ps| => VList([VStr(ps[i].0), ps[i].1]));
    assert forall i | 0 <= i < |items| :: UpdatePair(items[i]) == Ok(ps[i]);
    PairsPrefix(items);
    assert Pairs(items).raised.None?;
    assert Pairs(items).state == ps;
  }

  /** A dataclass instance with every declared field at its default `None`. */
  function NoneAttrs(fields: set<string>): (r: map<string, Value>)
    ensures r.Keys == fields
    ensures forall k :: k in r ==> r[k] == VNone
  {
    map k | k in fields :: VNone
  }

  /** `for key, value in d.items(): if hasattr(self, key): setattr(self, key, value)`
      over an instance whose attributes are `attrs`. */
  function SetAttrs(attrs: map<string, Value>, d: Dict): (r: map<string, Value>)
    ensures r.Keys == attrs.Keys
  {
    if d == [] then attrs
    else
      var a := SetAttrs(attrs, d[..|d| - 1]);
      var e := d[|d| - 1];
      if e.0 in a then a[e.0 := e.1] else a
  }

  /** A declared field named in `d` takes the value `d` gives it; any other
      declared field keeps its value (keys that are not fields are ignored by
      the key set being unchanged). */
  lemma {:induction false} SetAttrsValue(attrs: map<string, Value>, d: Dict, k: string)
    requires k in attrs
    ensures SetAttrs(attrs, d)[k] == match Lookup(d, k) case Some(v) => v case None => attrs[k]
  {
    if d != [] {
      SetAttrsValue(attrs, d[..|d| - 1], k);
    }
  }

  /** Setting the same attributes twice is setting them once. */
  lemma SetAttrsIdempotent(attrs: map<string, Value>, d: Dict)
    ensures SetAttrs(SetAttrs(attrs, d), d) == SetAttrs(attrs, d)
  {
    var once := SetAttrs(attrs, d);
    forall k | k in attrs ensures SetAttrs(once, d)[k] == once[k] {
      SetAttrsValue(attrs, d, k);
      SetAttrsValue(once, d, k);
    }
  }

  /** A loop over `d` that applies `step` to each entry in order and stops at
      the first entry that raises. */
  function Fold<S>(step: (S, Entry) -> Outcome<S>, s: S, d: Dict): Outcome<S>
  {
    if d == [] then Outcome(s, None)
    else
      var o := Fold(step, s, d[..|d| - 1]);
      if o.raised.Some? then o else step(o.state, d[|d| - 1])
  }

  lemma FoldPrefix<S>(step: (S, Entry) -> Outcome<S>, s: S, d: Dict, i: nat)
    requires i < |d|
    ensures Fold(step, s, d[..i + 1]) ==
      var o := Fold(step, s, d[..i]);
      if o.raised.Some? then o else step(o.state, d[i])
  {
    assert d[..i + 1][..i] == d[..i];
  }

  /** Once an entry raises, the rest of the dict is not looked at. */
  lemma {:induction false} FoldStops<S>(step: (S, Entry) -> Outcome<S>, s: S, d: Dict, i: nat)
    requires i <= |d|
    requires Fold(step, s, d[..i]).raised.Some?
    ensures Fold(step, s, d) == Fold(step, s, d[..i])
  {
    if i == |d| {
      assert d[..i] == d;
    } else {
      assert d[..|d| - 1][..i] == d[..i];
      FoldStops(step, s, d[..|d| - 1], i);
    }
  }

  /** Applying `e` to `s` changes nothing and raises nothing. */
  ghost predicate Absorbs<S>(step: (S, Entry) -> Outcome<S>, s: S, e: Entry)
  {
    step(s, e) == Outcome(s, None)
  }

  /** Whenever a step succeeds, repeating it is a no-op. */
  ghost predicate SelfAbsorbing<S(!new)>(step: (S, Entry) -> Outcome<S>, ok: Entry -> bool)
  {
    forall t, e | ok(e) && step(t, e).raised.None? :: Absorbs(step, step(t, e).state, e)
  }

  /** A step for one key does not undo what a step for another key did. */
  ghost predicate KeyLocal<S(!new)>(step: (S, Entry) -> Outcome<S>, ok: Entry -> bool)
  {
    forall t, e, e2 | ok(e) && ok(e2) && e.0 != e2.0 && Absorbs(step, t, e) && step(t, e2).raised.None? ::
      Absorbs(step, step(t, e2).state, e)
  }

  lemma {:induction false} FoldAllAbsorbed<S(!new)>(step: (S, Entry) -> Outcome<S>, ok: Entry -> bool, s: S, d: Dict)
    requires IsDict(d)
    requires forall e | e in d :: ok(e)
    requires SelfAbsorbing(step, ok) && KeyLocal(step, ok)
    requires Fold(step, s, d).raised.None?
    ensures forall e | e in d :: Absorbs(step, Fold(step, s, d).state, e)
  {
    if d != [] {
      var init, last := d[..|d| - 1], d[|d| - 1];
      assert forall e | e in init :: e in d;
      FoldAllAbsorbed(step, ok, s, init);
      var mid := Fold(step, s, init).state;
      forall e | e in d ensures Absorbs(step, Fold(step, s, d).state, e) {
        if e != last {
          assert e in init by {
            var i :| 0 <= i < |d| && d[i] == e;
            assert i < |d| - 1 && init[i] == e;
          }
          EntryKeyIn(init, e);
        }
      }
    }
  }

  lemma {:induction false} FoldAbsorbedNoop<S>(step: (S, Entry) -> Outcome<S>, t: S, d: Dict)
    requires forall e | e in d :: Absorbs(step, t, e)
    ensures Fold(step, t, d) == Outcome(t, None)
  {
    if d != [] {
      assert forall e | e in d[..|d| - 1] :: e in d;
      FoldAbsorbedNoop(step, t, d[..|d| - 1]);
      assert d[|d| - 1] in d;
    }
  }

  /** For a step that is idempotent per entry and local to its key, running
      the same successful loop over a dict twice equals running it once. */
  lemma FoldIdempotent<S(!new)>(step: (S, Entry) -> Outcome<S>, ok: Entry -> bool, s: S, d: Dict)
    requires IsDict(d)
    requires forall e | e in d :: ok(e)
    requires SelfAbsorbing(step, ok) && KeyLocal(step, ok)
    requires Fold(step, s, d).raised.None?
    ensures Fold(step, Fold(step, s, d).state, d) == Fold(step, s, d)
  {
    FoldAllAbsorbed(step, ok, s, d);
    FoldAbsorbedNoop(step, Fold(step, s, d).state, d);
  }

  /** The number a Python value stands for in arithmetic (`bool` is an `int`). */
  function Numeric(v: Value): (r: Result<real>)
    ensures r.Ok? <==> v.VBool? || v.VInt? || v.VReal?
  {
    match v
    case VBool(b) => Ok(if b then 1.0 else 0.0)
    case VInt(i) => Ok(i as real)
    case VReal(x) => Ok(x)
    case _ => Err(TypeError)
  }

  /** Python `==` between two values: numbers compare by value across
      `bool`, `int` and `float`; other values compare structurally. */
  predicate PyEq(a: Value, b: Value)
  {
    if Numeric(a).Ok? && Numeric(b).Ok? then Numeric(a).value == Numeric(b).value else a == b
  }

  /** Python `int(x)` of a float: truncation toward zero. */
  function Truncate(x: real): (r: int)
    ensures 0.0 <= x ==> r as real <= x < r as real + 1.0
    ensures x < 0.0 ==> r as real - 1.0 < x <= r as real
  {
    if 0.0 <= x then x.Floor else -((-x).Floor)
  }

  function DigitChar(n: nat): char
    requires n < 10
  {
    "0123456789"[n]
  }

  function NatString(n: nat): string
  {
    if n < 10 then [DigitChar(n)] else NatString(n / 10) + [DigitChar(n % 10)]
  }

  /** `str(v)` as an f-string renders it, for the kinds of value used in
      event names and endpoints. */
  function Format(v: Value): string
  {
    match v
    case VNone => "None"
    case VBool(b) => if b then "True" else "False"
    case VInt(i) => if i < 0 then "-" + NatString(-i) else NatString(i)
    case VStr(s) => s
    case _ => ""
  }
}
