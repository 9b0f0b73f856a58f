/** The Admiralty tidal API client without its HTTP calls: station resolution, the decoding
    of the tidal-event and tidal-level responses, the stable sort of the levels by time and
    the search for the next event after the current time. The decoded JSON responses and
    the clock reading are inputs. */
module Admiralty {
  import opened Wrappers
  import opened PyText
  import opened PyJson
  import opened PyDateTime

  const SubscriptionKeyHeader: string := "Ocp-Apim-Subscription-Key"
  const StationIdMissing: string := "StationId missing"
  const StationIdRequired: string := "station_id required"

  /** The exceptions `get_tides` lets escape. */
  datatype Error = ValueError(message: string) | TypeError | AttributeError | KeyError

  /** An entry of the returned `events`: `{'dateTime', 'eventType', 'height'}`. */
  datatype Event = Event(dateTime: Json, eventType: Json, height: Option<real>)

  /** An entry of the returned `levels`: `{'time', 'height'}`. */
  datatype Level = Level(time: Json, height: Option<real>)

  /** The dict `get_tides` returns. */
  datatype Tides = Tides(
    stationId: Json,
    from: string,
    to: string,
    events: seq<Event>,
    levels: seq<Level>,
    nextEvent: Option<Event>)

  /** A list, string or dict is truthy iff its `len` is not 0; None is falsy, and a number
      is truthy iff it is not 0. */
  lemma TruthyIsNonEmpty(v: Json)
    ensures PyLen(v).Some? ==> (Truthy(v) <==> PyLen(v).value != 0)
    ensures v.Null? ==> !Truthy(v)
    ensures v.Num? ==> (Truthy(v) <==> v.n != 0.0)
  {
    if v.Obj? && |v.fields| == 0 {
      assert v.fields == map[];
    }
  }

  function NoStationMessage(name: string): string { "No station found for " + name }

  /** `len(v)`, None where `len` raises TypeError. */
  function PyLen(v: Json): (n: Option<nat>)
    ensures n.Some? <==> v.List? || v.Str? || v.Obj?
    ensures v.List? ==> n == Some(|v.items|)
    ensures v.Str? ==> n == Some(|v.s|)
    ensures v.Obj? ==> n == Some(|v.fields|)
  {
    match v
    case List(xs) => Some(|xs|)
    case Str(s) => Some(|s|)
    case Obj(m) => Some(|m|)
    case _ => None
  }

  /** The station id taken from a `FindByName` search result, or the error raised on the
      way: `tide_client.py:21-26`. */
  function StationFromSearch(name: string, matches: Json): (r: Result<Json, Error>)
    ensures !Truthy(matches) ==> r == Failure(ValueError(NoStationMessage(name)))
    ensures matches.Obj? && "Stations" !in matches.fields ==> r == Failure(ValueError(NoStationMessage(name)))
    ensures matches.Obj? && "Stations" in matches.fields && PyLen(matches.fields["Stations"]) == Some(0)
            ==> r == Failure(ValueError(NoStationMessage(name)))
    ensures r.Success? <==>
      && matches.Obj? && "Stations" in matches.fields
      && matches.fields["Stations"].List? && |matches.fields["Stations"].items| > 0
      && matches.fields["Stations"].items[0].Obj?
      && Truthy(Get(matches.fields["Stations"].items[0].fields, "StationId"))
    ensures r.Success? ==> r.value == Get(matches.fields["Stations"].items[0].fields, "StationId")
    ensures matches.Obj? && "Stations" in matches.fields && matches.fields["Stations"].List?
            && |matches.fields["Stations"].items| > 0 && matches.fields["Stations"].items[0].Obj?
            && !Truthy(Get(matches.fields["Stations"].items[0].fields, "StationId"))
            ==> r == Failure(ValueError(StationIdMissing))
    // `in` on a list tests membership, and a list indexed by a string raises TypeError
    ensures matches.List? && matches.items != [] && Str("Stations") !in matches.items
            ==> r == Failure(ValueError(NoStationMessage(name)))
    ensures matches.List? && Str("Stations") in matches.items ==> r == Failure(TypeError)
    // `in` on a string is a substring test, and a string indexed by a string raises TypeError
    ensures matches.Str? && matches.s != "" && !Occurs(matches.s, "Stations")
            ==> r == Failure(ValueError(NoStationMessage(name)))
    ensures matches.Str? && Occurs(matches.s, "Stations") ==> r == Failure(TypeError)
    // `in` on a number or a boolean raises TypeError
    ensures Truthy(matches) && (matches.Num? || matches.Bool?) ==> r == Failure(TypeError)
    // `len` of a number, a boolean or None raises TypeError
    ensures matches.Obj? && "Stations" in matches.fields && PyLen(matches.fields["Stations"]).None?
            ==> r == Failure(TypeError)
    // `[0]` of a nonempty string is a one-character string, which has no `.get`; a dict
    // indexed by 0 has no such key, its keys being strings
    ensures matches.Obj? && "Stations" in matches.fields && matches.fields["Stations"].Str?
            && matches.fields["Stations"].s != ""
            ==> r == Failure(AttributeError)
    ensures matches.Obj? && "Stations" in matches.fields && matches.fields["Stations"].Obj?
            && matches.fields["Stations"].fields != map[]
            ==> r == Failure(KeyError)
    ensures matches.Obj? && "Stations" in matches.fields && matches.fields["Stations"].List?
            && |matches.fields["Stations"].items| > 0 && !matches.fields["Stations"].items[0].Obj?
            ==> r == Failure(AttributeError)
  {
    if !Truthy(matches) then Failure(ValueError(NoStationMessage(name)))
    else
      match matches
      case Obj(m) =>
        if "Stations" !in m then Failure(ValueError(NoStationMessage(name)))
        else
          var stations := m["Stations"];
          (match PyLen(stations)
           case None => Failure(TypeError)
           case Some(n) =>
             if n == 0 then Failure(ValueError(NoStationMessage(name)))
             else
               match stations
               case List(xs) =>
                 (match xs[0]
                  case Obj(first) =>
                    var id := Get(first, "StationId");
                    if Truthy(id) then Success(id) else Failure(ValueError(StationIdMissing))
                  case _ => Failure(AttributeError))
               // a one-character string has no `.get`
               case Str(_) => Failure(AttributeError)
               // a dict indexed by 0: its keys are strings
               case _ => Failure(KeyError))
      // `"Stations" in matches` tests membership; indexing a list by a string raises
      case List(xs) =>
        if Str("Stations") in xs then Failure(TypeError) else Failure(ValueError(NoStationMessage(name)))
      // `in` is a substring test; indexing a string by a string raises
      case Str(s) =>
        if Occurs(s, "Stations") then Failure(TypeError) else Failure(ValueError(NoStationMessage(name)))
      // `in` on a number or a boolean raises
      case _ => Failure(TypeError)
  }

  /** Station resolution, `tide_client.py:20-28`: an explicit id wins; otherwise a
      non-empty name is looked up; with neither, ValueError. */
  function ResolveStation(station: Option<string>, stationId: Json, search: Json): (r: Result<Json, Error>)
    ensures stationId != Null ==> r == Success(stationId)
    ensures stationId == Null && !TruthyText(station) ==> r == Failure(ValueError(StationIdRequired))
    ensures stationId == Null && TruthyText(station) ==> r == StationFromSearch(station.value, search)
    ensures r.Success? ==> r.value != Null
  {
    if stationId == Null && TruthyText(station) then StationFromSearch(station.value, search)
    else if stationId == Null then Failure(ValueError(StationIdRequired))
    else Success(stationId)
  }

  /** The query window `[now, now + hours]` of `tide_client.py:30-32`. */
  function Window(now: DateTime, hours: int): (w: (DateTime, DateTime))
    ensures w.0 == now
    ensures w.1.wallMicros - w.0.wallMicros == hours * MicrosPerHour
    ensures w.1.utcOffset == now.utcOffset
  {
    (now, Plus(now, hours * MicrosPerHour))
  }

  /** The list the event loop iterates over (`tide_client.py:49`): the response itself when it is a
      list, otherwise its `'Predictions'`, or `[]` when that is falsy. A truthy `'Predictions'`
      that is not a list raises: a dict or a string yields strings, which have no `.get`, and
      a number or `True` is not iterable. */
  function EventItems(events: Json): (r: Result<seq<Json>, Error>)
    ensures events.List? ==> r == Success(events.items)
    ensures events.Obj? && Get(events.fields, "Predictions").List? ==> r == Success(Get(events.fields, "Predictions").items)
    ensures events.Obj? && !Truthy(Get(events.fields, "Predictions")) ==> r == Success([])
    ensures events.Obj? ==> var p := Get(events.fields, "Predictions");
      Truthy(p) && (p.Obj? || p.Str?) ==> r == Failure(AttributeError)
    ensures events.Obj? ==> var p := Get(events.fields, "Predictions");
      Truthy(p) && (p.Num? || p.Bool?) ==> r == Failure(TypeError)
    ensures !events.List? && !events.Obj? ==> r == Failure(AttributeError)
  {
    match events
    case List(xs) => Success(xs)
    case Obj(m) =>
      (match Or(Get(m, "Predictions"), List([]))
       case List(xs) => Success(xs)
       // iterating a dict or a string yields strings, and a string has no `.get`
       case Obj(_) => Failure(AttributeError)
       case Str(_) => Failure(AttributeError)
       // a number or `True` is not iterable
       case _ => Failure(TypeError))
    case _ => Failure(AttributeError)
  }

  /** The list the level loop iterates over (`tide_client.py:62-65`); never an error. */
  function LevelItems(levels: Json): (r: seq<Json>)
    ensures levels.List? ==> r == levels.items
    ensures levels.Obj? && Get(levels.fields, "Predictions").List? ==> r == Get(levels.fields, "Predictions").items
    ensures levels.Obj? && !Get(levels.fields, "Predictions").List? ==> r == []
    ensures !levels.List? && !levels.Obj? ==> r == []
  {
    var preds := if levels.Obj? then Get(levels.fields, "Predictions") else levels;
    var preds' := if preds == Null then levels else preds;
    if preds'.List? then preds'.items else []
  }

  predicate AllDicts(items: seq<Json>) { forall i :: 0 <= i < |items| ==> items[i].Obj? }

  /** An event's height: `float(Height)` when `Height` is present, None when it is absent
      or `float` raises. */
  function EventHeight(e: map<string, Json>): (h: Option<real>)
    ensures Get(e, "Height") == Null ==> h == None
    ensures Get(e, "Height") != Null ==> h == ToFloat(e["Height"])
  {
    if Get(e, "Height") != Null then ToFloat(Get(e, "Height")) else None
  }

  /** One pass of the event loop, `tide_client.py:50-59`. */
  function DecodeEvent(e: map<string, Json>): (ev: Event)
    ensures ev.dateTime == Or(Get(e, "DateTime"), Get(e, "Time"))
    ensures ev.eventType == Get(e, "EventType")
    ensures ev.height == EventHeight(e)
  {
    Event(Or(Get(e, "DateTime"), Get(e, "Time")), Get(e, "EventType"), EventHeight(e))
  }

  function DecodeEvents(items: seq<Json>): (evs: seq<Event>)
    requires AllDicts(items)
    ensures |evs| == |items|
  {
    seq(|items|, i requires 0 <= i < |items| => DecodeEvent(items[i].fields))
  }

  /** The event loop: every item becomes one event, in order, however bad its height;
      an item that is not a dict raises AttributeError at `e.get`. */
  method CollectEvents(items: seq<Json>) returns (r: Result<seq<Event>, Error>)
    ensures AllDicts(items) ==> r == Success(DecodeEvents(items))
    ensures !AllDicts(items) ==> r == Failure(AttributeError)
  {
    var evs: seq<Event> := [];
    for i := 0 to |items|
      invariant forall k :: 0 <= k < i ==> items[k].Obj?
      invariant |evs| == i
      invariant forall k :: 0 <= k < i ==> evs[k] == DecodeEvent(items[k].fields)
    {
      if !items[i].Obj? {
        return Failure(AttributeError);
      }
      var e := items[i].fields;
      var dt := Or(Get(e, "DateTime"), Get(e, "Time"));
      // the `try ... except` of `tide_client.py:51-54`
      var h := EventHeight(e);
      evs := evs + [Event(dt, Get(e, "EventType"), h)];
    }
    assert evs == DecodeEvents(items);
    return Success(evs);
  }

  /** A level's height, `tide_client.py:68`: `float(Height or Value)` unless that is None. */
  function LevelHeight(p: map<string, Json>): (h: Option<real>)
    ensures Or(Get(p, "Height"), Get(p, "Value")) == Null ==> h == None
    ensures Truthy(Get(p, "Height")) ==> h == ToFloat(p["Height"])
    ensures !Truthy(Get(p, "Height")) && Get(p, "Value") != Null ==> h == ToFloat(p["Value"])
  {
    var v := Or(Get(p, "Height"), Get(p, "Value"));
    if v != Null then ToFloat(v) else None
  }

  /** One pass of the level loop, `tide_client.py:66-71`. */
  function DecodeLevel(p: map<string, Json>): (l: Level)
    ensures l.time == Or(Get(p, "Time"), Get(p, "DateTime"))
    ensures l.height == LevelHeight(p)
  {
    Level(Or(Get(p, "Time"), Get(p, "DateTime")), LevelHeight(p))
  }

  function DecodeLevels(items: seq<Json>): (lvls: seq<Level>)
    requires AllDicts(items)
    ensures |lvls| == |items|
  {
    seq(|items|, i requires 0 <= i < |items| => DecodeLevel(items[i].fields))
  }

  /** The level loop: one level per item, in order; a non-dict item raises AttributeError. */
  method CollectLevels(items: seq<Json>) returns (r: Result<seq<Level>, Error>)
    ensures AllDicts(items) ==> r == Success(DecodeLevels(items))
    ensures !AllDicts(items) ==> r == Failure(AttributeError)
  {
    var lvls: seq<Level> := [];
    for i := 0 to |items|
      invariant forall k :: 0 <= k < i ==> items[k].Obj?
      invariant |lvls| == i
      invariant forall k :: 0 <= k < i ==> lvls[k] == DecodeLevel(items[k].fields)
    {
      if !items[i].Obj? {
        return Failure(AttributeError);
      }
      var p := items[i].fields;
      var dt := Or(Get(p, "Time"), Get(p, "DateTime"));
      // the `try ... except` of `tide_client.py:67-70`
      var h := LevelHeight(p);
      lvls := lvls + [Level(dt, h)];
    }
    assert lvls == DecodeLevels(items);
    return Success(lvls);
  }

  /** The filter of `tide_client.py:74`: a truthy time and a height. */
  predicate KeepLevel(l: Level) { Truthy(l.time) && l.height.Some? }

  function KeptLevels(lvls: seq<Level>): (r: seq<Level>)
    ensures |r| <= |lvls|
    ensures forall i :: 0 <= i < |r| ==> KeepLevel(r[i])
  {
    if lvls == [] then [] else (if KeepLevel(lvls[0]) then [lvls[0]] else []) + KeptLevels(lvls[1..])
  }

  /** The filter keeps every kept level as often as it occurs, and nothing else. */
  lemma {:induction false} KeptLevelsCounts(lvls: seq<Level>, l: Level)
    ensures multiset(KeptLevels(lvls))[l] == if KeepLevel(l) then multiset(lvls)[l] else 0
  {
    if lvls != [] {
      KeptLevelsCounts(lvls[1..], l);
      assert lvls == [lvls[0]] + lvls[1..];
    }
  }

  /** Filtering a concatenation filters each part in turn: the kept levels keep their
      response order. */
  lemma {:induction false} KeptLevelsAppend(a: seq<Level>, b: seq<Level>)
    ensures KeptLevels(a + b) == KeptLevels(a) + KeptLevels(b)
  {
    if a == [] {
      assert a + b == b;
    } else {
      assert (a + b)[0] == a[0];
      assert (a + b)[1..] == a[1..] + b;
      KeptLevelsAppend(a[1..], b);
    }
  }

  /** A single level is kept as it is, or dropped. */
  lemma KeptLevelsSingle(l: Level)
    ensures KeptLevels([l]) == if KeepLevel(l) then [l] else []
  {
    assert [l][1..] == [];
  }

  /** Because `Height or Value` goes by truthiness, a level whose height is exactly 0 and
      that has no `Value` gets no height, and the filter drops it. */
  lemma ZeroHeightLevelIsDropped(p: map<string, Json>)
    requires "Height" in p && p["Height"] == Num(0.0) && "Value" !in p
    ensures DecodeLevel(p).height == None
    ensures !KeepLevel(DecodeLevel(p))
  {
  }

  /** The filter of `tide_client.py:75`: events whose `dateTime` is not None. */
  function DatedEvents(evs: seq<Event>): (r: seq<Event>)
    ensures |r| <= |evs|
    ensures forall i :: 0 <= i < |r| ==> r[i].dateTime != Null
  {
    if evs == [] then [] else (if evs[0].dateTime != Null then [evs[0]] else []) + DatedEvents(evs[1..])
  }

  /** The filter keeps every event with a time as often as it occurs, and nothing else. */
  lemma {:induction false} DatedEventsCounts(evs: seq<Event>, e: Event)
    ensures multiset(DatedEvents(evs))[e] == if e.dateTime != Null then multiset(evs)[e] else 0
  {
    if evs != [] {
      DatedEventsCounts(evs[1..], e);
      assert evs == [evs[0]] + evs[1..];
    }
  }

  /** Filtering a concatenation filters each part in turn: the events with a time keep
      their response order. */
  lemma {:induction false} DatedEventsAppend(a: seq<Event>, b: seq<Event>)
    ensures DatedEvents(a + b) == DatedEvents(a) + DatedEvents(b)
  {
    if a == [] {
      assert a + b == b;
    } else {
      assert (a + b)[0] == a[0];
      assert (a + b)[1..] == a[1..] + b;
      DatedEventsAppend(a[1..], b);
    }
  }

  /** A single event is kept as it is when it has a time, else dropped. */
  lemma DatedEventsSingle(e: Event)
    ensures DatedEvents([e]) == if e.dateTime != Null then [e] else []
  {
    assert [e][1..] == [];
  }

  // ---------------------------------------------------------------------------
  // Sorting the levels by time (`tide_client.py:74`)

  /** A sort key as Python compares it: numbers (booleans included) with numbers,
      strings with strings; anything else is not comparable. */
  datatype Key = NKey(x: real) | SKey(s: string) | NoKey

  function KeyOf(l: Level): Key
  {
    match l.time
    case Num(n) => NKey(n)
    case Bool(b) => NKey(if b then 1.0 else 0.0)
    case Str(s) => SKey(s)
    case _ => NoKey
  }

  /** Python's `a < b` on strings: code point by code point, a proper prefix first. */
  predicate StrLt(a: string, b: string)
  {
    if a == [] then b != []
    else if b == [] then false
    else if a[0] != b[0] then a[0] < b[0]
    else StrLt(a[1..], b[1..])
  }

  /** A proper prefix sorts first. */
  lemma {:induction false} StrLtProperPrefix(a: string, b: string)
    requires |a| < |b| && a == b[..|a|]
    ensures StrLt(a, b) && !StrLt(b, a)
  {
    if a != [] {
      assert a[0] == b[0];
      assert a[1..] == b[1..][..|a| - 1];
      StrLtProperPrefix(a[1..], b[1..]);
    }
  }

  /** The first position where two strings differ decides their order. */
  lemma {:induction false} StrLtAtFirstDifference(a: string, b: string, k: nat)
    requires k < |a| && k < |b| && a[..k] == b[..k] && a[k] != b[k]
    ensures StrLt(a, b) <==> a[k] < b[k]
  {
    if k > 0 {
      assert a[0] == a[..k][0] && b[0] == b[..k][0];
      assert a[1..][..k - 1] == a[..k][1..] && b[1..][..k - 1] == b[..k][1..];
      StrLtAtFirstDifference(a[1..], b[1..], k - 1);
    }
  }

  lemma {:induction false} StrLtIrreflexive(a: string)
    ensures !StrLt(a, a)
  {
    if a != [] { StrLtIrreflexive(a[1..]); }
  }

  lemma {:induction false} StrLtTotal(a: string, b: string)
    ensures a == b || StrLt(a, b) || StrLt(b, a)
  {
    if a != [] && b != [] && a[0] == b[0] {
      StrLtTotal(a[1..], b[1..]);
      if a[1..] == b[1..] {
        assert a == [a[0]] + a[1..] && b == [b[0]] + b[1..];
      }
    }
  }

  lemma {:induction false} StrLtTransitive(a: string, b: string, c: string)
    requires StrLt(a, b) && StrLt(b, c)
    ensures StrLt(a, c)
  {
    if a != [] && a[0] == b[0] && b[0] == c[0] {
      StrLtTransitive(a[1..], b[1..], c[1..]);
    }
  }

  /** A total order on keys; across kinds it is arbitrary, and `SortLevels` never relies on it. */
  predicate KeyLt(a: Key, b: Key)
  {
    match (a, b)
    case (NKey(x), NKey(y)) => x < y
    case (NKey(_), _) => true
    case (SKey(s), SKey(t)) => StrLt(s, t)
    case (SKey(_), NoKey) => true
    case _ => false
  }

  predicate KeyLe(a: Key, b: Key) { KeyLt(a, b) || a == b }

  lemma KeyLtIrreflexive(a: Key)
    ensures !KeyLt(a, a)
  {
    if a.SKey? { StrLtIrreflexive(a.s); }
  }

  lemma KeyLtTotal(a: Key, b: Key)
    ensures KeyLe(a, b) || KeyLt(b, a)
  {
    if a.SKey? && b.SKey? { StrLtTotal(a.s, b.s); }
  }

  lemma KeyLeTransitive(a: Key, b: Key, c: Key)
    requires KeyLe(a, b) && KeyLe(b, c)
    ensures KeyLe(a, c)
  {
    if a.SKey? && b.SKey? && c.SKey? && a != b && b != c { StrLtTransitive(a.s, b.s, c.s); }
  }

  /** Ascending by key; equal keys may be adjacent. */
  predicate SortedByKey(s: seq<Level>)
  {
    forall i, j :: 0 <= i < j < |s| ==> KeyLe(KeyOf(s[i]), KeyOf(s[j]))
  }

  /** The levels of `s` whose key is `k`, in the order of `s`. */
  function WithKey(s: seq<Level>, k: Key): seq<Level>
  {
    if s == [] then [] else (if KeyOf(s[0]) == k then [s[0]] else []) + WithKey(s[1..], k)
  }

  /** `x` placed before the first level whose key is not smaller than its own. */
  function Insert(x: Level, s: seq<Level>): seq<Level>
  {
    if s == [] then [x]
    else if KeyLt(KeyOf(s[0]), KeyOf(x)) then [s[0]] + Insert(x, s[1..])
    else [x] + s
  }

  function InsertionSort(s: seq<Level>): seq<Level>
  {
    if s == [] then [] else Insert(s[0], InsertionSort(s[1..]))
  }

  lemma {:induction false} InsertPermutes(x: Level, s: seq<Level>)
    ensures multiset(Insert(x, s)) == multiset(s) + multiset{x}
  {
    if s != [] && KeyLt(KeyOf(s[0]), KeyOf(x)) {
      InsertPermutes(x, s[1..]);
      assert s == [s[0]] + s[1..];
    }
  }

  lemma {:induction false} InsertSorted(x: Level, s: seq<Level>)
    requires SortedByKey(s)
    ensures SortedByKey(Insert(x, s))
  {
    if s == [] {
    } else if KeyLt(KeyOf(s[0]), KeyOf(x)) {
      var rest := Insert(x, s[1..]);
      InsertSorted(x, s[1..]);
      InsertPermutes(x, s[1..]);
      forall j | 0 <= j < |rest| ensures KeyLe(KeyOf(s[0]), KeyOf(rest[j])) {
        assert rest[j] in multiset(rest);
        assert rest[j] == x || rest[j] in s[1..];
      }
      assert Insert(x, s) == [s[0]] + rest;
    } else {
      KeyLtTotal(KeyOf(x), KeyOf(s[0]));
      forall j | 0 <= j < |s| ensures KeyLe(KeyOf(x), KeyOf(s[j])) {
        if j > 0 { KeyLeTransitive(KeyOf(x), KeyOf(s[0]), KeyOf(s[j])); }
      }
    }
  }

  lemma WithKeyCons(y: Level, t: seq<Level>, k: Key)
    ensures WithKey([y] + t, k) == (if KeyOf(y) == k then [y] else []) + WithKey(t, k)
  {
    assert ([y] + t)[1..] == t;
  }

  lemma {:induction false} InsertWithKey(x: Level, s: seq<Level>, k: Key)
    ensures WithKey(Insert(x, s), k) == (if KeyOf(x) == k then [x] else []) + WithKey(s, k)
  {
    if s == [] {
      WithKeyCons(x, [], k);
    } else if KeyLt(KeyOf(s[0]), KeyOf(x)) {
      InsertWithKey(x, s[1..], k);
      WithKeyCons(s[0], Insert(x, s[1..]), k);
      KeyLtIrreflexive(KeyOf(x));
    } else {
      WithKeyCons(x, s, k);
    }
  }

  /** Insertion sort's result is sorted, a permutation of its input, and stable: the
      levels sharing any one key keep their input order. */
  lemma {:induction false} InsertionSortSpec(s: seq<Level>)
    ensures SortedByKey(InsertionSort(s))
    ensures multiset(InsertionSort(s)) == multiset(s)
    ensures forall k :: WithKey(InsertionSort(s), k) == WithKey(s, k)
  {
    if s != [] {
      InsertionSortSpec(s[1..]);
      InsertSorted(s[0], InsertionSort(s[1..]));
      InsertPermutes(s[0], InsertionSort(s[1..]));
      assert s == [s[0]] + s[1..];
      forall k ensures WithKey(InsertionSort(s), k) == WithKey(s, k) {
        InsertWithKey(s[0], InsertionSort(s[1..]), k);
        WithKeyCons(s[0], s[1..], k);
      }
    }
  }

  /** Python can sort the keys without comparing two it cannot compare: at most one
      level, or all keys strings, or all numbers. With two kinds present a comparison
      sort must compare the two neighbours of the boundary between them. */
  predicate Comparable(ls: seq<Level>)
  {
    || |ls| <= 1
    || (forall i :: 0 <= i < |ls| ==> KeyOf(ls[i]).SKey?)
    || (forall i :: 0 <= i < |ls| ==> KeyOf(ls[i]).NKey?)
  }

  /** `sorted(ls, key=lambda x: x['time'])`: a stable ascending sort, or TypeError. */
  function SortLevels(ls: seq<Level>): (r: Result<seq<Level>, Error>)
    ensures r.Success? <==> Comparable(ls)
    ensures r.Failure? ==> r.error == TypeError
    ensures r.Success? ==> SortedByKey(r.value)
    ensures r.Success? ==> multiset(r.value) == multiset(ls)
    ensures r.Success? ==> forall k :: WithKey(r.value, k) == WithKey(ls, k)
  {
    if Comparable(ls) then
      InsertionSortSpec(ls);
      Success(InsertionSort(ls))
    else Failure(TypeError)
  }

  // ---------------------------------------------------------------------------
  // The next event (`tide_client.py:77-85`)

  /** An event counts as next when its `dateTime` is a string that, with `'Z'` replaced by
      `'+00:00'`, `fromisoformat` accepts and that lies strictly after `now`. */
  predicate IsAfter(cal: Calendar, now: DateTime, e: Event)
  {
    && e.dateTime.Str?
    && cal.fromIso(Replace(e.dateTime.s, "Z", "+00:00")).Some?
    && IsLater(cal.fromIso(Replace(e.dateTime.s, "Z", "+00:00")).value, now) == Some(true)
  }

  /** A `dateTime` without `'Z'` is handed to `fromisoformat` as it is. */
  lemma IsAfterPlainTime(cal: Calendar, now: DateTime, e: Event)
    requires e.dateTime.Str? && 'Z' !in e.dateTime.s
    ensures IsAfter(cal, now, e) <==>
      cal.fromIso(e.dateTime.s).Some? && IsLater(cal.fromIso(e.dateTime.s).value, now) == Some(true)
  {
    ReplaceAbsentChar(e.dateTime.s, 'Z', "+00:00");
  }

  /** A `dateTime` that ends in its only `'Z'` is read with the UTC offset `+00:00` in its place. */
  lemma IsAfterZuluTime(cal: Calendar, now: DateTime, e: Event, text: string)
    requires e.dateTime == Str(text + "Z") && 'Z' !in text
    ensures IsAfter(cal, now, e) <==>
      cal.fromIso(text + "+00:00").Some? && IsLater(cal.fromIso(text + "+00:00").value, now) == Some(true)
  {
    ReplaceLastChar(text, 'Z', "+00:00");
  }

  /** The first event in list order that lies after `now`. */
  function FirstAfter(cal: Calendar, now: DateTime, evs: seq<Event>): (r: Option<Event>)
    ensures r.Some? ==> r.value in evs && IsAfter(cal, now, r.value)
  {
    if evs == [] then None
    else if IsAfter(cal, now, evs[0]) then Some(evs[0])
    else FirstAfter(cal, now, evs[1..])
  }

  /** `FirstAfter` finds the earliest position whose event is after `now`, and None exactly
      when there is none. */
  lemma {:induction false} FirstAfterIsFirst(cal: Calendar, now: DateTime, evs: seq<Event>)
    ensures FirstAfter(cal, now, evs).None? <==> forall i :: 0 <= i < |evs| ==> !IsAfter(cal, now, evs[i])
    ensures FirstAfter(cal, now, evs).Some? ==>
      exists i :: 0 <= i < |evs| && evs[i] == FirstAfter(cal, now, evs).value && IsAfter(cal, now, evs[i])
                  && forall j :: 0 <= j < i ==> !IsAfter(cal, now, evs[j])
  {
    if evs != [] && !IsAfter(cal, now, evs[0]) {
      FirstAfterIsFirst(cal, now, evs[1..]);
      assert forall i :: 1 <= i < |evs| ==> evs[i] == evs[1..][i - 1];
      if FirstAfter(cal, now, evs).Some? {
        var i :| 0 <= i < |evs[1..]| && evs[1..][i] == FirstAfter(cal, now, evs).value
                 && IsAfter(cal, now, evs[1..][i]) && forall j :: 0 <= j < i ==> !IsAfter(cal, now, evs[1..][j]);
        assert evs[i + 1] == evs[1..][i];
      }
    }
  }

  /** The `for ... break` search for the next event. */
  method NextEvent(cal: Calendar, now: DateTime, evs: seq<Event>) returns (next: Option<Event>)
    ensures next == FirstAfter(cal, now, evs)
  {
    next := None;
    var i := 0;
    while i < |evs|
      invariant 0 <= i <= |evs|
      invariant FirstAfter(cal, now, evs[i..]) == FirstAfter(cal, now, evs)
    {
      var e := evs[i];
      assert evs[i..][1..] == evs[i + 1..];
      if e.dateTime.Str? {
        var t := cal.fromIso(Replace(e.dateTime.s, "Z", "+00:00"));
        if t.Some? && IsLater(t.value, now) == Some(true) {
          next := Some(e);
          break;
        }
      }
      i := i + 1;
    }
  }

  /** What `get_tides` returns or raises, given the search response, the two decoded
      prediction responses and the clock reading `nowMicros`. */
  function TidesOf(cal: Calendar, station: Option<string>, stationId: Json, hours: int, nowMicros: int,
                   search: Json, events: Json, levels: Json): (r: Result<Tides, Error>)
    ensures ResolveStation(station, stationId, search).Failure? ==>
      r == Failure(ResolveStation(station, stationId, search).error)
    ensures r.Success? ==> r.value.stationId == ResolveStation(station, stationId, search).value
    ensures ResolveStation(station, stationId, search).Success? ==>
      r == TidesFor(cal, ResolveStation(station, stationId, search).value, UtcNow(nowMicros), hours, events, levels)
  {
    match ResolveStation(station, stationId, search)
    case Failure(err) => Failure(err)
    case Success(id) => TidesFor(cal, id, UtcNow(nowMicros), hours, events, levels)
  }

  /** The part of `get_tides` after the station is known (`tide_client.py:30-94`). */
  function TidesFor(cal: Calendar, id: Json, now: DateTime, hours: int, events: Json, levels: Json): (r: Result<Tides, Error>)
    ensures r.Success? ==> r.value.stationId == id
  {
    match EventItems(events)
    case Failure(err) => Failure(err)
    case Success(eventItems) =>
      if !AllDicts(eventItems) then Failure(AttributeError)
      else
        var levelItems := LevelItems(levels);
        if !AllDicts(levelItems) then Failure(AttributeError)
        else
          match SortLevels(KeptLevels(DecodeLevels(levelItems)))
          case Failure(err) => Failure(err)
          case Success(sorted) =>
            var window := Window(now, hours);
            var dated := DatedEvents(DecodeEvents(eventItems));
            Success(Tides(id, cal.isoFormat(window.0), cal.isoFormat(window.1), dated, sorted,
                          FirstAfter(cal, now, dated)))
  }

  /** When the part of `get_tides` after the station lookup returns and what it raises
      otherwise, in the order the source meets the failures: the `Predictions` of the
      events response, an event that is not a dict (`.get` raises AttributeError), a level
      that is not a dict (likewise), and two level times `sorted` cannot compare. */
  lemma TidesForOutcome(cal: Calendar, id: Json, now: DateTime, hours: int, events: Json, levels: Json)
    ensures var r := TidesFor(cal, id, now, hours, events, levels);
      r.Success? <==>
        && EventItems(events).Success?
        && AllDicts(EventItems(events).value)
        && AllDicts(LevelItems(levels))
        && Comparable(KeptLevels(DecodeLevels(LevelItems(levels))))
    ensures var r := TidesFor(cal, id, now, hours, events, levels);
      EventItems(events).Failure? ==> r == Failure(EventItems(events).error)
    ensures var r := TidesFor(cal, id, now, hours, events, levels);
      EventItems(events).Success? && !AllDicts(EventItems(events).value) ==> r == Failure(AttributeError)
    ensures var r := TidesFor(cal, id, now, hours, events, levels);
      EventItems(events).Success? && AllDicts(EventItems(events).value) && !AllDicts(LevelItems(levels))
      ==> r == Failure(AttributeError)
    ensures var r := TidesFor(cal, id, now, hours, events, levels);
      EventItems(events).Success? && AllDicts(EventItems(events).value) && AllDicts(LevelItems(levels))
      && !Comparable(KeptLevels(DecodeLevels(LevelItems(levels))))
      ==> r == Failure(TypeError)
  {
  }

  /** The dict built once the station is known: the window in ISO text, only events with
      a time, only levels with a truthy time and a height, sorted by time, and a next
      event taken from the returned events that lies after now. */
  lemma TidesForShape(cal: Calendar, id: Json, now: DateTime, hours: int, events: Json, levels: Json)
    requires TidesFor(cal, id, now, hours, events, levels).Success?
    ensures var t := TidesFor(cal, id, now, hours, events, levels).value;
      && t.from == cal.isoFormat(now)
      && t.to == cal.isoFormat(Plus(now, hours * MicrosPerHour))
      && (forall i :: 0 <= i < |t.events| ==> t.events[i].dateTime != Null)
      && (forall i :: 0 <= i < |t.levels| ==> KeepLevel(t.levels[i]))
      && SortedByKey(t.levels)
      && (t.nextEvent.Some? ==> t.nextEvent.value in t.events && IsAfter(cal, now, t.nextEvent.value))
      && t.nextEvent == FirstAfter(cal, now, t.events)
  {
    var eventItems := EventItems(events).value;
    var levelItems := LevelItems(levels);
    var kept := KeptLevels(DecodeLevels(levelItems));
    var sorted := SortLevels(kept).value;
    var dated := DatedEvents(DecodeEvents(eventItems));
    assert TidesFor(cal, id, now, hours, events, levels).value
        == Tides(id, cal.isoFormat(now), cal.isoFormat(Plus(now, hours * MicrosPerHour)), dated, sorted,
                 FirstAfter(cal, now, dated));
    forall i | 0 <= i < |sorted| ensures KeepLevel(sorted[i]) {
      assert sorted[i] in multiset(kept);
    }
  }

  /** The dict `get_tides` returns, as `TidesForShape` describes it, for the station id
      it resolved, which is never None. */
  lemma TidesOfShape(cal: Calendar, station: Option<string>, stationId: Json, hours: int, nowMicros: int,
                     search: Json, events: Json, levels: Json)
    requires TidesOf(cal, station, stationId, hours, nowMicros, search, events, levels).Success?
    ensures var t := TidesOf(cal, station, stationId, hours, nowMicros, search, events, levels).value;
      && t.stationId != Null
      && t.from == cal.isoFormat(UtcNow(nowMicros))
      && t.to == cal.isoFormat(Plus(UtcNow(nowMicros), hours * MicrosPerHour))
      && (forall i :: 0 <= i < |t.events| ==> t.events[i].dateTime != Null)
      && (forall i :: 0 <= i < |t.levels| ==> KeepLevel(t.levels[i]))
      && SortedByKey(t.levels)
      && (t.nextEvent.Some? ==> t.nextEvent.value in t.events && IsAfter(cal, UtcNow(nowMicros), t.nextEvent.value))
      && t.nextEvent == FirstAfter(cal, UtcNow(nowMicros), t.events)
  {
    var id := ResolveStation(station, stationId, search).value;
    TidesForShape(cal, id, UtcNow(nowMicros), hours, events, levels);
  }

  /** The returned events are the decoded events with a time, in response order, and the
      returned levels with any one time are the kept decoded levels with that time, in
      response order. */
  lemma TidesForOrder(cal: Calendar, id: Json, now: DateTime, hours: int, events: Json, levels: Json)
    requires TidesFor(cal, id, now, hours, events, levels).Success?
    ensures EventItems(events).Success?
    ensures TidesFor(cal, id, now, hours, events, levels).value.events
            == DatedEvents(DecodeEvents(EventItems(events).value))
    ensures forall k :: WithKey(TidesFor(cal, id, now, hours, events, levels).value.levels, k)
                     == WithKey(KeptLevels(DecodeLevels(LevelItems(levels))), k)
  {
    var kept := KeptLevels(DecodeLevels(LevelItems(levels)));
    assert TidesFor(cal, id, now, hours, events, levels).value.levels == SortLevels(kept).value;
  }

  /** The returned levels are the decoded levels with a truthy time and a height, each as
      often as the response holds it, and the returned events are the decoded events
      with a time, each as often as the response holds it. */
  lemma TidesForCounts(cal: Calendar, id: Json, now: DateTime, hours: int, events: Json, levels: Json,
                       l: Level, e: Event)
    requires TidesFor(cal, id, now, hours, events, levels).Success?
    ensures AllDicts(LevelItems(levels)) && EventItems(events).Success? && AllDicts(EventItems(events).value)
    ensures multiset(TidesFor(cal, id, now, hours, events, levels).value.levels)[l]
            == if KeepLevel(l) then multiset(DecodeLevels(LevelItems(levels)))[l] else 0
    ensures multiset(TidesFor(cal, id, now, hours, events, levels).value.events)[e]
            == if e.dateTime != Null then multiset(DecodeEvents(EventItems(events).value))[e] else 0
  {
    KeptLevelsCounts(DecodeLevels(LevelItems(levels)), l);
    DatedEventsCounts(DecodeEvents(EventItems(events).value), e);
  }

  class TideClient {
    const apiKey: Option<string>

    /** `api_key or os.getenv("ADMIRALTY_API_KEY")`, with the environment value a parameter. */
    constructor (key: Option<string>, envKey: Option<string>)
      ensures apiKey == (if TruthyText(key) then key else envKey)
    {
      apiKey := if TruthyText(key) then key else envKey;
    }

    /** `_headers()`: the subscription-key header exactly when the key is truthy. */
    function Headers(): (h: map<string, string>)
      ensures h == map[] <==> !TruthyText(apiKey)
      ensures TruthyText(apiKey) ==> h.Keys == {SubscriptionKeyHeader} && h[SubscriptionKeyHeader] == apiKey.value
    {
      if TruthyText(apiKey) then
        var h := map[SubscriptionKeyHeader := apiKey.value];
        assert SubscriptionKeyHeader in h;
        h
      else map[]
    }

    /** `get_tides(station, station_id, hours)` with the HTTP responses and the clock as
        inputs. */
    method GetTides(cal: Calendar, station: Option<string>, stationId: Json, hours: int, nowMicros: int,
                    search: Json, events: Json, levels: Json) returns (r: Result<Tides, Error>)
      ensures r == TidesOf(cal, station, stationId, hours, nowMicros, search, events, levels)
    {
      var resolved := ResolveStation(station, stationId, search);
      if resolved.Failure? {
        return Failure(resolved.error);
      }
      var now := UtcNow(nowMicros);
      var start := now;
      var end := Plus(now, hours * MicrosPerHour);
      ghost var expected := TidesFor(cal, resolved.value, now, hours, events, levels);
      assert TidesOf(cal, station, stationId, hours, nowMicros, search, events, levels) == expected;

      var eventItems := EventItems(events);
      if eventItems.Failure? {
        return Failure(eventItems.error);
      }
      var evs := CollectEvents(eventItems.value);
      if evs.Failure? {
        return Failure(evs.error);
      }

      var lvls := CollectLevels(LevelItems(levels));
      if lvls.Failure? {
        return Failure(lvls.error);
      }

      var sorted := SortLevels(KeptLevels(lvls.value));
      if sorted.Failure? {
        return Failure(sorted.error);
      }
      var dated := DatedEvents(evs.value);

      var next := NextEvent(cal, now, dated);
      r := Success(Tides(resolved.value, cal.isoFormat(start), cal.isoFormat(end), dated, sorted.value, next));
      assert r == expected;
    }
  }
}
