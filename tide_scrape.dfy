/** The scraper's event conversion: the tidal events of one day at the Scarborough
    station, each turned into `{type, time, height}` with the height written to two
    decimal places and the suffix " m". The API key and the decoded response are
    inputs. */
module TideScrape {
  import opened Wrappers
  import opened PyText
  import opened PyJson
  import opened PyDateTime

  /** A `for` over a value that is not iterable raises TypeError outside the `try`. */
  datatype Error = TypeError

  /** One emitted entry: `{"type": ..., "time": ..., "height": "<x.yz> m"}`. */
  datatype Tide = Tide(kind: Json, time: string, height: string)

  /** The value `round` accepts: a number; a boolean counts as 0 or 1. */
  function Numeric(v: Json): (x: Option<real>)
    ensures x.Some? <==> v.Num? || v.Bool?
    ensures v.Num? ==> x == Some(v.n)
    ensures v.Bool? ==> x == Some(if v.b then 1.0 else 0.0)
  {
    match v
    case Num(n) => Some(n)
    case Bool(b) => Some(if b then 1.0 else 0.0)
    case _ => None
  }

  /** `round(x, 2)` in hundredths: the nearest integer to `100 * x`, ties to even. */
  function Hundredths(x: real): (c: int)
    ensures -0.5 <= c as real - 100.0 * x <= 0.5
    ensures x >= 0.0 ==> c >= 0
    ensures x <= 0.0 ==> c <= 0
    ensures (c as real - 100.0 * x == 0.5 || 100.0 * x - c as real == 0.5) ==> c % 2 == 0
  {
    RoundHalfEven(x * 100.0)
  }

  /** The value `round(x, 2)` denotes. */
  function Rounded(x: real): real { Hundredths(x) as real / 100.0 }

  function Abs(c: int): nat { if c < 0 then -c else c }

  /** `f"{round(x, 2):.2f} m"`: a minus sign for a negative `x` (also when it rounds to
      zero, as a negative float does), the whole part, a point, two digits and " m". */
  function HeightText(x: real): (r: string)
    ensures |r| >= 6 && r[|r| - 2..] == " m" && r[|r| - 5] == '.'
    ensures IsDigit(r[|r| - 4]) && IsDigit(r[|r| - 3])
    ensures (r[0] == '-') <==> x < 0.0
    // the whole part is written as `str` writes the integer: no sign, padding or leading zero
    ensures var sign := if x < 0.0 then 1 else 0;
      sign < |r| - 5 && r[sign..|r| - 5] == NatToString(Abs(Hundredths(x)) / 100)
  {
    var f := Fixed2(x < 0.0, Abs(Hundredths(x)));
    assert f == (if x < 0.0 then "-" else "") + Fixed2Digits(Abs(Hundredths(x)));
    f + " m"
  }

  /** The body of the `try` (`tide_scrape.py:37-43`): an event is emitted when it is a dict whose
      `DateTime` is a string `fromisoformat` accepts, whose `Height` is a number and which
      has an `EventType`; anything else raises inside the `try` and is skipped. */
  function DecodeTideEvent(cal: Calendar, e: Json): (t: Option<Tide>)
    ensures t.Some? <==>
      && e.Obj? && "DateTime" in e.fields && "Height" in e.fields && "EventType" in e.fields
      && e.fields["DateTime"].Str? && cal.fromIso(e.fields["DateTime"].s).Some?
      && Numeric(e.fields["Height"]).Some?
    ensures t.Some? ==>
      && t.value.kind == e.fields["EventType"]
      && t.value.time == cal.isoFormat(cal.fromIso(e.fields["DateTime"].s).value)
      && t.value.height == HeightText(Numeric(e.fields["Height"]).value)
  {
    match e
    case Obj(m) =>
      if "DateTime" !in m || !m["DateTime"].Str? then None
      else
        (match cal.fromIso(m["DateTime"].s)
         case None => None
         case Some(dt) =>
           if "Height" !in m || Numeric(m["Height"]).None? || "EventType" !in m then None
           else Some(Tide(m["EventType"], cal.isoFormat(dt), HeightText(Numeric(m["Height"]).value))))
    case _ => None
  }

  /** What the loop emits for `items`, in order. */
  function DecodedTides(cal: Calendar, items: seq<Json>): (r: seq<Tide>)
    ensures |r| <= |items|
  {
    if items == [] then []
    else
      var t := DecodeTideEvent(cal, items[|items| - 1]);
      DecodedTides(cal, items[..|items| - 1]) + (if t.Some? then [t.value] else [])
  }

  /** Decoding a concatenation decodes each part in turn: survivors keep their order, and
      each event contributes exactly its own decode. */
  lemma {:induction false} DecodedTidesAppend(cal: Calendar, a: seq<Json>, b: seq<Json>)
    ensures DecodedTides(cal, a + b) == DecodedTides(cal, a) + DecodedTides(cal, b)
    decreases |b|
  {
    if b == [] {
      assert a + b == a;
    } else {
      var n := |b| - 1;
      assert (a + b)[..|a + b| - 1] == a + b[..n];
      assert (a + b)[|a + b| - 1] == b[n];
      DecodedTidesAppend(cal, a, b[..n]);
    }
  }

  /** A single event decodes to its own tide or to nothing. */
  lemma DecodedTidesSingle(cal: Calendar, e: Json)
    ensures DecodedTides(cal, [e]) == if DecodeTideEvent(cal, e).Some? then [DecodeTideEvent(cal, e).value] else []
  {
    assert [e][..0] == [];
  }

  /** A string is not a dict, so iterating a string or the keys of a dict emits nothing. */
  lemma {:induction false} StringsAreSkipped(cal: Calendar, ss: seq<string>)
    ensures DecodedTides(cal, seq(|ss|, i requires 0 <= i < |ss| => Str(ss[i]))) == []
    decreases |ss|
  {
    if ss != [] {
      var items := seq(|ss|, i requires 0 <= i < |ss| => Str(ss[i]));
      var n := |ss| - 1;
      assert items[..n] == seq(|ss[..n]|, i requires 0 <= i < |ss[..n]| => Str(ss[..n][i]));
      StringsAreSkipped(cal, ss[..n]);
    }
  }

  /** The query window of `tide_scrape.py:15-17`: from now to exactly one day later. */
  function QueryWindow(now: DateTime): (w: (DateTime, DateTime))
    ensures w.0 == now
    ensures w.1.wallMicros - w.0.wallMicros == MicrosPerDay && w.1.utcOffset == now.utcOffset
  {
    (now, Plus(now, MicrosPerDay))
  }

  /** The one-character strings iterating a string yields. */
  function Chars(s: string): (r: seq<Json>)
    ensures |r| == |s|
    ensures forall i :: 0 <= i < |r| ==> r[i] == Str([s[i]])
  {
    seq(|s|, i requires 0 <= i < |s| => Str([s[i]]))
  }

  /** What the loop of `tide_scrape.py:34-45` returns for the response `data`: the decoded events of
      a list, nothing for a string or a dict (iteration yields strings, which are not
      dicts), and TypeError for a value that is not iterable. */
  function ScrapeEvents(cal: Calendar, data: Json): (r: Result<seq<Tide>, Error>)
    ensures data.List? ==> r == Success(DecodedTides(cal, data.items))
    ensures r.Failure? <==> data.Null? || data.Bool? || data.Num?
    ensures r.Success? ==> |r.value| <= (if data.List? then |data.items| else 0)
  {
    match data
    case List(xs) => Success(DecodedTides(cal, xs))
    case Str(s) =>
      StringsAreSkipped(cal, seq(|s|, i requires 0 <= i < |s| => [s[i]]));
      assert Chars(s) == seq(|s|, i requires 0 <= i < |s| => Str(seq(|s|, i requires 0 <= i < |s| => [s[i]])[i]));
      Success(DecodedTides(cal, Chars(s)))
    case Obj(_) => Success([])
    case _ => Failure(TypeError)
  }

  /** Iterating a dict visits its keys in some order; whatever the order, the loop emits
      what `ScrapeEvents` says, as each key is a string. */
  lemma DictKeysAreSkipped(cal: Calendar, m: map<string, Json>, keys: seq<string>)
    requires forall i :: 0 <= i < |keys| ==> keys[i] in m
    ensures ScrapeEvents(cal, Obj(m))
         == Success(DecodedTides(cal, seq(|keys|, i requires 0 <= i < |keys| => Str(keys[i]))))
  {
    StringsAreSkipped(cal, keys);
  }

  /** The conversion loop over a sequence of events. */
  method ConvertEvents(cal: Calendar, xs: seq<Json>) returns (tides: seq<Tide>)
    ensures tides == DecodedTides(cal, xs)
  {
    tides := [];
    for i := 0 to |xs|
      invariant tides == DecodedTides(cal, xs[..i])
    {
      assert xs[..i + 1][..i] == xs[..i];
      var t := DecodeTideEvent(cal, xs[i]);
      match t
      case Some(tide) => tides := tides + [tide];
      case None =>
    }
    assert xs[..|xs|] == xs;
  }

  /** The conversion loop over the keys of a dict, visited in some order: each key is a
      string, whose indexing by "DateTime" raises, so nothing is emitted. */
  method ConvertKeys(cal: Calendar, m: map<string, Json>) returns (tides: seq<Tide>)
    ensures tides == []
  {
    tides := [];
    var keys := m.Keys;
    while keys != {}
      invariant tides == []
      decreases |keys|
    {
      var k :| k in keys;
      var t := DecodeTideEvent(cal, Str(k));
      match t {
        case Some(tide) => tides := tides + [tide];
        case None =>
      }
      keys := keys - {k};
    }
  }

  /** `fetch_tide_levels()` with the key and the decoded response as inputs;
      `response == None` stands for a failed request, which returns `[]`. The clock and
      `QueryWindow` only shape the request, so they do not appear here. */
  method FetchTideLevels(apiKey: Option<string>, cal: Calendar, response: Option<Json>)
    returns (r: Result<seq<Tide>, Error>)
    ensures !TruthyText(apiKey) ==> r == Success([])
    ensures TruthyText(apiKey) && response.None? ==> r == Success([])
    ensures TruthyText(apiKey) && response.Some? ==> r == ScrapeEvents(cal, response.value)
  {
    if !TruthyText(apiKey) {
      return Success([]);
    }
    if response.None? {
      return Success([]);
    }
    match response.value
    case List(xs) =>
      var tides := ConvertEvents(cal, xs);
      return Success(tides);
    case Str(s) =>
      var tides := ConvertEvents(cal, Chars(s));
      return Success(tides);
    case Obj(m) =>
      var tides := ConvertKeys(cal, m);
      return Success(tides);
    case _ =>
      return Failure(TypeError);
  }

  /** A sign and the magnitude of `c`, read as `Fixed2` writes them, give `c` hundredths. */
  lemma SignedHundredths(neg: bool, c: int)
    requires neg ==> c <= 0
    requires !neg ==> c >= 0
    ensures Signed(neg, Abs(c) as real / 100.0) == c as real / 100.0
  {
  }

  /** Reading an emitted height back as the chart does, by removing " m" and parsing the
      rest as a float, gives the rounded height. */
  lemma HeightTextRoundTrip(x: real)
    ensures ParseFloat(Replace(HeightText(x), " m", "")) == Some(Rounded(x))
  {
    var neg := x < 0.0;
    var c := Hundredths(x);
    var a := Abs(c);
    var f := Fixed2(neg, a);
    assert HeightText(x) == f + " m";
    NoBlankInFixed2(neg, a);
    ReplaceUnitSuffix(f);
    assert Replace(HeightText(x), " m", "") == f;
    ParseFixed2(neg, a);
    var v := Signed(neg, a as real / 100.0);
    assert ParseFloat(f) == Some(v);
    SignedHundredths(neg, c);
    assert v == Rounded(x);
  }
}
