/** The scraper's output fed to the chart builder: every emitted entry is a record the
    chart keeps, at the hour of the event's time and at its rounded height. */
module RoundTrip {
  import opened Wrappers
  import opened PyJson
  import opened PyDateTime
  import opened TideSvg
  import opened TideScrape

  /** An emitted entry as the dict `{"type": ..., "time": ..., "height": ...}`. */
  function AsRecord(t: Tide): (r: Json)
    ensures r.Obj? && r.fields.Keys == {"type", "time", "height"}
    ensures r.fields["time"] == Str(t.time) && r.fields["height"] == Str(t.height)
    ensures r.fields["type"] == t.kind
  {
    Obj(map["type" := t.kind, "time" := Str(t.time), "height" := Str(t.height)])
  }

  function AsRecords(ts: seq<Tide>): (rs: seq<Json>)
    ensures |rs| == |ts|
    ensures forall i :: 0 <= i < |ts| ==> rs[i] == AsRecord(ts[i])
  {
    seq(|ts|, i requires 0 <= i < |ts| => AsRecord(ts[i]))
  }

  /** With a calendar whose `fromisoformat` reads back what its `isoformat` writes, the
      chart decodes an entry written for the time `dt` and the height `h` to the hour of
      `dt` and the height rounded to two places. */
  lemma ChartReadsScrapedTide(cal: Calendar, kind: Json, dt: DateTime, h: real)
    requires IsoRoundTrips(cal)
    ensures DecodeRecord(cal, AsRecord(Tide(kind, cal.isoFormat(dt), HeightText(h))))
            == Some(Point(HourOfDay(dt), Rounded(h)))
  {
    var r := AsRecord(Tide(kind, cal.isoFormat(dt), HeightText(h)));
    assert cal.fromIso(cal.isoFormat(dt)) == Some(dt);
    HeightTextRoundTrip(h);
    DecodeRecordKeepsParsable(cal, r);
  }

  /** Each scraped event becomes a chart point: the hour of its `DateTime` and its
      `Height` rounded to two places. */
  lemma ChartReadsScrapedEvent(cal: Calendar, e: Json)
    requires IsoRoundTrips(cal)
    requires DecodeTideEvent(cal, e).Some?
    ensures DecodeRecord(cal, AsRecord(DecodeTideEvent(cal, e).value))
            == Some(Point(HourOfDay(cal.fromIso(e.fields["DateTime"].s).value),
                          Rounded(Numeric(e.fields["Height"]).value)))
  {
    var t := DecodeTideEvent(cal, e).value;
    ChartReadsScrapedTide(cal, t.kind, cal.fromIso(e.fields["DateTime"].s).value, Numeric(e.fields["Height"]).value);
  }

  /** Every entry of the scraper's output comes from an event of the response. */
  lemma {:induction false} ScrapedTidesComeFromEvents(cal: Calendar, items: seq<Json>, k: int)
    requires 0 <= k < |DecodedTides(cal, items)|
    ensures exists i :: 0 <= i < |items| && DecodeTideEvent(cal, items[i]) == Some(DecodedTides(cal, items)[k])
    decreases |items|
  {
    var n := |items| - 1;
    var front := DecodedTides(cal, items[..n]);
    if k < |front| {
      ScrapedTidesComeFromEvents(cal, items[..n], k);
      var i :| 0 <= i < n && DecodeTideEvent(cal, items[..n][i]) == Some(front[k]);
      assert items[..n][i] == items[i];
    } else {
      assert DecodeTideEvent(cal, items[n]) == Some(DecodedTides(cal, items)[k]);
    }
  }

  /** A sequence of nothing but `Some`s keeps every entry. */
  lemma {:induction false} AllSomesKept<T>(os: seq<Option<T>>)
    requires forall i :: 0 <= i < |os| ==> os[i].Some?
    ensures |Somes(os)| == |os|
    decreases |os|
  {
    if os != [] {
      var n := |os| - 1;
      assert forall i :: 0 <= i < n ==> os[..n][i] == os[i];
      AllSomesKept(os[..n]);
    }
  }

  /** Records that all decode leave the chart with one point per record. */
  lemma AllDecodableKeepsAll(cal: Calendar, rs: seq<Json>)
    requires forall i :: 0 <= i < |rs| ==> DecodeRecord(cal, rs[i]).Some?
    ensures |DecodedPoints(cal, rs)| == |rs|
  {
    AllSomesKept(Decodes(cal, rs));
  }

  /** The chart drops none of the scraper's entries: it draws one point per emitted tide. */
  lemma ChartKeepsEveryScrapedTide(cal: Calendar, items: seq<Json>)
    requires IsoRoundTrips(cal)
    ensures |DecodedPoints(cal, AsRecords(DecodedTides(cal, items)))| == |DecodedTides(cal, items)|
  {
    var ts := DecodedTides(cal, items);
    var rs := AsRecords(ts);
    forall k | 0 <= k < |rs| ensures DecodeRecord(cal, rs[k]).Some? {
      ScrapedTidesComeFromEvents(cal, items, k);
      var i :| 0 <= i < |items| && DecodeTideEvent(cal, items[i]) == Some(ts[k]);
      ChartReadsScrapedEvent(cal, items[i]);
    }
    AllDecodableKeepsAll(cal, rs);
  }
}
