/** The chart builder: a list of `{time, height}` records becomes a 600 by 200 SVG line
    chart of height against the hour of the day. */
module TideSvg {
  import opened Wrappers
  import opened PyText
  import opened PyJson
  import opened PyDateTime

  const ChartWidth: int := 600
  const ChartHeight: int := 200
  const GridStep: int := 40

  const NoDataSvg: string := "<svg width='100%' height='200'><text x='10' y='20'>No data</text></svg>"
  const NoValidDataSvg: string :=
    "<svg width='100%' height='200'><text x='10' y='20'>No valid tide data</text></svg>"

  /** A decoded record: the hour of the day as a fraction, and the height. */
  datatype Point = Point(hour: real, height: real)

  predicate InDay(p: Point) { 0.0 <= p.hour < 24.0 }

  /** `dt.hour + dt.minute / 60` */
  function HourOfDay(d: DateTime): (h: real)
    ensures 0.0 <= h < 24.0
  {
    HourOf(d) as real + MinuteOf(d) as real / 60.0
  }

  /** One pass of the decode loop's `try` body: `t["time"]` parsed by `fromisoformat`, and
      `t["height"]` with every `" m"` removed, parsed by `float`. None stands for any
      exception, after which the loop moves on. */
  function DecodeRecord(cal: Calendar, t: Json): (p: Option<Point>)
    ensures p.Some? ==> InDay(p.value)
  {
    if !t.Obj? || "time" !in t.fields || "height" !in t.fields then None
    else
      match (t.fields["time"], t.fields["height"])
      case (Str(ts), Str(hs)) =>
        (match cal.fromIso(ts)
         case None => None
         case Some(dt) =>
           match ParseFloat(Replace(hs, " m", ""))
           case None => None
           case Some(h) => Some(Point(HourOfDay(dt), h)))
      case _ => None
  }

  /** A record survives decoding exactly when it is a dict whose `"time"` is a string that
      `fromisoformat` accepts and whose `"height"` is a string that `float` accepts once every
      `" m"` is removed; the point is then the hour of that time and that height. */
  lemma DecodeRecordKeepsParsable(cal: Calendar, t: Json)
    ensures DecodeRecord(cal, t).Some? <==>
      && t.Obj? && "time" in t.fields && "height" in t.fields
      && t.fields["time"].Str? && t.fields["height"].Str?
      && cal.fromIso(t.fields["time"].s).Some?
      && ParseFloat(Replace(t.fields["height"].s, " m", "")).Some?
    ensures DecodeRecord(cal, t).Some? ==>
      DecodeRecord(cal, t).value
        == Point(HourOfDay(cal.fromIso(t.fields["time"].s).value),
                 ParseFloat(Replace(t.fields["height"].s, " m", "")).value)
  {
  }

  function OptionToSeq<T>(o: Option<T>): (s: seq<T>)
    ensures |s| <= 1
  {
    if o.Some? then [o.value] else []
  }

  /** The values of the `Some` entries of `os`, in order. */
  function Somes<T>(os: seq<Option<T>>): (vs: seq<T>)
    ensures |vs| <= |os|
    decreases |os|
  {
    if os == [] then [] else Somes(os[..|os| - 1]) + OptionToSeq(os[|os| - 1])
  }

  /** The positions of the `Some` entries of `os`, in increasing order. */
  function SomeIndices<T>(os: seq<Option<T>>): (ks: seq<nat>)
    ensures forall k :: 0 <= k < |ks| ==> ks[k] < |os|
    decreases |os|
  {
    if os == [] then []
    else
      var n := |os| - 1;
      SomeIndices(os[..n]) + (if os[n].Some? then [n] else [])
  }

  /** `Somes` keeps exactly the `Some` entries, in order: the k-th value sits at the k-th
      kept position, the kept positions increase, and a position is kept iff it holds a
      `Some`. */
  lemma {:induction false} SomesAtSomeIndices<T>(os: seq<Option<T>>)
    ensures |SomeIndices(os)| == |Somes(os)|
    ensures forall k :: 0 <= k < |SomeIndices(os)| ==> os[SomeIndices(os)[k]] == Some(Somes(os)[k])
    ensures forall k, l :: 0 <= k < l < |SomeIndices(os)| ==> SomeIndices(os)[k] < SomeIndices(os)[l]
    ensures forall i :: 0 <= i < |os| ==> (i in SomeIndices(os) <==> os[i].Some?)
    decreases |os|
  {
    if os != [] {
      var n := |os| - 1;
      var front := os[..n];
      SomesAtSomeIndices(front);
      var ks0, vs0 := SomeIndices(front), Somes(front);
      var ks, vs := SomeIndices(os), Somes(os);
      var tail := if os[n].Some? then [n] else [];
      assert ks == ks0 + tail;
      assert vs == vs0 + OptionToSeq(os[n]);
      forall k | 0 <= k < |ks| ensures os[ks[k]] == Some(vs[k]) {
        if k < |ks0| {
          assert ks[k] == ks0[k] && vs[k] == vs0[k];
          assert front[ks0[k]] == os[ks0[k]];
        }
      }
      forall k, l | 0 <= k < l < |ks| ensures ks[k] < ks[l] {
        if l < |ks0| {
          assert ks[k] == ks0[k] && ks[l] == ks0[l];
        } else {
          assert ks[k] == ks0[k] < n;
        }
      }
      forall i | 0 <= i < |os| ensures i in ks <==> os[i].Some? {
        if i < n {
          assert front[i] == os[i];
          assert i in ks <==> i in ks0;
        }
      }
    }
  }

  /** The decode of every record, in order. */
  function Decodes(cal: Calendar, tides: seq<Json>): (ds: seq<Option<Point>>)
    ensures |ds| == |tides|
    ensures forall i :: 0 <= i < |tides| ==> ds[i] == DecodeRecord(cal, tides[i])
  {
    seq(|tides|, i requires 0 <= i < |tides| => DecodeRecord(cal, tides[i]))
  }

  /** The `points` list the decode loop builds: the decodable records, in input order. */
  function DecodedPoints(cal: Calendar, tides: seq<Json>): (ps: seq<Point>)
    ensures |ps| <= |tides|
  {
    Somes(Decodes(cal, tides))
  }

  /** The positions of the records the decode loop keeps, in increasing order. */
  function KeptIndices(cal: Calendar, tides: seq<Json>): (ks: seq<nat>)
    ensures forall k :: 0 <= k < |ks| ==> ks[k] < |tides|
  {
    SomeIndices(Decodes(cal, tides))
  }

  lemma DecodedPointsSnoc(cal: Calendar, tides: seq<Json>, i: nat)
    requires i < |tides|
    ensures DecodedPoints(cal, tides[..i + 1])
         == DecodedPoints(cal, tides[..i]) + OptionToSeq(DecodeRecord(cal, tides[i]))
  {
    var ds := Decodes(cal, tides[..i + 1]);
    assert ds[..i] == Decodes(cal, tides[..i]);
    assert ds[i] == DecodeRecord(cal, tides[i]);
  }

  /** The decode loop keeps exactly the records that decode, each as its decoded point,
      and keeps them in input order. */
  lemma DecodedPointsAreKeptRecords(cal: Calendar, tides: seq<Json>)
    ensures |KeptIndices(cal, tides)| == |DecodedPoints(cal, tides)|
    ensures forall k :: 0 <= k < |KeptIndices(cal, tides)| ==>
      DecodeRecord(cal, tides[KeptIndices(cal, tides)[k]]) == Some(DecodedPoints(cal, tides)[k])
    ensures forall k, l :: 0 <= k < l < |KeptIndices(cal, tides)| ==>
      KeptIndices(cal, tides)[k] < KeptIndices(cal, tides)[l]
    ensures forall i :: 0 <= i < |tides| ==>
      (i in KeptIndices(cal, tides) <==> DecodeRecord(cal, tides[i]).Some?)
  {
    SomesAtSomeIndices(Decodes(cal, tides));
  }

  /** Every decoded point has an hour in the day. */
  lemma DecodedPointsInDay(cal: Calendar, tides: seq<Json>)
    ensures forall k :: 0 <= k < |DecodedPoints(cal, tides)| ==> InDay(DecodedPoints(cal, tides)[k])
  {
    DecodedPointsAreKeptRecords(cal, tides);
  }

  /** The "No valid tide data" placeholder is chosen exactly when no record decodes. */
  lemma NoPointsIffNoRecordDecodes(cal: Calendar, tides: seq<Json>)
    ensures DecodedPoints(cal, tides) == [] <==> forall i :: 0 <= i < |tides| ==> DecodeRecord(cal, tides[i]).None?
  {
    DecodedPointsAreKeptRecords(cal, tides);
    var ks := KeptIndices(cal, tides);
    if ks != [] {
      assert ks[0] in ks;
    }
  }

  /** `ys = [p[1] for p in points]` */
  function Heights(points: seq<Point>): (ys: seq<real>)
    ensures |ys| == |points|
    ensures forall i :: 0 <= i < |ys| ==> ys[i] == points[i].height
  {
    seq(|points|, i requires 0 <= i < |points| => points[i].height)
  }

  /** `min(ys)` */
  function MinOf(ys: seq<real>): (m: real)
    requires |ys| > 0
    ensures m in ys
    ensures forall i :: 0 <= i < |ys| ==> m <= ys[i]
  {
    if |ys| == 1 then ys[0]
    else
      var rest := MinOf(ys[1..]);
      if ys[0] <= rest then ys[0] else rest
  }

  /** `max(ys)` */
  function MaxOf(ys: seq<real>): (m: real)
    requires |ys| > 0
    ensures m in ys
    ensures forall i :: 0 <= i < |ys| ==> ys[i] <= m
  {
    if |ys| == 1 then ys[0]
    else
      var rest := MaxOf(ys[1..]);
      if ys[0] >= rest then ys[0] else rest
  }

  /** `h_range`: the spread of the heights, or 1 for a flat series, so never zero. */
  function HeightRange(lo: real, hi: real): (r: real)
    requires lo <= hi
    ensures r > 0.0
    ensures lo < hi ==> r == hi - lo
    ensures lo == hi ==> r == 1.0
  {
    if hi != lo then hi - lo else 1.0
  }

  /** `px = (x / 24) * width` */
  function PixelX(hour: real): real
  {
    hour / 24.0 * ChartWidth as real
  }

  /** `py = height - ((y - min_y) / h_range * height)` */
  function PixelY(y: real, lo: real, range: real): real
    requires range != 0.0
  {
    ChartHeight as real - ((y - lo) / range * ChartHeight as real)
  }

  /** `px` is linear in the hour: hour 0 is at x = 0 and the 24 hours span the chart width. */
  lemma PixelXLinear(h1: real, h2: real)
    ensures PixelX(0.0) == 0.0
    ensures PixelX(h2) - PixelX(h1) == (h2 - h1) / 24.0 * ChartWidth as real
    ensures h1 < h2 ==> PixelX(h1) < PixelX(h2)
  {
  }

  /** `py` is linear in the height and inverted: the minimum is at the bottom (y = 200), one
      `h_range` spans the chart height, and a greater height is drawn higher up. */
  lemma PixelYInverted(y1: real, y2: real, lo: real, range: real)
    requires range > 0.0
    ensures PixelY(lo, lo, range) == ChartHeight as real
    ensures PixelY(y1, lo, range) - PixelY(y2, lo, range) == (y2 - y1) / range * ChartHeight as real
    ensures y1 < y2 ==> PixelY(y1, lo, range) > PixelY(y2, lo, range)
  {
    assert (y2 - lo) / range - (y1 - lo) / range == (y2 - y1) / range;
    if y1 < y2 {
      assert (y2 - y1) / range > 0.0;
    }
  }

  lemma PixelXBounds(hour: real)
    requires 0.0 <= hour < 24.0
    ensures 0.0 <= PixelX(hour) < ChartWidth as real
  {
  }

  lemma PixelYBounds(y: real, lo: real, hi: real)
    requires lo <= y <= hi
    ensures 0.0 <= PixelY(y, lo, HeightRange(lo, hi)) <= ChartHeight as real
    ensures y == lo ==> PixelY(y, lo, HeightRange(lo, hi)) == ChartHeight as real
    ensures y == hi && lo < hi ==> PixelY(y, lo, HeightRange(lo, hi)) == 0.0
  {
    var r := HeightRange(lo, hi);
    var t := (y - lo) / r;
    assert t * r == y - lo;
    assert 0.0 <= t <= 1.0;
  }

  /** The `(px, py)` the scaling loop computes for each point. */
  function ScaledWith(points: seq<Point>, lo: real, range: real): (px: seq<(real, real)>)
    requires range != 0.0
    ensures |px| == |points|
    ensures forall i :: 0 <= i < |points| ==>
      px[i] == (PixelX(points[i].hour), PixelY(points[i].height, lo, range))
  {
    seq(|points|, i requires 0 <= i < |points| =>
        (PixelX(points[i].hour), PixelY(points[i].height, lo, range)))
  }

  /** The pixel coordinates of the points, scaled by the minimum height and `h_range`. */
  function Pixels(points: seq<Point>): (px: seq<(real, real)>)
    requires |points| > 0
    ensures |px| == |points|
    ensures forall i :: 0 <= i < |points| ==>
      px[i] == (PixelX(points[i].hour),
                PixelY(points[i].height, MinOf(Heights(points)),
                       HeightRange(MinOf(Heights(points)), MaxOf(Heights(points)))))
  {
    var ys := Heights(points);
    var lo, hi := MinOf(ys), MaxOf(ys);
    ScaledWith(points, lo, HeightRange(lo, hi))
  }

  /** Every scaled point lies in the 600 by 200 box (x below 600 when its hour lies in the
      day); a lowest point sits on the bottom edge, a highest one of a non-flat series on
      the top edge, and every point of a flat series on the bottom edge. */
  lemma PixelsInChartBox(points: seq<Point>, i: nat)
    requires i < |points|
    ensures 0.0 <= Pixels(points)[i].1 <= ChartHeight as real
    ensures InDay(points[i]) ==> 0.0 <= Pixels(points)[i].0 < ChartWidth as real
    ensures points[i].height == MinOf(Heights(points)) ==> Pixels(points)[i].1 == ChartHeight as real
    ensures points[i].height == MaxOf(Heights(points)) && MinOf(Heights(points)) < MaxOf(Heights(points))
            ==> Pixels(points)[i].1 == 0.0
    ensures MinOf(Heights(points)) == MaxOf(Heights(points)) ==> Pixels(points)[i].1 == ChartHeight as real
  {
    var ys := Heights(points);
    var lo, hi := MinOf(ys), MaxOf(ys);
    assert ys[i] == points[i].height;
    assert lo <= points[i].height <= hi;
    assert Pixels(points)[i] == (PixelX(points[i].hour), PixelY(points[i].height, lo, HeightRange(lo, hi)));
    PixelYBounds(points[i].height, lo, hi);
    if InDay(points[i]) { PixelXBounds(points[i].hour); }
  }

  /** `f"{px},{py}"`, with `show` standing for Python's `str(float)`. */
  function PairText(show: real -> string, p: (real, real)): string
  {
    show(p.0) + "," + show(p.1)
  }

  /** The `path_points` list of the scaling loop, one entry per point. */
  function PathPairs(show: real -> string, points: seq<Point>): (pairs: seq<string>)
    requires |points| > 0
    ensures |pairs| == |points|
    ensures forall i :: 0 <= i < |points| ==> pairs[i] == PairText(show, Pixels(points)[i])
  {
    var px := Pixels(points);
    seq(|px|, i requires 0 <= i < |px| => PairText(show, px[i]))
  }

  /** `"M " + " L ".join(path_points)` */
  function PathD(pairs: seq<string>): string
  {
    "M " + Join(" L ", pairs)
  }

  /** A single pair is drawn with `M`, and each further pair is appended with `L`. */
  lemma PathDExtends(pairs: seq<string>, p: string)
    ensures PathD([p]) == "M " + p
    ensures |pairs| > 0 ==> PathD(pairs + [p]) == PathD(pairs) + " L " + p
  {
    if |pairs| > 0 {
      JoinSnoc(" L ", pairs, p);
    }
  }

  /** Python's `range(start, stop, step)` for a positive step. */
  function PyRange(start: int, stop: int, step: int): (r: seq<int>)
    requires step > 0
    ensures forall i :: 0 <= i < |r| ==> r[i] == start + i * step && r[i] < stop
    ensures start + |r| * step >= stop
    decreases stop - start
  {
    if start >= stop then []
    else
      var rest := PyRange(start + step, stop, step);
      var r := [start] + rest;
      forall i | 1 <= i < |r| ensures r[i] == start + i * step {
        MulPred(i, step);
      }
      MulPred(|r|, step);
      r
  }

  lemma MulPred(i: int, step: int)
    ensures (i - 1) * step == i * step - step
  {
  }

  /** The `y` values of the horizontal grid lines, `range(0, height, 40)`. */
  function GridYs(): seq<int>
  {
    PyRange(0, ChartHeight, GridStep)
  }

  function GridLine(y: int): string
  {
    "<line class='grid' x1='0' y1='" + IntToString(y) + "' x2='" + IntToString(ChartWidth)
      + "' y2='" + IntToString(y) + "' />"
  }

  /** `''.join(<grid line> for y in ys)` */
  function GridLines(ys: seq<int>): string
  {
    if ys == [] then "" else GridLine(ys[0]) + GridLines(ys[1..])
  }

  /** The grid markup of `a + b` is that of `a` followed by that of `b`: one `<line>`
      element per value, in the order of the values. */
  lemma {:induction false} GridLinesAppend(a: seq<int>, b: seq<int>)
    ensures GridLines([]) == ""
    ensures |a| == 1 ==> GridLines(a) == GridLine(a[0])
    ensures GridLines(a + b) == GridLines(a) + GridLines(b)
  {
    if a == [] {
      assert a + b == b;
    } else {
      assert (a + b)[0] == a[0] && (a + b)[1..] == a[1..] + b;
      GridLinesAppend(a[1..], b);
      if |a| == 1 {
        assert a[1..] == [];
      }
    }
  }

  /** `range(0, 200, 40)` yields exactly the five values 0, 40, 80, 120 and 160. */
  lemma GridIsFiveLines()
    ensures GridYs() == [0, 40, 80, 120, 160]
  {
    var r := GridYs();
    assert |r| * 40 >= 200;
    assert |r| == 5;
  }

  lemma {:induction false} JoinedPairsCounts(parts: seq<string>)
    requires |parts| > 0
    requires forall i :: 0 <= i < |parts| ==> CountChar(',', parts[i]) == 1 && 'L' !in parts[i]
    ensures CountChar(',', Join(" L ", parts)) == |parts|
    ensures CountChar('L', Join(" L ", parts)) == |parts| - 1
  {
    if |parts| > 1 {
      JoinedPairsCounts(parts[1..]);
      var rest := Join(" L ", parts[1..]);
      assert Join(" L ", parts) == parts[0] + " L " + rest;
      CountCharAppend(',', parts[0] + " L ", rest);
      CountCharAppend(',', parts[0], " L ");
      CountCharAppend('L', parts[0] + " L ", rest);
      CountCharAppend('L', parts[0], " L ");
    }
  }

  /** `str(float)` never writes a comma or a capital L. */
  ghost predicate PlainNumberText(show: real -> string)
  {
    forall r :: ',' !in show(r) && 'L' !in show(r)
  }

  /** The path data start with `"M "` and hold exactly one `"px,py"` pair per point:
      one comma per point and one `L` between each two consecutive pairs. */
  lemma ChartPathHasOnePairPerPoint(show: real -> string, points: seq<Point>)
    requires |points| > 0
    requires PlainNumberText(show)
    ensures PathD(PathPairs(show, points))[..2] == "M "
    ensures CountChar(',', PathD(PathPairs(show, points))) == |points|
    ensures CountChar('L', PathD(PathPairs(show, points))) == |points| - 1
  {
    var pairs := PathPairs(show, points);
    forall i | 0 <= i < |pairs| ensures CountChar(',', pairs[i]) == 1 && 'L' !in pairs[i] {
      var p := Pixels(points)[i];
      assert pairs[i] == show(p.0) + "," + show(p.1);
      CountCharAppend(',', show(p.0) + ",", show(p.1));
      CountCharAppend(',', show(p.0), ",");
    }
    JoinedPairsCounts(pairs);
    CountCharAppend(',', "M ", Join(" L ", pairs));
    CountCharAppend('L', "M ", Join(" L ", pairs));
  }

  /** The part of the chart document before the path data: the start of the document, and
      the opening of the path's `d` attribute. */
  function ChartHead(): string
  {
    ChartStart() + "<path d=\""
  }

  /** The `svg` element's opening, the style, the grid lines and the indent of the path. */
  function ChartStart(): string
  {
    var w, h := IntToString(ChartWidth), IntToString(ChartHeight);
    "\n"
    + "    <svg viewBox=\"0 0 " + w + " " + h + "\" xmlns=\"http://www.w3.org/2000/svg\">\n"
    + "      <style>\n"
    + "        .axis { stroke:#888; stroke-width:0.5 }\n"
    + "        .grid { stroke:#ddd; stroke-width:0.5 }\n"
    + "        .tide-line { fill:none; stroke:#007BFF; stroke-width:2 }\n"
    + "        text { font-family: system-ui; font-size: 10px; fill: #444 }\n"
    + "      </style>\n"
    + "      <!-- Horizontal grid lines -->\n"
    + "      " + GridLines(GridYs()) + "\n"
    + "      <!-- Tide line -->\n"
    + "      "
  }

  /** The part of the chart document after the path data: the end of the path and the axes. */
  function ChartTail(): string
  {
    var w, h := IntToString(ChartWidth), IntToString(ChartHeight);
    "\" class=\"tide-line\" />\n"
    + "      <!-- Axes -->\n"
    + "      <line x1=\"0\" y1=\"" + h + "\" x2=\"" + w + "\" y2=\"" + h + "\" class=\"axis\" />\n"
    + "      <line x1=\"0\" y1=\"0\" x2=\"0\" y2=\"" + h + "\" class=\"axis\" />\n"
    + "    </svg>\n"
    + "    "
  }

  /** The chart document around the escaped path data. */
  function ChartSvg(pathD: string): string
  {
    ChartHead() + Escape(pathD) + ChartTail()
  }

  /** The path data sit in the `d` attribute of the path element: the head ends by opening
      that attribute, the tail starts by closing it, and path data without `&`, `<` or `>`
      appear there unchanged. */
  lemma ChartSvgFrame(pathD: string)
    ensures |ChartHead()| >= 9 && ChartHead()[|ChartHead()| - 9..] == "<path d=\""
    ensures ChartTail()[..1] == "\""
    ensures '&' !in pathD && '<' !in pathD && '>' !in pathD ==>
      ChartSvg(pathD) == ChartHead() + pathD + ChartTail()
  {
    var start := ChartStart();
    assert ChartHead()[|start|..] == "<path d=\"";
    assert ChartTail()[0] == '"';
  }

  /** The decode loop: the records that decode, as points, in input order. */
  method DecodeAll(cal: Calendar, tides: seq<Json>) returns (points: seq<Point>)
    ensures points == DecodedPoints(cal, tides)
  {
    points := [];
    for i := 0 to |tides|
      invariant points == DecodedPoints(cal, tides[..i])
    {
      DecodedPointsSnoc(cal, tides, i);
      var p := DecodeRecord(cal, tides[i]);
      if p.Some? {
        points := points + [p.value];
      }
    }
    assert tides[..|tides|] == tides;
  }

  /** The scaling loop: one `"px,py"` entry per point, in order. */
  method ScalePath(show: real -> string, points: seq<Point>) returns (pathPoints: seq<string>)
    requires |points| > 0
    ensures pathPoints == PathPairs(show, points)
  {
    var ys := Heights(points);
    var minY, maxY := MinOf(ys), MaxOf(ys);
    var hRange := HeightRange(minY, maxY);

    pathPoints := [];
    for j := 0 to |points|
      invariant |pathPoints| == j
      invariant forall k :: 0 <= k < j ==>
        pathPoints[k] == PairText(show, ScaledWith(points, minY, hRange)[k])
    {
      var x := PixelX(points[j].hour);
      var y := PixelY(points[j].height, minY, hRange);
      pathPoints := pathPoints + [show(x) + "," + show(y)];
    }
  }

  /** `generate_tide_chart(tides)`: a placeholder for an empty list, another when no record
      decodes, and otherwise the chart of the decoded points in input order. */
  method GenerateTideChart(cal: Calendar, show: real -> string, tides: seq<Json>) returns (svg: string)
    ensures tides == [] ==> svg == NoDataSvg
    ensures tides != [] && DecodedPoints(cal, tides) == [] ==> svg == NoValidDataSvg
    ensures tides != [] && DecodedPoints(cal, tides) != [] ==>
      svg == ChartSvg(PathD(PathPairs(show, DecodedPoints(cal, tides))))
  {
    if tides == [] {
      return NoDataSvg;
    }
    var points := DecodeAll(cal, tides);
    if points == [] {
      return NoValidDataSvg;
    }
    var pathPoints := ScalePath(show, points);
    var pathD := PathD(pathPoints);
    svg := ChartSvg(pathD);
  }
}
