/** The data-preparation layer of the scatter-plot chart: parsing race times,
    picking the largest time, normalising the dataset, the axis domains and
    the colour of each point. */
module Chart {

  import opened Wrappers
  import opened Decimal
  import opened Types

  // ---------------------------------------------------------------------
  // Race times "M:SS"
  // ---------------------------------------------------------------------

  /** The two numbers of a race time. */
  datatype Clock = Clock(minutes: nat, seconds: nat)

  /** Index of the first ':' in t, or |t| when there is none. */
  function FirstColon(t: string): (k: nat)
    ensures k <= |t|
    ensures k < |t| ==> t[k] == ':'
    ensures forall j :: 0 <= j < k ==> t[j] != ':'
    decreases |t|
  {
    if |t| == 0 || t[0] == ':' then 0 else 1 + FirstColon(t[1..])
  }

  /** `time.split(':').map(Number)`, taken as a pair, on the strings where
      both pieces are digit strings; every other string is rejected.
      ParseJoin and TimeTextIff state what it accepts and returns. */
  function ParseTime(t: string): Option<Clock> {
    var k := FirstColon(t);
    if k < |t| && IsDigits(t[..k]) && IsDigits(t[k + 1..]) then
      Some(Clock(Value(t[..k]), Value(t[k + 1..])))
    else
      None
  }

  predicate IsTimeText(t: string) {
    ParseTime(t).Some?
  }

  predicate AllTimeTexts(times: seq<string>) {
    forall i :: 0 <= i < |times| ==> IsTimeText(times[i])
  }

  /** `getTimeInSeconds`: the text's minutes times 60 plus its seconds
      (stated for every well-formed text by TimeInSecondsOfJoin). */
  function GetTimeInSeconds(t: string): nat
    requires IsTimeText(t)
  {
    var c := ParseTime(t).value;
    c.minutes * 60 + c.seconds
  }

  /** The canonical spelling of a clock: both numbers without padding. */
  function FormatTime(c: Clock): string {
    Digits(c.minutes) + ":" + Digits(c.seconds)
  }

  /** The dataset's own "M:SS" spelling: minutes without padding, seconds
      (below 60) with two digits. */
  function FormatRaceTime(c: Clock): string
    requires c.seconds < 60
  {
    Digits(c.minutes) + ":" + Pad2(c.seconds)
  }

  lemma {:induction false} FirstColonOfJoin(a: string, b: string)
    requires forall i :: 0 <= i < |a| ==> a[i] != ':'
    ensures FirstColon(a + ":" + b) == |a|
  {
    if |a| > 0 {
      assert (a + ":" + b)[1..] == a[1..] + ":" + b;
      FirstColonOfJoin(a[1..], b);
    }
  }

  /** Two digit strings joined by ':' parse to the numbers they denote. */
  lemma ParseJoin(a: string, b: string)
    requires IsDigits(a) && IsDigits(b)
    ensures ParseTime(a + ":" + b) == Some(Clock(Value(a), Value(b)))
  {
    var t := a + ":" + b;
    FirstColonOfJoin(a, b);
    assert t[..|a|] == a;
    assert t[|a| + 1..] == b;
  }

  /** The strings ParseTime accepts are exactly digits ':' digits. */
  lemma TimeTextIff(t: string)
    ensures IsTimeText(t) <==> exists a, b :: IsDigits(a) && IsDigits(b) && t == a + ":" + b
  {
    if IsTimeText(t) {
      var k := FirstColon(t);
      assert t == t[..k] + ":" + t[k + 1..];
    }
    if exists a, b :: IsDigits(a) && IsDigits(b) && t == a + ":" + b {
      var a, b :| IsDigits(a) && IsDigits(b) && t == a + ":" + b;
      ParseJoin(a, b);
    }
  }

  /** For a well-formed "m:s", getTimeInSeconds is m * 60 + s. */
  lemma TimeInSecondsOfJoin(a: string, b: string)
    requires IsDigits(a) && IsDigits(b)
    ensures IsTimeText(a + ":" + b)
    ensures GetTimeInSeconds(a + ":" + b) == Value(a) * 60 + Value(b)
  {
    ParseJoin(a, b);
  }

  /** Parsing the canonical spelling of a clock gives the clock back. */
  lemma ParseFormat(c: Clock)
    ensures ParseTime(FormatTime(c)) == Some(c)
  {
    ParseJoin(Digits(c.minutes), Digits(c.seconds));
    ValueOfDigits(c.minutes);
    ValueOfDigits(c.seconds);
  }

  /** Formatting a parsed time gives the text back when neither piece has a
      leading zero. */
  lemma FormatParse(a: string, b: string)
    requires IsCanonical(a) && IsCanonical(b)
    ensures IsTimeText(a + ":" + b)
    ensures FormatTime(ParseTime(a + ":" + b).value) == a + ":" + b
  {
    ParseJoin(a, b);
    DigitsOfValue(a);
    DigitsOfValue(b);
  }

  /** With seconds below 60, a total comes from one clock only. */
  lemma ClockTotalInjective(c1: Clock, c2: Clock)
    requires c1.seconds < 60 && c2.seconds < 60
    ensures c1.minutes * 60 + c1.seconds == c2.minutes * 60 + c2.seconds ==> c1 == c2
  {
    if c1.minutes < c2.minutes {
      assert c1.minutes * 60 + 60 <= c2.minutes * 60;
    } else if c2.minutes < c1.minutes {
      assert c2.minutes * 60 + 60 <= c1.minutes * 60;
    }
  }

  /** Canonical texts whose seconds are below 60 have distinct totals. */
  lemma TotalSecondsInjective(c1: Clock, c2: Clock)
    requires c1.seconds < 60 && c2.seconds < 60
    ensures IsTimeText(FormatTime(c1)) && IsTimeText(FormatTime(c2))
    ensures GetTimeInSeconds(FormatTime(c1)) == GetTimeInSeconds(FormatTime(c2)) ==> c1 == c2
  {
    ParseFormat(c1);
    ParseFormat(c2);
    ClockTotalInjective(c1, c2);
  }

  /** Parsing the "M:SS" spelling of a clock gives the clock back. */
  lemma ParseFormatRaceTime(c: Clock)
    requires c.seconds < 60
    ensures ParseTime(FormatRaceTime(c)) == Some(c)
  {
    ParseJoin(Digits(c.minutes), Pad2(c.seconds));
    ValueOfDigits(c.minutes);
    ValueOfPad2(c.seconds);
  }

  /** A text with unpadded minutes and two-digit seconds below 60, parsed and
      spelled again, is the original text ("2:05", "37:00"). */
  lemma FormatParseRaceTime(a: string, b: string)
    requires IsCanonical(a) && |b| == 2 && IsDigits(b) && Value(b) < 60
    ensures IsTimeText(a + ":" + b)
    ensures ParseTime(a + ":" + b).value.seconds < 60
    ensures FormatRaceTime(ParseTime(a + ":" + b).value) == a + ":" + b
  {
    ParseJoin(a, b);
    DigitsOfValue(a);
    Pad2OfValue(b);
  }

  /** Distinct "M:SS" texts with seconds below 60 have distinct totals. */
  lemma RaceTimeInjective(c1: Clock, c2: Clock)
    requires c1.seconds < 60 && c2.seconds < 60
    ensures IsTimeText(FormatRaceTime(c1)) && IsTimeText(FormatRaceTime(c2))
    ensures GetTimeInSeconds(FormatRaceTime(c1)) == GetTimeInSeconds(FormatRaceTime(c2)) ==> c1 == c2
  {
    ParseFormatRaceTime(c1);
    ParseFormatRaceTime(c2);
    ClockTotalInjective(c1, c2);
  }

  /** Without the bound on the seconds, different texts share a total. */
  lemma TotalSecondsCollide()
    ensures IsTimeText("1:05") && IsTimeText("0:65")
    ensures GetTimeInSeconds("1:05") == GetTimeInSeconds("0:65") == 65
  {
    assert "1:05" == "1" + ":" + "05";
    assert "0:65" == "0" + ":" + "65";
    TimeInSecondsOfJoin("1", "05");
    TimeInSecondsOfJoin("0", "65");
    ValueOfTwoDigits('0', '5');
    ValueOfTwoDigits('6', '5');
  }

  lemma TimeInSecondsExample1()
    ensures IsTimeText("2:05") && GetTimeInSeconds("2:05") == 125
  {
    assert "2:05" == "2" + ":" + "05";
    TimeInSecondsOfJoin("2", "05");
    ValueOfTwoDigits('0', '5');
  }

  lemma TimeInSecondsExample2()
    ensures IsTimeText("0:59") && GetTimeInSeconds("0:59") == 59
  {
    assert "0:59" == "0" + ":" + "59";
    TimeInSecondsOfJoin("0", "59");
    ValueOfTwoDigits('5', '9');
  }

  lemma TimeInSecondsExample3()
    ensures IsTimeText("10:00") && GetTimeInSeconds("10:00") == 600
  {
    assert "10:00" == "10" + ":" + "00";
    TimeInSecondsOfJoin("10", "00");
    ValueOfTwoDigits('1', '0');
    ValueOfTwoDigits('0', '0');
  }

  // ---------------------------------------------------------------------
  // getMaxTime
  // ---------------------------------------------------------------------

  /** The starting value of getMaxTime's running maximum. */
  const Sentinel: string := "0:0"

  lemma SentinelIsZero()
    ensures IsTimeText(Sentinel) && GetTimeInSeconds(Sentinel) == 0
  {
    assert Sentinel == "0" + ":" + "0";
    TimeInSecondsOfJoin("0", "0");
  }

  /** What getMaxTime returns for `times`:
      - a time text whose total is at least that of every element;
      - the sentinel when that total is 0;
      - otherwise the FIRST element that reaches it.
      (Only lists of time texts have a maximum in this sense.) */
  ghost predicate IsMaxTimeOf(times: seq<string>, r: string) {
    && AllTimeTexts(times)
    && IsTimeText(r)
    && (forall i :: 0 <= i < |times| ==> GetTimeInSeconds(times[i]) <= GetTimeInSeconds(r))
    && (GetTimeInSeconds(r) == 0 ==> r == Sentinel)
    && (GetTimeInSeconds(r) > 0 ==>
          exists k :: 0 <= k < |times| && times[k] == r &&
            forall j :: 0 <= j < k ==> GetTimeInSeconds(times[j]) < GetTimeInSeconds(r))
  }

  /** `getMaxTime`: a running maximum that starts at "0:0" and is replaced
      only by a strictly larger total. */
  method GetMaxTime(times: seq<string>) returns (maxTime: string)
    requires AllTimeTexts(times)
    ensures IsMaxTimeOf(times, maxTime)
  {
    SentinelIsZero();
    maxTime := Sentinel;
    ghost var at: int := -1;
    var i := 0;
    while i < |times|
      invariant 0 <= i <= |times|
      invariant IsTimeText(maxTime)
      invariant -1 <= at < i
      invariant forall j :: 0 <= j < i ==> GetTimeInSeconds(times[j]) <= GetTimeInSeconds(maxTime)
      invariant at == -1 ==> maxTime == Sentinel
      invariant at >= 0 ==> times[at] == maxTime && GetTimeInSeconds(maxTime) > 0
      invariant at >= 0 ==> forall j :: 0 <= j < at ==> GetTimeInSeconds(times[j]) < GetTimeInSeconds(maxTime)
    {
      var time := times[i];
      var totalSeconds := GetTimeInSeconds(time);
      var maxTotalSeconds := GetTimeInSeconds(maxTime);
      if totalSeconds > maxTotalSeconds {
        maxTime := time;
        at := i;
      }
      i := i + 1;
    }
  }

  /** The description above picks out a single string. */
  lemma MaxTimeOfUnique(times: seq<string>, r1: string, r2: string)
    requires AllTimeTexts(times)
    requires IsMaxTimeOf(times, r1) && IsMaxTimeOf(times, r2)
    ensures r1 == r2
  {
    var s1, s2 := GetTimeInSeconds(r1), GetTimeInSeconds(r2);
    if s1 > 0 && s2 > 0 {
      var k1 :| 0 <= k1 < |times| && times[k1] == r1 &&
        forall j :: 0 <= j < k1 ==> GetTimeInSeconds(times[j]) < s1;
      var k2 :| 0 <= k2 < |times| && times[k2] == r2 &&
        forall j :: 0 <= j < k2 ==> GetTimeInSeconds(times[j]) < s2;
      assert s1 == s2;
    }
  }

  /** An empty list gives the sentinel. */
  lemma MaxTimeOfEmpty(r: string)
    requires IsMaxTimeOf([], r)
    ensures r == Sentinel
  {
  }

  /** A list whose every time totals 0 gives the sentinel, not an element. */
  lemma MaxTimeOfAllZero(times: seq<string>, r: string)
    requires AllTimeTexts(times)
    requires forall i :: 0 <= i < |times| ==> GetTimeInSeconds(times[i]) == 0
    requires IsMaxTimeOf(times, r)
    ensures r == Sentinel
  {
  }

  /** The maximum is either the sentinel or an element of the list. */
  lemma MaxTimeOfIsElement(times: seq<string>, r: string)
    requires AllTimeTexts(times)
    requires IsMaxTimeOf(times, r)
    ensures r == Sentinel || r in times
  {
  }

  /** The maximum is the first element that reaches the largest positive
      total; later elements with the same total are not chosen. */
  lemma {:induction false} MaxTimeOfFirstMaximal(times: seq<string>, r: string, i: nat)
    requires IsMaxTimeOf(times, r)
    requires i < |times| && GetTimeInSeconds(times[i]) > 0
    requires forall j :: 0 <= j < |times| ==> GetTimeInSeconds(times[j]) <= GetTimeInSeconds(times[i])
    requires forall j :: 0 <= j < i ==> GetTimeInSeconds(times[j]) < GetTimeInSeconds(times[i])
    ensures r == times[i]
  {
    var k :| 0 <= k < |times| && times[k] == r &&
      forall j :: 0 <= j < k ==> GetTimeInSeconds(times[j]) < GetTimeInSeconds(r);
    assert GetTimeInSeconds(r) == GetTimeInSeconds(times[i]);
    assert !(k < i) && !(i < k);
  }

  /** The totals of the three times of the example below. */
  lemma MaxTimeExampleTotals()
    ensures IsTimeText("1:30") && GetTimeInSeconds("1:30") == 90
    ensures IsTimeText("2:00") && GetTimeInSeconds("2:00") == 120
    ensures IsTimeText("0:45") && GetTimeInSeconds("0:45") == 45
  {
    assert "1:30" == "1" + ":" + "30";
    assert "2:00" == "2" + ":" + "00";
    assert "0:45" == "0" + ":" + "45";
    TimeInSecondsOfJoin("1", "30");
    TimeInSecondsOfJoin("2", "00");
    TimeInSecondsOfJoin("0", "45");
    ValueOfTwoDigits('3', '0');
    ValueOfTwoDigits('0', '0');
    ValueOfTwoDigits('4', '5');
  }

  lemma MaxTimeExample(r: string)
    requires IsMaxTimeOf(["1:30", "2:00", "0:45"], r)
    ensures r == "2:00"
  {
    MaxTimeExampleTotals();
    MaxTimeOfFirstMaximal(["1:30", "2:00", "0:45"], r, 1);
  }

  // ---------------------------------------------------------------------
  // Dataset normalisation (updateDataset)
  // ---------------------------------------------------------------------

  /** A fetched row whose `Time` is still a well-formed "M:SS" text. */
  predicate IsRawItem(d: DatasetItem) {
    d.time.Text? && IsTimeText(d.time.text)
  }

  predicate AllRaw(ds: seq<DatasetItem>) {
    forall i :: 0 <= i < |ds| ==> IsRawItem(ds[i])
  }

  /** Every row's `Time` is a moment. */
  predicate Normalized(ds: seq<DatasetItem>) {
    forall i :: 0 <= i < |ds| ==> ds[i].time.Moment?
  }

  /** The texts of the `Time` fields of raw rows. */
  function RawTimes(ds: seq<DatasetItem>): (ts: seq<string>)
    requires AllRaw(ds)
    ensures AllTimeTexts(ts)
  {
    seq(|ds|, i requires 0 <= i < |ds| => ds[i].time.text)
  }

  /** One row after normalisation: `Time` becomes the moment M minutes and
      S seconds after 1970-01-01 00:00, and no other field changes. */
  function Normalize(d: DatasetItem): (n: DatasetItem)
    requires IsRawItem(d)
    ensures n.time.Moment? && n.time.offset == GetTimeInSeconds(d.time.text)
    ensures n.(time := d.time) == d
  {
    var c := ParseTime(d.time.text).value;
    d.(time := Moment(c.minutes * 60 + c.seconds))
  }

  /** Normalising a row whose time reads a ':' b places it Value(a) * 60 +
      Value(b) seconds after the base moment. */
  lemma NormalizeJoin(d: DatasetItem, a: string, b: string)
    requires IsDigits(a) && IsDigits(b) && d.time == Text(a + ":" + b)
    ensures IsRawItem(d) && Normalize(d).time == Moment(Value(a) * 60 + Value(b))
  {
    TimeInSecondsOfJoin(a, b);
  }

  // ---------------------------------------------------------------------
  // Axis domains (createAxes)
  // ---------------------------------------------------------------------

  /** A closed interval of data values. */
  datatype Domain = Domain(lo: int, hi: int)

  /** d3's `extent`: the smallest and the largest value of a non-empty list. */
  function Extent(xs: seq<int>): (e: Domain)
    requires |xs| > 0
    ensures e.lo in xs && e.hi in xs
    ensures forall i :: 0 <= i < |xs| ==> e.lo <= xs[i] <= e.hi
    decreases |xs|
  {
    if |xs| == 1 then Domain(xs[0], xs[0])
    else
      var rest := Extent(xs[1..]);
      Domain(if xs[0] < rest.lo then xs[0] else rest.lo,
             if xs[0] > rest.hi then xs[0] else rest.hi)
  }

  function Years(ds: seq<DatasetItem>): seq<int> {
    seq(|ds|, i requires 0 <= i < |ds| => ds[i].year)
  }

  function Offsets(ds: seq<DatasetItem>): seq<int>
    requires Normalized(ds)
  {
    seq(|ds|, i requires 0 <= i < |ds| => ds[i].time.offset)
  }

  /** The x domain: one year before the earliest year, up to the latest. */
  function XDomain(ds: seq<DatasetItem>): (x: Domain)
    requires |ds| > 0
    ensures x.lo < x.hi
    ensures exists i :: 0 <= i < |ds| && ds[i].year == x.lo + 1
    ensures exists i :: 0 <= i < |ds| && ds[i].year == x.hi
    ensures forall i :: 0 <= i < |ds| ==> x.lo < ds[i].year <= x.hi
  {
    var years := Years(ds);
    var e := Extent(years);
    assert forall i :: 0 <= i < |ds| ==> ds[i].year == years[i];
    Domain(e.lo - 1, e.hi)
  }

  /** The y domain: the earliest and the latest normalised time. */
  function YDomain(ds: seq<DatasetItem>): (y: Domain)
    requires |ds| > 0 && Normalized(ds)
    ensures y.lo <= y.hi
    ensures exists i :: 0 <= i < |ds| && ds[i].time.offset == y.lo
    ensures exists i :: 0 <= i < |ds| && ds[i].time.offset == y.hi
    ensures forall i :: 0 <= i < |ds| ==> y.lo <= ds[i].time.offset <= y.hi
  {
    var offsets := Offsets(ds);
    assert forall i :: 0 <= i < |ds| ==> ds[i].time.offset == offsets[i];
    Extent(offsets)
  }

  lemma XDomainExample(a: DatasetItem, b: DatasetItem)
    requires a.year == 1994 && b.year == 2005
    ensures XDomain([a, b]) == Domain(1993, 2005)
  {
    assert Years([a, b]) == [1994, 2005];
    assert Years([a, b])[1..] == [2005];
  }

  /** getMaxTime over the raw times names the top of the y axis: the
      largest time of a non-empty dataset, after normalisation. */
  lemma MaxTimeIsYDomainTop(raw: seq<DatasetItem>, ds: seq<DatasetItem>, r: string)
    requires |raw| > 0 && AllRaw(raw)
    requires |ds| == |raw| && forall i :: 0 <= i < |raw| ==> ds[i] == Normalize(raw[i])
    requires IsMaxTimeOf(RawTimes(raw), r)
    ensures Normalized(ds) && YDomain(ds).hi == GetTimeInSeconds(r)
  {
    var times := RawTimes(raw);
    var top := YDomain(ds).hi;
    var j :| 0 <= j < |ds| && ds[j].time.offset == top;
    assert GetTimeInSeconds(times[j]) == top;
    if GetTimeInSeconds(r) > 0 {
      var k :| 0 <= k < |times| && times[k] == r;
      assert ds[k].time.offset == GetTimeInSeconds(r);
    }
  }

  // ---------------------------------------------------------------------
  // Legend and point colour (legends, createPlots)
  // ---------------------------------------------------------------------

  datatype Legend = Legend(caption: string, color: string)

  datatype Legends = Legends(noAllegations: Legend, allegations: Legend)

  /** The chart's `legends` table. */
  const ChartLegends: Legends := Legends(
    Legend("No doping allegations", "orange"),
    Legend("Riders with doping allegations", "steelblue"))

  /** The legend entries in the order the legend draws them; no two share a
      colour. */
  function LegendEntries(): (es: seq<Legend>)
    ensures forall i, j :: 0 <= i < j < |es| ==> es[i].color != es[j].color
  {
    [ChartLegends.noAllegations, ChartLegends.allegations]
  }

  /** The fill of a row's circle: the allegations colour exactly when the
      row carries a doping note. */
  function FillColor(d: DatasetItem): (c: string)
    ensures c == ChartLegends.allegations.color <==> d.doping != ""
    ensures c == ChartLegends.noAllegations.color <==> d.doping == ""
  {
    if d.doping != "" then ChartLegends.allegations.color else ChartLegends.noAllegations.color
  }

  /** Every point's colour appears in the legend, on the entry whose caption
      matches the point's category, and the colour tells the category. */
  lemma FillColorInLegend(d: DatasetItem, e: DatasetItem)
    ensures exists i :: 0 <= i < |LegendEntries()| && LegendEntries()[i].color == FillColor(d)
    ensures FillColor(d) == FillColor(e) <==> (d.doping == "") == (e.doping == "")
  {
    if d.doping == "" {
      assert LegendEntries()[0].color == FillColor(d);
    } else {
      assert LegendEntries()[1].color == FillColor(d);
    }
  }

  // ---------------------------------------------------------------------
  // The chart object
  // ---------------------------------------------------------------------

  /** Where the dataset is fetched from. */
  const DataUrl: string :=
    "https://raw.githubusercontent.com/freeCodeCamp/ProjectReferenceData/master/cyclist-data.json"

  class ScatterPlotChart {
    var title: string
    var description: string
    var width: int
    var height: int
    var spacing: int
    var margin: ChartMargin
    var dataUrl: string
    var dataset: seq<DatasetItem>
    /** The domains of the x and y scales; None until the axes are made. */
    var xDomain: Option<Domain>
    var yDomain: Option<Domain>

    constructor (options: ChartOptions)
      ensures title == options.title && description == options.description
      ensures width == options.width && height == options.height
      ensures spacing == options.spacing
      ensures margin.Uniform() && margin.top == options.spacing
      ensures dataUrl == DataUrl && dataset == []
      ensures xDomain == None && yDomain == None
    {
      title := options.title;
      description := options.description;
      width := options.width;
      height := options.height;
      spacing := options.spacing;
      margin := ChartMargin(options.spacing, options.spacing, options.spacing, options.spacing);
      dataUrl := DataUrl;
      dataset := [];
      xDomain := None;
      yDomain := None;
    }

    /** `updateDataset`: rewrites each row's `Time` in place, keeping the
        length, the order and every other field. */
    method UpdateDataset()
      requires AllRaw(dataset)
      modifies this`dataset
      ensures |dataset| == |old(dataset)|
      ensures forall i :: 0 <= i < |dataset| ==> dataset[i] == Normalize(old(dataset)[i])
      ensures Normalized(dataset)
    {
      var i := 0;
      while i < |dataset|
        invariant 0 <= i <= |dataset| == |old(dataset)|
        invariant forall j :: 0 <= j < i ==> dataset[j] == Normalize(old(dataset)[j])
        invariant forall j :: i <= j < |dataset| ==> dataset[j] == old(dataset)[j]
      {
        var d := dataset[i];
        var c := ParseTime(d.time.text).value;
        dataset := dataset[i := d.(time := Moment(c.minutes * 60 + c.seconds))];
        i := i + 1;
      }
    }

    /** The data steps of `init`: store the fetched rows (the fetch itself is
        the parameter) and normalise them. */
    method Init(fetched: seq<DatasetItem>)
      requires AllRaw(fetched)
      modifies this`dataset
      ensures |dataset| == |fetched|
      ensures forall i :: 0 <= i < |fetched| ==> dataset[i] == Normalize(fetched[i])
      ensures Normalized(dataset)
    {
      dataset := fetched;
      UpdateDataset();
    }

    /** The domain part of `createAxes`, for a non-empty normalised dataset. */
    method CreateAxes()
      requires |dataset| > 0 && Normalized(dataset)
      modifies this`xDomain, this`yDomain
      ensures xDomain == Some(XDomain(dataset)) && yDomain == Some(YDomain(dataset))
    {
      var years := Extent(Years(dataset));
      xDomain := Some(Domain(years.lo - 1, years.hi));
      yDomain := Some(Extent(Offsets(dataset)));
    }
  }

}
