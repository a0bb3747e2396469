/** The rolling window behind the dashboard's live chart: six parallel
    series, one value appended to each per poll, the oldest dropped from all
    six once the label series holds more than MaxDataPoints entries. */
module Chart {

  /** The most points the chart keeps. */
  const MaxDataPoints: nat := 20

  /** The proximity value plotted for a fence status: 50 when the fence is
      "ACTIVE", 0 for any other status. */
  function FenceProximity(status: string): (v: int)
    ensures v == 50 <==> status == "ACTIVE"
    ensures v == 0 <==> status != "ACTIVE"
  {
    if status == "ACTIVE" then 50 else 0
  }

  /** The values of one poll that go to the chart. */
  datatype ChartSample = ChartSample(
    timeLabel: string,
    fenceStatus: string,
    temperature: real,
    humidity: real,
    batteryLevel: real,
    solarPower: real)

  /** `s` with `x` pushed at the back and, when `overflow`, the front shifted off. */
  function Roll<T>(s: seq<T>, x: T, overflow: bool): (r: seq<T>)
    ensures |r| == if overflow then |s| else |s| + 1
    // the newest value is last, unless an empty series was shifted
    ensures !overflow || s != [] ==> r[|r| - 1] == x
    // the older values keep their order, the front one gone on overflow
    ensures !overflow ==> r[..|r| - 1] == s
    ensures overflow && s != [] ==> r[..|r| - 1] == s[1..]
  {
    if overflow then (s + [x])[1..] else s + [x]
  }

  /** The newest at most MaxDataPoints elements of `xs`, oldest first. */
  function Window<T>(xs: seq<T>): (w: seq<T>)
    ensures |w| == if |xs| <= MaxDataPoints then |xs| else MaxDataPoints
    ensures w == xs[|xs| - |w|..]
  {
    if |xs| <= MaxDataPoints then xs else xs[|xs| - MaxDataPoints..]
  }

  /** Rolling a value into the window of a history gives the window of the
      extended history: the chart always shows the newest MaxDataPoints
      values pushed, in the order they arrived. */
  lemma RollWindow<T>(xs: seq<T>, x: T)
    ensures Roll(Window(xs), x, |Window(xs)| + 1 > MaxDataPoints) == Window(xs + [x])
  {
    if |xs| >= MaxDataPoints {
      var n := |xs|;
      var w := xs[n - MaxDataPoints..];
      assert Window(xs) == w;
      assert (w + [x])[1..] == xs[n - MaxDataPoints + 1..] + [x];
      assert (xs + [x])[n + 1 - MaxDataPoints..] == xs[n - MaxDataPoints + 1..] + [x];
    }
  }

  /** The chart's six series. */
  class ChartData {
    var labels: seq<string>
    var proximity: seq<int>
    var temperature: seq<real>
    var humidity: seq<real>
    var battery: seq<real>
    var solarOutput: seq<real>

    /** The six series have one length, at most MaxDataPoints. */
    ghost predicate Valid()
      reads this
    {
      && |proximity| == |labels|
      && |temperature| == |labels|
      && |humidity| == |labels|
      && |battery| == |labels|
      && |solarOutput| == |labels|
      && |labels| <= MaxDataPoints
    }

    constructor ()
      ensures Valid()
      ensures labels == [] && proximity == [] && temperature == []
      ensures humidity == [] && battery == [] && solarOutput == []
    {
      labels, proximity, temperature := [], [], [];
      humidity, battery, solarOutput := [], [], [];
    }

    /** Pushes one sample onto every series, then shifts the oldest point
        off every series when the labels have grown past MaxDataPoints. */
    method UpdateChart(sample: ChartSample)
      modifies this
      ensures var overflow := |old(labels)| + 1 > MaxDataPoints;
        && labels == Roll(old(labels), sample.timeLabel, overflow)
        && proximity == Roll(old(proximity), FenceProximity(sample.fenceStatus), overflow)
        && temperature == Roll(old(temperature), sample.temperature, overflow)
        && humidity == Roll(old(humidity), sample.humidity, overflow)
        && battery == Roll(old(battery), sample.batteryLevel, overflow)
        && solarOutput == Roll(old(solarOutput), sample.solarPower, overflow)
      ensures old(Valid()) ==> Valid()
      ensures old(Valid()) && |old(labels)| < MaxDataPoints ==> |labels| == |old(labels)| + 1
      ensures old(Valid()) && |old(labels)| == MaxDataPoints ==> |labels| == MaxDataPoints
    {
      labels := labels + [sample.timeLabel];
      proximity := proximity + [FenceProximity(sample.fenceStatus)];
      temperature := temperature + [sample.temperature];
      humidity := humidity + [sample.humidity];
      battery := battery + [sample.batteryLevel];
      solarOutput := solarOutput + [sample.solarPower];

      if |labels| > MaxDataPoints {
        labels := labels[1..];
        proximity := proximity[1..];
        temperature := temperature[1..];
        humidity := humidity[1..];
        battery := battery[1..];
        solarOutput := solarOutput[1..];
      }
    }
  }
}
