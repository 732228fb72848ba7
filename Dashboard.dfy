/** The decision helpers of the dashboard page: the age preset table, the
    "Apply" action, the rolling buffer of the last 120 readings, the
    sparkline window, deviation, trend, and the OK / Warn / Alert badge.
    Temperatures, lux and hysteresis are `real`: the source computes with
    comparison and subtraction on them, and its IEEE doubles round where
    `real` is exact. */
module Dashboard {

  datatype Reading = Reading(ts: int, t: string, temp: real, lux: real)

  datatype Preset = Preset(temp: real, lux: real, hys: real, note: string)

  // ----- recommendByAge (page.tsx:15-21) -----

  /** `recommendByAge`: the preset of the age's band. The recommended
      values stay within the range of the table. */
  function RecommendByAge(days: int): (p: Preset)
    ensures 24.0 <= p.temp <= 34.0 && 12.0 <= p.lux <= 22.0 && 0.7 <= p.hys <= 1.5
    ensures days <= 3 ==> p.temp == 34.0
    ensures days > 21 ==> p.temp == 24.0
  {
    if days <= 3 then Preset(34.0, 22.0, 1.5, "Brooding 0–3 hari")
    else if days <= 7 then Preset(32.0, 22.0, 1.3, "Brooding 4–7 hari")
    else if days <= 14 then Preset(30.0, 18.0, 1.0, "Minggu 2")
    else if days <= 21 then Preset(28.0, 15.0, 0.8, "Minggu 3")
    else Preset(24.0, 12.0, 0.7, "Minggu 4+")
  }

  /** The upper ends of the first four age bands, in days. */
  const BandLimits: seq<int> := [3, 7, 14, 21]

  /** The five bands' presets, youngest first. */
  const PresetTable: seq<Preset> :=
    [Preset(34.0, 22.0, 1.5, "Brooding 0–3 hari"),
     Preset(32.0, 22.0, 1.3, "Brooding 4–7 hari"),
     Preset(30.0, 18.0, 1.0, "Minggu 2"),
     Preset(28.0, 15.0, 0.8, "Minggu 3"),
     Preset(24.0, 12.0, 0.7, "Minggu 4+")]

  /** How many of the limits the age is past. */
  function CountPassed(limits: seq<int>, days: int): (n: nat)
    ensures n <= |limits|
  {
    if |limits| == 0 then 0
    else (if days > limits[0] then 1 else 0) + CountPassed(limits[1..], days)
  }

  /** The band an age falls into: 0 for days <= 3, ..., 4 for days > 21. */
  function AgeBand(days: int): (b: nat)
    ensures b < |PresetTable|
  {
    CountPassed(BandLimits, days)
  }

  /** `recommendByAge` is the table entry of the age's band. */
  lemma RecommendByAgeIsTable(days: int)
    ensures RecommendByAge(days) == PresetTable[AgeBand(days)]
  {
    assert BandLimits[1..] == [7, 14, 21];
    assert [7, 14, 21][1..] == [14, 21];
    assert [14, 21][1..] == [21];
    assert [21][1..] == [];
    assert CountPassed([21], days) == if days > 21 then 1 else 0;
    assert CountPassed([14, 21], days) == (if days > 14 then 1 else 0) + CountPassed([21], days);
    assert CountPassed([7, 14, 21], days) == (if days > 7 then 1 else 0) + CountPassed([14, 21], days);
  }

  lemma {:induction false} CountPassedMonotone(limits: seq<int>, d1: int, d2: int)
    requires d1 <= d2
    ensures CountPassed(limits, d1) <= CountPassed(limits, d2)
  {
    if |limits| > 0 {
      CountPassedMonotone(limits[1..], d1, d2);
    }
  }

  /** An older flock never gets a higher recommended temperature, lux or
      hysteresis. */
  lemma RecommendByAgeMonotone(d1: int, d2: int)
    requires d1 <= d2
    ensures RecommendByAge(d2).temp <= RecommendByAge(d1).temp
    ensures RecommendByAge(d2).lux <= RecommendByAge(d1).lux
    ensures RecommendByAge(d2).hys <= RecommendByAge(d1).hys
  {
    RecommendByAgeIsTable(d1);
    RecommendByAgeIsTable(d2);
    CountPassedMonotone(BandLimits, d1, d2);
  }

  // ----- setpoints and applyPreset (page.tsx:41-57) -----

  /** The state of the dashboard that the helpers read: the readings buffer,
      the three setpoints and the age field. */
  datatype Dash = Dash(rows: seq<Reading>, tempSet: real, luxSet: real, hys: real, ageDays: int)

  /** `applyPreset`: the three setter calls with the preset for the current
      age field. */
  function ApplyPreset(d: Dash): (r: Dash)
    ensures r.rows == d.rows && r.ageDays == d.ageDays
    ensures r.tempSet == RecommendByAge(d.ageDays).temp
    ensures r.luxSet == RecommendByAge(d.ageDays).lux
    ensures r.hys == RecommendByAge(d.ageDays).hys
  {
    var p := RecommendByAge(d.ageDays);
    d.(tempSet := p.temp, luxSet := p.lux, hys := p.hys)
  }

  /** Pressing "Apply" twice is the same as pressing it once. */
  lemma ApplyPresetIdempotent(d: Dash)
    ensures ApplyPreset(ApplyPreset(d)) == ApplyPreset(d)
  {
  }

  /** A quick-pick button (page.tsx:172-176) as written:
      `setAgeDays(age); setTimeout(applyPreset, 0)`. The `applyPreset` handed
      to setTimeout is the closure of the render in which the button was
      clicked, so it reads the age field as it was BEFORE the click. */
  function QuickPickAsWritten(d: Dash, age: int): (r: Dash)
    ensures r == ApplyPreset(d).(ageDays := age)
  {
    var p := RecommendByAge(d.ageDays);
    d.(ageDays := age, tempSet := p.temp, luxSet := p.lux, hys := p.hys)
  }

  /** The quick-pick as intended: the age becomes `age` and the setpoints
      become that age's preset. */
  function QuickPick(d: Dash, age: int): (r: Dash)
    ensures r.rows == d.rows && r.ageDays == age
    ensures r.tempSet == RecommendByAge(age).temp
    ensures r.luxSet == RecommendByAge(age).lux
    ensures r.hys == RecommendByAge(age).hys
  {
    ApplyPreset(d.(ageDays := age))
  }

  /** With the age field at 0, the "14d" button leaves the brooding
      setpoints (34 °C) in place instead of week 2's 30 °C. */
  lemma QuickPickAsWrittenIsStale(rows: seq<Reading>)
    ensures QuickPickAsWritten(Dash(rows, 27.0, 15.0, 0.7, 0), 14).tempSet == 34.0
    ensures QuickPick(Dash(rows, 27.0, 15.0, 0.7, 0), 14).tempSet == 30.0
  {
  }

  /** The written quick-pick does what is intended exactly when the old and
      the new age are in the same band. */
  lemma QuickPickAsWrittenAgrees(d: Dash, age: int)
    ensures QuickPickAsWritten(d, age) == QuickPick(d, age) <==> AgeBand(d.ageDays) == AgeBand(age)
  {
    RecommendByAgeIsTable(d.ageDays);
    RecommendByAgeIsTable(age);
  }

  // ----- the rolling buffer and the spark window (page.tsx:71, 77-78) -----

  /** `slice(-n)` for n > 0: the last n elements, or all when there are
      fewer. */
  function TakeLast<T>(s: seq<T>, n: nat): (r: seq<T>)
    requires n > 0
    ensures |r| == if |s| < n then |s| else n
    ensures r == s[|s| - |r|..]
  {
    if |s| <= n then s else s[|s| - n..]
  }

  const BufferCap: nat := 120

  /** One timer tick: `p => [...p.slice(-119), reading]`. */
  function PushReading(rows: seq<Reading>, x: Reading): (r: seq<Reading>)
    ensures |r| == if |rows| + 1 < BufferCap then |rows| + 1 else BufferCap
    ensures r[|r| - 1] == x
    ensures r[..|r| - 1] == rows[|rows| - (|r| - 1)..]
  {
    TakeLast(rows, BufferCap - 1) + [x]
  }

  /** The buffer after the readings xs arrived one tick at a time: it never
      holds more than 120 readings and ends with the latest arrival. */
  function PushAll(rows: seq<Reading>, xs: seq<Reading>): (r: seq<Reading>)
    ensures |rows| <= BufferCap ==> |r| <= BufferCap
    ensures |xs| > 0 ==> |r| > 0 && r[|r| - 1] == xs[|xs| - 1]
    decreases |xs|
  {
    if |xs| == 0 then rows
    else
      var p := PushReading(rows, xs[0]);
      var rest := xs[1..];
      assert |p| <= BufferCap && p[|p| - 1] == xs[0];
      assert |rest| > 0 ==> rest[|rest| - 1] == xs[|xs| - 1];
      var r := PushAll(p, rest);
      assert |rest| == 0 ==> r == p;
      r
  }

  /** One tick keeps the last 120 readings of the buffer followed by the
      new one. */
  lemma PushReadingIsWindow(rows: seq<Reading>, x: Reading)
    ensures PushReading(rows, x) == TakeLast(rows + [x], BufferCap)
  {
    var a := PushReading(rows, x);
    var b := TakeLast(rows + [x], BufferCap);
    assert |a| == |b|;
    forall i | 0 <= i < |a| ensures a[i] == b[i] {
      if i < |a| - 1 {
        assert a[i] == rows[|rows| - (|a| - 1) + i];
        assert b[i] == (rows + [x])[|rows| + 1 - |b| + i];
      }
    }
  }

  /** The buffer is always the last (up to) 120 readings of everything
      that arrived, in arrival order. */
  lemma {:induction false} PushAllIsWindow(rows: seq<Reading>, xs: seq<Reading>)
    requires |rows| <= BufferCap
    ensures PushAll(rows, xs) == TakeLast(rows + xs, BufferCap)
    decreases |xs|
  {
    if |xs| == 0 {
      assert rows + xs == rows;
    } else {
      var h := rows + [xs[0]];
      var rows' := PushReading(rows, xs[0]);
      calc {
        PushAll(rows, xs);
        PushAll(rows', xs[1..]);
        { PushAllIsWindow(rows', xs[1..]); }
        TakeLast(rows' + xs[1..], BufferCap);
        { PushReadingIsWindow(rows, xs[0]); }
        TakeLast(TakeLast(h, BufferCap) + xs[1..], BufferCap);
        { TakeLastAbsorbs(h, xs[1..]); }
        TakeLast(h + xs[1..], BufferCap);
        { assert h + xs[1..] == rows + xs; }
        TakeLast(rows + xs, BufferCap);
      }
    }
  }

  /** Trimming before appending more does not change the final window. */
  lemma TakeLastAbsorbs(h: seq<Reading>, ys: seq<Reading>)
    ensures TakeLast(TakeLast(h, BufferCap) + ys, BufferCap) == TakeLast(h + ys, BufferCap)
  {
    var t := TakeLast(h, BufferCap);
    var a := TakeLast(t + ys, BufferCap);
    var b := TakeLast(h + ys, BufferCap);
    assert |a| == |b|;
    forall i | 0 <= i < |a| ensures a[i] == b[i] {
      var j := |t + ys| - |a| + i;
      var j' := |h + ys| - |b| + i;
      assert a[i] == (t + ys)[j];
      assert b[i] == (h + ys)[j'];
      if j < |t| {
        assert (t + ys)[j] == t[j] == h[|h| - |t| + j];
      } else {
        assert (t + ys)[j] == ys[j - |t|];
      }
    }
  }

  const SparkLength: nat := 30

  datatype SparkPoint = SparkPoint(x: string, y: real)

  /** `rows.slice(-30).map(r => ({ x: r.t, y: r.temp }))`. */
  function SparkTemp(rows: seq<Reading>): (r: seq<SparkPoint>)
    ensures |r| == if |rows| < SparkLength then |rows| else SparkLength
    ensures forall i :: 0 <= i < |r| ==>
              r[i] == SparkPoint(rows[|rows| - |r| + i].t, rows[|rows| - |r| + i].temp)
  {
    var w := TakeLast(rows, SparkLength);
    seq(|w|, i requires 0 <= i < |w| => SparkPoint(w[i].t, w[i].temp))
  }

  /** `rows.slice(-30).map(r => ({ x: r.t, y: r.lux }))`. */
  function SparkLux(rows: seq<Reading>): (r: seq<SparkPoint>)
    ensures |r| == if |rows| < SparkLength then |rows| else SparkLength
    ensures forall i :: 0 <= i < |r| ==>
              r[i] == SparkPoint(rows[|rows| - |r| + i].t, rows[|rows| - |r| + i].lux)
  {
    var w := TakeLast(rows, SparkLength);
    seq(|w|, i requires 0 <= i < |w| => SparkPoint(w[i].t, w[i].lux))
  }

  /** The sparklines of the 120-reading buffer show the last 30 readings of
      the whole history: the buffer's trimming never cuts into them. */
  lemma SparkOfBuffer(rows: seq<Reading>, xs: seq<Reading>)
    requires |rows| <= BufferCap
    ensures SparkTemp(PushAll(rows, xs)) == SparkTemp(rows + xs)
    ensures SparkLux(PushAll(rows, xs)) == SparkLux(rows + xs)
  {
    PushAllIsWindow(rows, xs);
    var h := rows + xs;
    var b := TakeLast(h, BufferCap);
    assert TakeLast(b, SparkLength) == TakeLast(h, SparkLength);
  }

  // ----- deviation and trend (page.tsx:75, 81-85) -----

  function Temps(rows: seq<Reading>): (r: seq<real>)
    ensures |r| == |rows| && forall i :: 0 <= i < |rows| ==> r[i] == rows[i].temp
  {
    seq(|rows|, i requires 0 <= i < |rows| => rows[i].temp)
  }

  function Luxes(rows: seq<Reading>): (r: seq<real>)
    ensures |r| == |rows| && forall i :: 0 <= i < |rows| ==> r[i] == rows[i].lux
  {
    seq(|rows|, i requires 0 <= i < |rows| => rows[i].lux)
  }

  /** `tempDev`: the latest temperature minus the setpoint, 0 with no
      reading. */
  function TempDev(rows: seq<Reading>, tempSet: real): (dev: real)
    ensures |rows| == 0 ==> dev == 0.0
    ensures |rows| > 0 ==> tempSet + dev == rows[|rows| - 1].temp
  {
    if |rows| == 0 then 0.0 else rows[|rows| - 1].temp - tempSet
  }

  /** `luxDev`. */
  function LuxDev(rows: seq<Reading>, luxSet: real): (dev: real)
    ensures |rows| == 0 ==> dev == 0.0
    ensures |rows| > 0 ==> luxSet + dev == rows[|rows| - 1].lux
  {
    if |rows| == 0 then 0.0 else rows[|rows| - 1].lux - luxSet
  }

  /** After a tick the deviation is that of the new reading. */
  lemma DevAfterPush(rows: seq<Reading>, x: Reading, tempSet: real, luxSet: real)
    ensures TempDev(PushReading(rows, x), tempSet) == x.temp - tempSet
    ensures LuxDev(PushReading(rows, x), luxSet) == x.lux - luxSet
  {
  }

  /** The lag the page uses: `slope(arr)` with the default k = 10. */
  const SlopeLag: nat := 10

  /** `slope(arr, k)`: the change over the last k steps, or 0 when the
      series has at most k points. */
  function Slope(arr: seq<real>, k: nat): (r: real)
    ensures |arr| <= k || k == 0 ==> r == 0.0
  {
    if |arr| > k then arr[|arr| - 1] - arr[|arr| - 1 - k] else 0.0
  }

  /** Sum of the successive differences of a series. */
  function SumOfSteps(s: seq<real>): real
    decreases |s|
  {
    if |s| < 2 then 0.0 else (s[1] - s[0]) + SumOfSteps(s[1..])
  }

  lemma {:induction false} SumOfStepsTelescopes(s: seq<real>)
    requires |s| > 0
    ensures SumOfSteps(s) == s[|s| - 1] - s[0]
    decreases |s|
  {
    if |s| >= 2 {
      SumOfStepsTelescopes(s[1..]);
    }
  }

  /** The slope is the sum of the last k single-step changes. */
  lemma SlopeIsSumOfSteps(arr: seq<real>, k: nat)
    requires |arr| > k
    ensures Slope(arr, k) == SumOfSteps(arr[|arr| - 1 - k..])
  {
    SumOfStepsTelescopes(arr[|arr| - 1 - k..]);
  }

  function Abs(x: real): real
  {
    if x < 0.0 then -x else x
  }

  /** n steps of size `step`, added up one at a time. */
  function Times(n: nat, step: real): real
  {
    if n == 0 then 0.0 else step + Times(n - 1, step)
  }

  lemma {:induction false} TimesIsProduct(n: nat, step: real)
    ensures Times(n, step) == n as real * step
  {
    if n > 0 {
      TimesIsProduct(n - 1, step);
      assert n as real * step == step + (n - 1) as real * step;
    }
  }

  /** Number of single steps in a series. */
  function Steps(s: seq<real>): nat
  {
    if |s| < 2 then 0 else |s| - 1
  }

  /** Every single step of the series is at most `step` in size. */
  ghost predicate StepsAtMost(s: seq<real>, step: real)
  {
    forall i, j :: 0 <= i && j == i + 1 && j < |s| ==> Abs(s[j] - s[i]) <= step
  }

  lemma {:induction false} SumOfStepsBounded(s: seq<real>, step: real)
    requires StepsAtMost(s, step)
    ensures Abs(SumOfSteps(s)) <= Times(Steps(s), step)
    decreases |s|
  {
    if |s| >= 2 {
      var t := s[1..];
      SuffixStepsAtMost(s, 1, step);
      SumOfStepsBounded(t, step);
      assert Abs(s[1] - s[0]) <= step;
      assert Steps(s) == Steps(t) + 1;
    }
  }

  /** A series whose single steps are at most `step` in size has a slope of
      at most k * step in size. */
  lemma SlopeBounded(arr: seq<real>, k: nat, step: real)
    requires 0.0 <= step && StepsAtMost(arr, step)
    ensures Abs(Slope(arr, k)) <= k as real * step
    ensures |arr| <= k ==> Slope(arr, k) == 0.0
  {
    TimesIsProduct(k, step);
    if |arr| > k {
      var start := |arr| - 1 - k;
      var w := arr[start..];
      SuffixStepsAtMost(arr, start, step);
      SlopeIsSumOfSteps(arr, k);
      SumOfStepsBounded(w, step);
      assert Steps(w) == k;
    } else {
      assert 0.0 <= k as real * step;
    }
  }

  lemma SuffixStepsAtMost(arr: seq<real>, start: nat, step: real)
    requires start <= |arr| && StepsAtMost(arr, step)
    ensures StepsAtMost(arr[start..], step)
  {
    var w := arr[start..];
    forall i, j | 0 <= i && j == i + 1 && j < |w| ensures Abs(w[j] - w[i]) <= step {
      var i', j' := start + i, start + j;
      assert w[j] == arr[j'] && w[i] == arr[i'];
      assert j' == i' + 1;
    }
  }

  // ----- badge (page.tsx:90-96) -----

  datatype Badge = Ok | Warn | Alert {
    function Label(): string
    {
      match this
      case Ok => "OK"
      case Warn => "Warn"
      case Alert => "Alert"
    }

    function Cls(): string
    {
      match this
      case Ok => "badge-ok"
      case Warn => "badge-warn"
      case Alert => "badge-danger"
    }

    function Severity(): nat
    {
      match this
      case Ok => 0
      case Warn => 1
      case Alert => 2
    }
  }

  /** `badge(dev, s)` with the page's hysteresis `hys`. */
  function ClassifyBadge(dev: real, s: real, hys: real): (b: Badge)
    ensures b == Alert <==> dev > hys || s > 0.6
    ensures b == Ok ==> Abs(dev) <= hys / 2.0 && Abs(s) <= 0.3
  {
    if dev > hys || s > 0.6 then Alert
    else if Abs(dev) > hys / 2.0 || Abs(s) > 0.3 then Warn
    else Ok
  }

  /** The three labels and the order in which their conditions are read. */
  lemma BadgeCases(dev: real, s: real, hys: real)
    ensures ClassifyBadge(dev, s, hys) == Alert <==> dev > hys || s > 0.6
    ensures ClassifyBadge(dev, s, hys) == Warn <==>
              !(dev > hys || s > 0.6) && (Abs(dev) > hys / 2.0 || Abs(s) > 0.3)
    ensures ClassifyBadge(dev, s, hys) == Ok <==>
              dev <= hys && s <= 0.6 && Abs(dev) <= hys / 2.0 && Abs(s) <= 0.3
  {
  }

  /** Only a value ABOVE target raises Alert: without a steep rise, a
      reading below target, however far, gives at most Warn. */
  lemma BelowTargetNeverAlert(dev: real, s: real, hys: real)
    requires 0.0 <= hys && dev <= 0.0 && s <= 0.6
    ensures ClassifyBadge(dev, s, hys) != Alert
    ensures dev < -hys / 2.0 ==> ClassifyBadge(dev, s, hys) == Warn
  {
  }

  /** A larger deviation above target, or a steeper rise, never gives a
      milder badge. */
  lemma BadgeMonotone(dev1: real, dev2: real, s1: real, s2: real, hys: real)
    requires 0.0 <= hys && 0.0 <= dev1 <= dev2 && 0.0 <= s1 <= s2
    ensures ClassifyBadge(dev1, s1, hys).Severity() <= ClassifyBadge(dev2, s2, hys).Severity()
  {
  }

  /** The temperature card's badge: Alert exactly when the latest reading
      is more than hys above the setpoint or the temperature rose by more
      than 0.6 over the last ten steps. */
  function TempBadge(d: Dash): (b: Badge)
    ensures b == Alert <==> TempDev(d.rows, d.tempSet) > d.hys || Slope(Temps(d.rows), SlopeLag) > 0.6
  {
    ClassifyBadge(TempDev(d.rows, d.tempSet), Slope(Temps(d.rows), SlopeLag), d.hys)
  }

  /** The lux card's badge. It is measured against the same `hys` as the
      temperature card. */
  function LuxBadge(d: Dash): (b: Badge)
    ensures b == Alert <==> LuxDev(d.rows, d.luxSet) > d.hys || Slope(Luxes(d.rows), SlopeLag) > 0.6
  {
    ClassifyBadge(LuxDev(d.rows, d.luxSet), Slope(Luxes(d.rows), SlopeLag), d.hys)
  }

  /** Each badge shows its own label and its own style class. */
  lemma BadgeDisplayDistinct(b1: Badge, b2: Badge)
    ensures b1.Label() == b2.Label() <==> b1 == b2
    ensures b1.Cls() == b2.Cls() <==> b1 == b2
  {
  }

  /** What the cards display: the temperature card reads "Alert", in the
      "badge-danger" style, exactly when the reading is more than hys above
      the setpoint or the trend is above 0.6; the lux card likewise. */
  lemma CardsShowBadges(d: Dash)
    ensures TempBadge(d).Label() == "Alert" <==>
              TempDev(d.rows, d.tempSet) > d.hys || Slope(Temps(d.rows), SlopeLag) > 0.6
    ensures LuxBadge(d).Label() == "Alert" <==>
              LuxDev(d.rows, d.luxSet) > d.hys || Slope(Luxes(d.rows), SlopeLag) > 0.6
    ensures TempBadge(d).Cls() == "badge-danger" <==> TempBadge(d).Label() == "Alert"
    ensures LuxBadge(d).Cls() == "badge-danger" <==> LuxBadge(d).Label() == "Alert"
  {
  }

  /** Before the eleventh reading there is no trend, so the badges depend
      on the deviation alone; with no reading at all both cards show OK
      exactly when hys is not negative. */
  lemma BadgesWithoutTrend(d: Dash)
    requires |d.rows| <= SlopeLag
    ensures TempBadge(d) == ClassifyBadge(TempDev(d.rows, d.tempSet), 0.0, d.hys)
    ensures LuxBadge(d) == ClassifyBadge(LuxDev(d.rows, d.luxSet), 0.0, d.hys)
    ensures |d.rows| == 0 ==> (TempBadge(d) == Ok <==> 0.0 <= d.hys)
    ensures |d.rows| == 0 ==> (LuxBadge(d) == Ok <==> 0.0 <= d.hys)
  {
  }
}
