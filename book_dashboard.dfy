/**
 * The numeric logic of the book dashboard: per-chapter series rescaled to
 * [0, 1], the action-density rescale, the average sentiment, the sensory and
 * timeline projections, the sensory-pie angle bookkeeping and the six rules
 * that turn a metric into a label. Numbers are exact reals.
 */
module BookDashboard {
  import opened Wrappers

  /** A chapter row: field name to number; a missing field is `undefined`. */
  type ChapterRecord = map<string, real>

  /** `item[key] || 0`: a missing field reads as 0 (a zero field is 0 either way). */
  function Field(item: ChapterRecord, key: string): real {
    if key in item then item[key] else 0.0
  }

  /** The field `key` of every chapter, in chapter order. */
  function Values(data: seq<ChapterRecord>, key: string): (vs: seq<real>)
    ensures |vs| == |data|
    ensures forall i :: 0 <= i < |data| ==> vs[i] == Field(data[i], key)
  {
    seq(|data|, i requires 0 <= i < |data| => Field(data[i], key))
  }

  // ----- minimum and maximum (`Math.min(...values)`, `Math.max(...values)`) -----

  /** The position of a smallest element. */
  function MinIndex(s: seq<real>): (k: nat)
    requires |s| > 0
    ensures k < |s|
    ensures forall i :: 0 <= i < |s| ==> s[k] <= s[i]
  {
    if |s| == 1 then 0
    else
      var k := MinIndex(s[1..]) + 1;
      if s[0] <= s[k] then 0 else k
  }

  /** The position of a largest element. */
  function MaxIndex(s: seq<real>): (k: nat)
    requires |s| > 0
    ensures k < |s|
    ensures forall i :: 0 <= i < |s| ==> s[i] <= s[k]
  {
    if |s| == 1 then 0
    else
      var k := MaxIndex(s[1..]) + 1;
      if s[0] >= s[k] then 0 else k
  }

  function Lo(data: seq<ChapterRecord>, key: string): real
    requires |data| > 0
  {
    var vs := Values(data, key); vs[MinIndex(vs)]
  }

  function Hi(data: seq<ChapterRecord>, key: string): real
    requires |data| > 0
  {
    var vs := Values(data, key); vs[MaxIndex(vs)]
  }

  lemma LoHiBound(data: seq<ChapterRecord>, key: string, i: int)
    requires 0 <= i < |data|
    ensures Lo(data, key) <= Field(data[i], key) <= Hi(data, key)
  {
    var vs := Values(data, key);
    assert vs[i] == Field(data[i], key);
  }

  /** A chapter whose value no other chapter undercuts holds the minimum. */
  lemma LoIsLeast(data: seq<ChapterRecord>, key: string, i: int)
    requires 0 <= i < |data|
    requires forall j :: 0 <= j < |data| ==> Field(data[i], key) <= Field(data[j], key)
    ensures Lo(data, key) == Field(data[i], key)
  {
    var vs := Values(data, key);
    LoHiBound(data, key, i);
    assert vs[MinIndex(vs)] == Field(data[MinIndex(vs)], key);
  }

  /** A chapter whose value no other chapter exceeds holds the maximum. */
  lemma HiIsGreatest(data: seq<ChapterRecord>, key: string, i: int)
    requires 0 <= i < |data|
    requires forall j :: 0 <= j < |data| ==> Field(data[j], key) <= Field(data[i], key)
    ensures Hi(data, key) == Field(data[i], key)
  {
    var vs := Values(data, key);
    LoHiBound(data, key, i);
    assert vs[MaxIndex(vs)] == Field(data[MaxIndex(vs)], key);
  }

  /** Two chapters at least 0.001 apart put the series on the rescaling branch. */
  lemma WideRange(data: seq<ChapterRecord>, key: string, i: int, j: int)
    requires 0 <= i < |data| && 0 <= j < |data|
    requires Field(data[j], key) - Field(data[i], key) >= 0.001
    ensures Hi(data, key) - Lo(data, key) >= 0.001
  {
    LoHiBound(data, key, i);
    LoHiBound(data, key, j);
  }

  // ----- the degenerate-range ramp -----

  /**
   * The synthetic value of chapter `i` of `n` when a field is flat, as the
   * code computes it: `0.3 + i / (n - 1) * 0.4`. With a single chapter this
   * is 0 / 0, which is NaN; None stands for NaN.
   */
  function RampValueAsWritten(i: nat, n: nat): (r: Option<real>)
    requires i < n
    ensures r.None? <==> n == 1
  {
    if n == 1 then None else Some(0.3 + (i as real / (n - 1) as real) * 0.4)
  }

  /** Every one-chapter series reaches the ramp, and there it is NaN. */
  lemma SingleChapterRampIsNaN(data: seq<ChapterRecord>, key: string)
    requires |data| == 1
    ensures Hi(data, key) - Lo(data, key) < 0.001
    ensures RampValueAsWritten(0, |data|) == None
  {
  }

  /**
   * The ramp used by this model: the code's `0.3 + i / (n - 1) * 0.4` for two
   * or more chapters, and the middle of the band, 0.5, for a single chapter.
   */
  function RampValue(i: nat, n: nat): (r: real)
    requires i < n
    ensures 0.3 <= r <= 0.7
    ensures n >= 2 ==> Some(r) == RampValueAsWritten(i, n)
    ensures n >= 2 && i == 0 ==> r == 0.3
    ensures n >= 2 && i == n - 1 ==> r == 0.7
  {
    if n == 1 then 0.5
    else
      var f := i as real / (n - 1) as real;
      assert 0.0 <= f <= 1.0;
      0.3 + f * 0.4
  }

  /** The ramp strictly increases with the chapter index. */
  lemma RampIncreasing(i: nat, j: nat, n: nat)
    requires i < j < n
    ensures RampValue(i, n) < RampValue(j, n)
  {
    var d := (n - 1) as real;
    assert j as real / d - i as real / d == (j - i) as real / d;
    assert (j - i) as real / d > 0.0;
  }

  // ----- normalizeData -----

  /** `a / d` for `0 <= a <= d` lies in [0, 1], and multiplying back by `d` undoes it. */
  lemma DivBounds(a: real, d: real)
    requires 0.0 <= a <= d && d > 0.0
    ensures 0.0 <= a / d <= 1.0
    ensures a / d * d == a
  {
    var q := a / d;
    assert q * d == a;
  }

  /** Mapping a value in [0, 1] back onto the range from `lo` to `hi`. */
  function Denormalize(r: real, lo: real, hi: real): real {
    r * (hi - lo) + lo
  }

  /** The rescaled value of a chapter: `(v - min) / (max - min)`. */
  function Rescaled(v: real, lo: real, hi: real): (r: real)
    requires lo <= v <= hi && lo < hi
    ensures 0.0 <= r <= 1.0
    ensures Denormalize(r, lo, hi) == v
  {
    DivBounds(v - lo, hi - lo);
    (v - lo) / (hi - lo)
  }

  /**
   * The new value of `key` for chapter `i`: rescaled when the chapter values
   * span at least 0.001, otherwise the ramp value of its position.
   */
  function NormalizedValue(data: seq<ChapterRecord>, key: string, i: nat): (v: real)
    requires i < |data|
    ensures 0.0 <= v <= 1.0
    ensures Hi(data, key) - Lo(data, key) >= 0.001 ==>
              Denormalize(v, Lo(data, key), Hi(data, key)) == Field(data[i], key)
    ensures Hi(data, key) - Lo(data, key) < 0.001 ==> v == RampValue(i, |data|)
  {
    var lo, hi := Lo(data, key), Hi(data, key);
    if hi - lo < 0.001 then RampValue(i, |data|)
    else
      LoHiBound(data, key, i);
      Rescaled(Field(data[i], key), lo, hi)
  }

  /**
   * `normalizeData(data, key)`: every chapter keeps all its fields and gets
   * `key` replaced by a value in [0, 1].
   */
  function NormalizeData(data: seq<ChapterRecord>, key: string): (r: seq<ChapterRecord>)
    ensures |r| == |data|
    ensures forall i :: 0 <= i < |data| ==> key in r[i] && r[i] == data[i][key := r[i][key]]
    ensures forall i :: 0 <= i < |data| ==> 0.0 <= r[i][key] <= 1.0
  {
    seq(|data|, i requires 0 <= i < |data| => data[i][key := NormalizedValue(data, key, i)])
  }

  /** In the rescaling branch, undoing the rescale gives back the chapter's own value. */
  lemma NormalizeInvertible(data: seq<ChapterRecord>, key: string, i: int)
    requires 0 <= i < |data| && Hi(data, key) - Lo(data, key) >= 0.001
    ensures Denormalize(NormalizeData(data, key)[i][key], Lo(data, key), Hi(data, key)) == Field(data[i], key)
  {
  }

  /** In the rescaling branch the smallest value maps to 0 and the largest to 1. */
  lemma NormalizeExtremes(data: seq<ChapterRecord>, key: string, i: int)
    requires 0 <= i < |data| && Hi(data, key) - Lo(data, key) >= 0.001
    ensures Field(data[i], key) == Lo(data, key) ==> NormalizeData(data, key)[i][key] == 0.0
    ensures Field(data[i], key) == Hi(data, key) ==> NormalizeData(data, key)[i][key] == 1.0
  {
    LoHiBound(data, key, i);
    RescaleEnds(Lo(data, key), Hi(data, key));
  }

  lemma RescaleEnds(lo: real, hi: real)
    requires lo < hi
    ensures Rescaled(lo, lo, hi) == 0.0 && Rescaled(hi, lo, hi) == 1.0
  {
    assert (hi - lo) / (hi - lo) == 1.0;
  }

  /** In the rescaling branch chapters keep their order by value. */
  lemma NormalizeMonotone(data: seq<ChapterRecord>, key: string, i: int, j: int)
    requires 0 <= i < |data| && 0 <= j < |data| && Hi(data, key) - Lo(data, key) >= 0.001
    requires Field(data[i], key) <= Field(data[j], key)
    ensures NormalizeData(data, key)[i][key] <= NormalizeData(data, key)[j][key]
  {
    var lo, hi := Lo(data, key), Hi(data, key);
    var r := NormalizeData(data, key);
    LoHiBound(data, key, i);
    LoHiBound(data, key, j);
    assert r[i][key] == Rescaled(Field(data[i], key), lo, hi);
    assert r[j][key] == Rescaled(Field(data[j], key), lo, hi);
    DivMonotone(Field(data[i], key) - lo, Field(data[j], key) - lo, hi - lo);
  }

  lemma DivMonotone(a: real, b: real, d: real)
    requires a <= b && d > 0.0
    ensures a / d <= b / d
  {
    assert a / d * d == a && b / d * d == b;
  }

  /** When the range is under 0.001 chapter `i` gets the ramp value, whatever its own value. */
  lemma NormalizeFlat(data: seq<ChapterRecord>, key: string, i: int)
    requires 0 <= i < |data| && Hi(data, key) - Lo(data, key) < 0.001
    ensures NormalizeData(data, key)[i][key] == RampValue(i, |data|)
  {
  }

  // ----- the action series -----

  /** `value > 1 ? value / 30 : value`: densities above 1 are read on a 0 to 30 scale. */
  function ActionRescale(v: real): (r: real)
    ensures v > 1.0 ==> r * 30.0 == v
    ensures v <= 1.0 ==> r == v
  {
    if v > 1.0 then v / 30.0 else v
  }

  /** A density in [0, 30] always lands in [0, 1]. */
  lemma ActionRescaleBounded(v: real)
    requires 0.0 <= v <= 30.0
    ensures 0.0 <= ActionRescale(v) <= 1.0
  {
  }

  /** One point of the action chart: only a chapter number and the rescaled density. */
  datatype ActionPoint = ActionPoint(chapter: Option<real>, action: real)

  /** `item.chapter_number || item.chapter`: None is `undefined`. */
  function ChapterOf(item: ChapterRecord): (c: Option<real>)
    ensures "chapter_number" in item && item["chapter_number"] != 0.0 ==> c == Some(item["chapter_number"])
    ensures ("chapter_number" !in item || item["chapter_number"] == 0.0) ==>
              c == (if "chapter" in item then Some(item["chapter"]) else None)
  {
    if "chapter_number" in item && item["chapter_number"] != 0.0 then Some(item["chapter_number"])
    else if "chapter" in item then Some(item["chapter"])
    else None
  }

  function ActionData(data: seq<ChapterRecord>): (r: seq<ActionPoint>)
    ensures |r| == |data|
    ensures forall i :: 0 <= i < |data| ==>
              r[i].chapter == ChapterOf(data[i]) &&
              r[i].action == ActionRescale(Field(data[i], "action_density_per_block"))
  {
    seq(|data|, i requires 0 <= i < |data| =>
      ActionPoint(ChapterOf(data[i]), ActionRescale(Field(data[i], "action_density_per_block"))))
  }

  /** Densities within [0, 30] give an action series within [0, 1]. */
  lemma ActionDataBounded(data: seq<ChapterRecord>)
    requires forall i :: 0 <= i < |data| ==> 0.0 <= Field(data[i], "action_density_per_block") <= 30.0
    ensures forall i :: 0 <= i < |data| ==> 0.0 <= ActionData(data)[i].action <= 1.0
  {
    forall i | 0 <= i < |data| ensures 0.0 <= ActionData(data)[i].action <= 1.0 {
      ActionRescaleBounded(Field(data[i], "action_density_per_block"));
    }
  }

  // ----- the average sentiment -----

  /** The sum of `key` over the chapters, missing fields read as 0. */
  function SumField(data: seq<ChapterRecord>, key: string): real {
    if data == [] then 0.0 else SumField(data[..|data| - 1], key) + Field(data[|data| - 1], key)
  }

  /**
   * `chapterMetrics.reduce((sum, item) => sum + (item.avg_sentiment_score || 0), 0) / chapterMetrics.length`.
   * Without chapters this is 0 / 0, NaN; None stands for it.
   */
  method AverageSentiment(data: seq<ChapterRecord>) returns (avg: Option<real>)
    ensures data == [] ==> avg == None
    ensures data != [] ==> avg == Some(SumField(data, "avg_sentiment_score") / |data| as real)
  {
    var sum := 0.0;
    var i := 0;
    while i < |data|
      invariant 0 <= i <= |data|
      invariant sum == SumField(data[..i], "avg_sentiment_score")
    {
      assert data[..i + 1][..i] == data[..i];
      sum := sum + Field(data[i], "avg_sentiment_score");
      i := i + 1;
    }
    assert data[..i] == data;
    if |data| == 0 {
      avg := None;
    } else {
      avg := Some(sum / |data| as real);
    }
  }

  lemma {:induction false} SumFieldBounds(data: seq<ChapterRecord>, key: string, lo: real, hi: real)
    requires forall i :: 0 <= i < |data| ==> lo <= Field(data[i], key) <= hi
    ensures |data| as real * lo <= SumField(data, key) <= |data| as real * hi
  {
    if data != [] {
      var init := data[..|data| - 1];
      assert forall i :: 0 <= i < |init| ==> init[i] == data[i];
      SumFieldBounds(init, key, lo, hi);
    }
  }

  lemma MeanBetween(lo: real, hi: real, sum: real, n: real)
    requires n > 0.0 && n * lo <= sum <= n * hi
    ensures lo <= sum / n <= hi
  {
    var q := sum / n;
    assert q * n == sum;
  }

  /** The mean of values that all lie in [lo, hi] lies in [lo, hi]. */
  lemma MeanOfBounded(data: seq<ChapterRecord>, key: string, lo: real, hi: real)
    requires data != []
    requires forall i :: 0 <= i < |data| ==> lo <= Field(data[i], key) <= hi
    ensures lo <= SumField(data, key) / |data| as real <= hi
  {
    SumFieldBounds(data, key, lo, hi);
    MeanBetween(lo, hi, SumField(data, key), |data| as real);
  }

  /** The average lies between the smallest and the largest chapter sentiment. */
  lemma AverageBetweenExtremes(data: seq<ChapterRecord>)
    requires data != []
    ensures Lo(data, "avg_sentiment_score") <= SumField(data, "avg_sentiment_score") / |data| as real
            <= Hi(data, "avg_sentiment_score")
  {
    var key := "avg_sentiment_score";
    forall i | 0 <= i < |data| ensures Lo(data, key) <= Field(data[i], key) <= Hi(data, key) {
      LoHiBound(data, key, i);
    }
    MeanOfBounded(data, key, Lo(data, key), Hi(data, key));
  }

  // ----- the whole-book metrics and their projections -----

  datatype BookMetrics = BookMetrics(
    fleschKincaidGrade: real,
    totalWordCount: real,
    avgChapterLength: real,
    estimatedReadingTimeHours: real,
    tensionSpikeCount: real,
    emotionalVolatility: real,
    climaxTensionGradient: real,
    thirdPersonPronounRatio: real,
    passiveVoiceRatio: real,
    adjectiveDensity: real,
    adverbDensity: real,
    metaphorSimileDensity: real,
    visualKeywordDensity: real,
    auditoryKeywordDensity: real,
    tactileKeywordDensity: real,
    olfactoryKeywordDensity: real,
    gustatoryKeywordDensity: real,
    estimatedDisturbanceTiming: real,
    estimatedDoorway1Timing: real,
    estimatedMidpointShift: real,
    estimatedDoorway2Timing: real)

  /** The five sense names, in the order the sensory object lists them. */
  const SenseNames: seq<string> := ["visual", "auditory", "tactile", "olfactory", "gustatory"]

  /** The five keyword densities, in the order of `SenseNames`. */
  function SenseDensities(m: BookMetrics): seq<real> {
    [m.visualKeywordDensity, m.auditoryKeywordDensity, m.tactileKeywordDensity,
     m.olfactoryKeywordDensity, m.gustatoryKeywordDensity]
  }

  /** The sensory object as its `Object.entries`: each sense with its density times 100. */
  function SensoryData(m: BookMetrics): (r: seq<(string, real)>)
    ensures |r| == |SenseNames|
    ensures forall k :: 0 <= k < |r| ==> r[k].0 == SenseNames[k] && r[k].1 == SenseDensities(m)[k] * 100.0
  {
    seq(5, k requires 0 <= k < 5 => (SenseNames[k], SenseDensities(m)[k] * 100.0))
  }

  datatype TimelinePoint = TimelinePoint(text: string, percent: real)

  const TimelineLabels: seq<string> :=
    ["First Incident", "Hero's Journey Truly Begins", "Major Turning Point", "Climax"]

  function Timings(m: BookMetrics): seq<real> {
    [m.estimatedDisturbanceTiming, m.estimatedDoorway1Timing, m.estimatedMidpointShift, m.estimatedDoorway2Timing]
  }

  /** The four plot points in fixed order, each with its timing as a percentage. */
  function TimelineData(m: BookMetrics): (r: seq<TimelinePoint>)
    ensures |r| == 4
    ensures forall k :: 0 <= k < 4 ==> r[k].text == TimelineLabels[k] && r[k].percent == Timings(m)[k] * 100.0
  {
    seq(4, k requires 0 <= k < 4 => TimelinePoint(TimelineLabels[k], Timings(m)[k] * 100.0))
  }

  /** Timings inside [0, 1] give percentages inside [0, 100]. */
  lemma TimelinePercentages(m: BookMetrics)
    requires forall k :: 0 <= k < 4 ==> 0.0 <= Timings(m)[k] <= 1.0
    ensures forall k :: 0 <= k < 4 ==> 0.0 <= TimelineData(m)[k].percent <= 100.0
  {
  }

  // ----- the sensory pie -----

  const PieColors: seq<string> := ["#8b5cf6", "#a78bfa", "#c4b5fd", "#ddd6fe", "#ede9fe"]

  /** The sum of the values, `Object.values(data).reduce((sum, val) => sum + val, 0)`. */
  function Total(data: seq<(string, real)>): real {
    if data == [] then 0.0 else Total(data[..|data| - 1]) + data[|data| - 1].1
  }

  /** The slice angle of a value: `val / total * 360`. */
  function SliceAngle(v: real, total: real): real
    requires total != 0.0
  {
    v / total * 360.0
  }

  /** The angle covered by the first `i` slices. */
  function CumAngle(data: seq<(string, real)>, i: nat): real
    requires i <= |data| && Total(data) != 0.0
  {
    if i == 0 then 0.0 else CumAngle(data, i - 1) + SliceAngle(data[i - 1].1, Total(data))
  }

  /** `Math.round`: the nearest integer, halves rounded up. */
  function Round(x: real): (n: int)
    ensures n as real - 0.5 <= x < n as real + 0.5
  {
    (x + 0.5).Floor
  }

  datatype Anchor = Start | End

  /** `midAngle > 90 && midAngle < 270 ? "end" : "start"`. */
  function AnchorFor(midAngle: real): (a: Anchor)
    ensures a == End <==> 90.0 < midAngle < 270.0
  {
    if midAngle > 90.0 && midAngle < 270.0 then End else Start
  }

  /** One label of the pie (its trigonometric coordinates are left out). */
  datatype PieLabel = PieLabel(key: string, color: string, midAngle: real, anchor: Anchor, percent: int)

  /** One slice of the pie: its angular span and SVG large-arc flag. */
  datatype PieSlice = PieSlice(key: string, color: string, start: real, end: real, large: bool)

  /** The label of entry `i` when the shared angle stands at `start`. */
  function LabelAt(data: seq<(string, real)>, i: nat, start: real): PieLabel
    requires i < |data| && Total(data) != 0.0
  {
    var mid := start + SliceAngle(data[i].1, Total(data)) / 2.0;
    PieLabel(data[i].0, PieColors[i % 5], mid, AnchorFor(mid), Round(data[i].1 / Total(data) * 100.0))
  }

  /** The slice of entry `i` when the shared angle stands at `start`. */
  function SliceAt(data: seq<(string, real)>, i: nat, start: real): PieSlice
    requires i < |data| && Total(data) != 0.0
  {
    var angle := SliceAngle(data[i].1, Total(data));
    PieSlice(data[i].0, PieColors[i % 5], start, start + angle, angle > 180.0)
  }

  /**
   * A label sits at the middle of its slice, is anchored at its end exactly
   * on the left half of the circle, and shows the share rounded to a percent.
   */
  lemma LabelFacts(data: seq<(string, real)>, i: nat, start: real)
    requires i < |data| && Total(data) != 0.0
    ensures var l := LabelAt(data, i, start);
            l.key == data[i].0 && l.color == PieColors[i % 5] &&
            l.midAngle == start + SliceAngle(data[i].1, Total(data)) / 2.0 &&
            (l.anchor == End <==> 90.0 < l.midAngle < 270.0) &&
            l.percent as real - 0.5 <= data[i].1 / Total(data) * 100.0 < l.percent as real + 0.5
  {
  }

  /** A slice spans its angle from `start`, and its large-arc flag is set exactly past 180 degrees. */
  lemma SliceFacts(data: seq<(string, real)>, i: nat, start: real)
    requires i < |data| && Total(data) != 0.0
    ensures var p := SliceAt(data, i, start);
            p.key == data[i].0 && p.color == PieColors[i % 5] &&
            p.start == start && p.end - p.start == SliceAngle(data[i].1, Total(data)) &&
            (p.large <==> p.end - p.start > 180.0)
  {
  }

  /** The labels of the first `n` entries when the shared angle starts at `start0`. */
  function Labels(data: seq<(string, real)>, n: nat, start0: real): (ls: seq<PieLabel>)
    requires n <= |data| && Total(data) != 0.0
    ensures |ls| == n
  {
    if n == 0 then [] else Labels(data, n - 1, start0) + [LabelAt(data, n - 1, start0 + CumAngle(data, n - 1))]
  }

  /** The slices of the first `n` entries when the shared angle starts at `start0`. */
  function Slices(data: seq<(string, real)>, n: nat, start0: real): (ps: seq<PieSlice>)
    requires n <= |data| && Total(data) != 0.0
    ensures |ps| == n
  {
    if n == 0 then [] else Slices(data, n - 1, start0) + [SliceAt(data, n - 1, start0 + CumAngle(data, n - 1))]
  }

  lemma {:induction false} LabelsAt(data: seq<(string, real)>, n: nat, start0: real, i: nat)
    requires i < n <= |data| && Total(data) != 0.0
    ensures Labels(data, n, start0)[i] == LabelAt(data, i, start0 + CumAngle(data, i))
  {
    if i < n - 1 {
      LabelsAt(data, n - 1, start0, i);
    }
  }

  lemma {:induction false} SlicesAt(data: seq<(string, real)>, n: nat, start0: real, i: nat)
    requires i < n <= |data| && Total(data) != 0.0
    ensures Slices(data, n, start0)[i] == SliceAt(data, i, start0 + CumAngle(data, i))
  {
    if i < n - 1 {
      SlicesAt(data, n - 1, start0, i);
    }
  }

  /** The label pass: one label per entry, advancing the shared angle by each slice. */
  method LabelPass(data: seq<(string, real)>, start0: real) returns (labels: seq<PieLabel>, start: real)
    requires Total(data) != 0.0
    ensures labels == Labels(data, |data|, start0)
    ensures start == start0 + CumAngle(data, |data|)
  {
    var total := Total(data);
    start := start0;
    labels := [];
    var idx := 0;
    while idx < |data|
      invariant 0 <= idx <= |data|
      invariant start == start0 + CumAngle(data, idx)
      invariant labels == Labels(data, idx, start0)
    {
      var val := data[idx].1;
      var pct := val / total;
      var angle := pct * 360.0;
      var midAngle := start + angle / 2.0;
      var item := PieLabel(data[idx].0, PieColors[idx % |PieColors|], midAngle, AnchorFor(midAngle),
                           Round(val / total * 100.0));
      assert item == LabelAt(data, idx, start);
      labels := labels + [item];
      start := start + angle;
      idx := idx + 1;
    }
  }

  /** The slice pass: one slice per entry, each starting where the previous one ended. */
  method SlicePass(data: seq<(string, real)>, start0: real) returns (slices: seq<PieSlice>, start: real)
    requires Total(data) != 0.0
    ensures slices == Slices(data, |data|, start0)
    ensures start == start0 + CumAngle(data, |data|)
  {
    var total := Total(data);
    start := start0;
    slices := [];
    var idx := 0;
    while idx < |data|
      invariant 0 <= idx <= |data|
      invariant start == start0 + CumAngle(data, idx)
      invariant slices == Slices(data, idx, start0)
    {
      var val := data[idx].1;
      var pct := val / total;
      var angle := pct * 360.0;
      var end := start + angle;
      var large := angle > 180.0;
      var slice := PieSlice(data[idx].0, PieColors[idx % |PieColors|], start, end, large);
      assert slice == SliceAt(data, idx, start);
      slices := slices + [slice];
      start := end;
      idx := idx + 1;
    }
  }

  /**
   * `SensoryPie`: the label pass and then the slice pass share one `start`
   * angle that begins at 0. The label pass leaves it at 360, so the slices
   * are drawn from 360 to 720 degrees.
   */
  method SensoryPie(data: seq<(string, real)>) returns (labels: seq<PieLabel>, slices: seq<PieSlice>)
    requires Total(data) != 0.0
    ensures labels == Labels(data, |data|, 0.0)
    ensures slices == Slices(data, |data|, 360.0)
  {
    var start := 0.0;
    labels, start := LabelPass(data, start);
    AnglesSumTo360(data);
    slices, start := SlicePass(data, start);
  }

  /** The sum of the first `i` values. */
  function PrefixTotal(data: seq<(string, real)>, i: nat): real
    requires i <= |data|
  {
    if i == 0 then 0.0 else PrefixTotal(data, i - 1) + data[i - 1].1
  }

  lemma {:induction false} CumAngleIsPrefixShare(data: seq<(string, real)>, i: nat)
    requires i <= |data| && Total(data) != 0.0
    ensures CumAngle(data, i) == PrefixTotal(data, i) / Total(data) * 360.0
  {
    if i > 0 {
      CumAngleIsPrefixShare(data, i - 1);
      var t := Total(data);
      var a, b := PrefixTotal(data, i - 1), data[i - 1].1;
      assert a / t * 360.0 + b / t * 360.0 == (a + b) / t * 360.0;
    }
  }

  lemma {:induction false} PrefixTotalIsTotal(data: seq<(string, real)>)
    ensures PrefixTotal(data, |data|) == Total(data)
  {
    if data != [] {
      var init := data[..|data| - 1];
      PrefixTotalIsTotal(init);
      PrefixTotalOfPrefix(data, |init|);
    }
  }

  lemma {:induction false} PrefixTotalOfPrefix(data: seq<(string, real)>, i: nat)
    requires i <= |data|
    ensures PrefixTotal(data[..i], i) == PrefixTotal(data, i)
    decreases i
  {
    if i > 0 {
      PrefixTotalOfPrefix(data, i - 1);
      PrefixTotalOfPrefix(data[..i], i - 1);
      assert data[..i][..i - 1] == data[..i - 1];
    }
  }

  /** The slice angles add up to a full turn, so the label pass ends at 360 degrees. */
  lemma AnglesSumTo360(data: seq<(string, real)>)
    requires Total(data) != 0.0
    ensures CumAngle(data, |data|) == 360.0
  {
    CumAngleIsPrefixShare(data, |data|);
    PrefixTotalIsTotal(data);
  }

  /** Consecutive slices meet, and together they cover one turn from 360 to 720 degrees. */
  lemma SlicesTileOneTurn(data: seq<(string, real)>, i: nat)
    requires Total(data) != 0.0 && i < |data|
    ensures 360.0 + CumAngle(data, i) + SliceAngle(data[i].1, Total(data)) == 360.0 + CumAngle(data, i + 1)
    ensures 360.0 + CumAngle(data, |data|) == 720.0
  {
    AnglesSumTo360(data);
  }

  // ----- the six label rules -----

  datatype Sentiment = Negative | Neutral | Positive {
    function Text(): string {
      match this case Negative => "Negative" case Neutral => "Neutral" case Positive => "Positive"
    }
    function Rank(): nat {
      match this case Negative => 0 case Neutral => 1 case Positive => 2
    }
  }

  /** `getSentimentText`. */
  function SentimentText(v: real): (r: Sentiment)
    ensures r == Positive <==> v > 0.05
    ensures r == Negative <==> v < -0.05
    ensures r == Neutral <==> -0.05 <= v <= 0.05
  {
    if v > 0.05 then Positive else if v < -0.05 then Negative else Neutral
  }

  /** The label of the average sentiment; NaN (no chapters) fails both comparisons. */
  function AverageSentimentText(avg: Option<real>): (r: Sentiment)
    ensures avg.None? ==> r == Neutral
    ensures avg.Some? ==> r == SentimentText(avg.value)
  {
    match avg case None => Neutral case Some(v) => SentimentText(v)
  }

  datatype Momentum = Gradual | Moderate | Rising | Steep {
    function Text(): string {
      match this
      case Gradual => "Gradual" case Moderate => "Moderate" case Rising => "Rising" case Steep => "Steep"
    }
    function Rank(): nat {
      match this case Gradual => 0 case Moderate => 1 case Rising => 2 case Steep => 3
    }
  }

  /** `getClimaxMomentumText`. */
  function ClimaxMomentumText(v: real): (r: Momentum)
    ensures r == Steep <==> v > 1.5
    ensures r == Rising <==> 1.0 < v <= 1.5
    ensures r == Moderate <==> 0.5 < v <= 1.0
    ensures r == Gradual <==> v <= 0.5
  {
    if v > 1.5 then Steep else if v > 1.0 then Rising else if v > 0.5 then Moderate else Gradual
  }

  /** The three-step scale shared by volatility, detached tone and descriptiveness. */
  datatype Level = Low | Medium | High {
    function Text(): string {
      match this case Low => "Low" case Medium => "Medium" case High => "High"
    }
    function Rank(): nat {
      match this case Low => 0 case Medium => 1 case High => 2
    }
  }

  /** A `> high ? High : > medium ? Medium : Low` cascade. */
  function LevelOf(v: real, medium: real, high: real): (r: Level)
    requires medium < high
    ensures r == High <==> v > high
    ensures r == Medium <==> medium < v <= high
    ensures r == Low <==> v <= medium
  {
    if v > high then High else if v > medium then Medium else Low
  }

  /** `getEmotionalVolatilityText`. */
  function EmotionalVolatilityText(v: real): (r: Level)
    ensures r == High <==> v > 0.8
    ensures r == Medium <==> 0.5 < v <= 0.8
    ensures r == Low <==> v <= 0.5
  {
    LevelOf(v, 0.5, 0.8)
  }

  datatype PronounStyle = Intimate | Mixed | Observer {
    function Text(): string {
      match this case Intimate => "Intimate" case Mixed => "Mixed" case Observer => "Observer"
    }
    function Rank(): nat {
      match this case Intimate => 0 case Mixed => 1 case Observer => 2
    }
  }

  /** `getPronounStyleText`. */
  function PronounStyleText(v: real): (r: PronounStyle)
    ensures r == Observer <==> v > 0.7
    ensures r == Mixed <==> 0.4 < v <= 0.7
    ensures r == Intimate <==> v <= 0.4
  {
    if v > 0.7 then Observer else if v > 0.4 then Mixed else Intimate
  }

  /** `getDetachedToneText`, shown for the passive-voice ratio. */
  function DetachedToneText(v: real): (r: Level)
    ensures r == High <==> v > 0.6
    ensures r == Medium <==> 0.3 < v <= 0.6
    ensures r == Low <==> v <= 0.3
  {
    LevelOf(v, 0.3, 0.6)
  }

  /** `getDescriptivenessText`: the cascade applied to the sum of the three densities. */
  function DescriptivenessText(adj: real, adv: real, metaphor: real): (r: Level)
    ensures r == High <==> adj + adv + metaphor > 0.2
    ensures r == Medium <==> 0.1 < adj + adv + metaphor <= 0.2
    ensures r == Low <==> adj + adv + metaphor <= 0.1
  {
    LevelOf(adj + adv + metaphor, 0.1, 0.2)
  }

  /** A larger input never yields a lower label. */
  lemma SentimentMonotone(v: real, w: real)
    requires v <= w
    ensures SentimentText(v).Rank() <= SentimentText(w).Rank()
  {
  }

  lemma ClimaxMomentumMonotone(v: real, w: real)
    requires v <= w
    ensures ClimaxMomentumText(v).Rank() <= ClimaxMomentumText(w).Rank()
  {
  }

  lemma EmotionalVolatilityMonotone(v: real, w: real)
    requires v <= w
    ensures EmotionalVolatilityText(v).Rank() <= EmotionalVolatilityText(w).Rank()
  {
  }

  lemma PronounStyleMonotone(v: real, w: real)
    requires v <= w
    ensures PronounStyleText(v).Rank() <= PronounStyleText(w).Rank()
  {
  }

  lemma DetachedToneMonotone(v: real, w: real)
    requires v <= w
    ensures DetachedToneText(v).Rank() <= DetachedToneText(w).Rank()
  {
  }

  /** Raising any one of the three densities never lowers the descriptiveness label. */
  lemma DescriptivenessMonotone(adj: real, adv: real, metaphor: real, adj2: real, adv2: real, metaphor2: real)
    requires adj <= adj2 && adv <= adv2 && metaphor <= metaphor2
    ensures DescriptivenessText(adj, adv, metaphor).Rank() <= DescriptivenessText(adj2, adv2, metaphor2).Rank()
  {
  }
}
