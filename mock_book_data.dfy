/**
 * The fixtures the dashboard falls back on: one book's metrics, its nine
 * chapters, the series derived from them and the book title, together with
 * the labels and branches the dashboard rules take on them.
 */
module MockBookData {
  import opened Wrappers
  import opened JsString
  import opened SupabaseService
  import opened BookDashboard

  const MockBookMetrics: BookMetrics := BookMetrics(
    5.6,      // fleschKincaidGrade
    87500.0,  // totalWordCount
    8750.0,   // avgChapterLength
    6.0,      // estimatedReadingTimeHours
    15.0,     // tensionSpikeCount
    0.85,     // emotionalVolatility
    1.2,      // climaxTensionGradient
    0.75,     // thirdPersonPronounRatio
    0.68,     // passiveVoiceRatio
    0.12,     // adjectiveDensity
    0.08,     // adverbDensity
    0.05,     // metaphorSimileDensity
    0.45,     // visualKeywordDensity
    0.25,     // auditoryKeywordDensity
    0.15,     // tactileKeywordDensity
    0.08,     // olfactoryKeywordDensity
    0.07,     // gustatoryKeywordDensity
    0.15,     // estimatedDisturbanceTiming
    0.2,      // estimatedDoorway1Timing
    0.7,      // estimatedMidpointShift
    0.8)      // estimatedDoorway2Timing

  /** One chapter fixture, field by field. */
  datatype ChapterFixture = ChapterFixture(
    chapter: real, sentiment: real, pace: real, tension: real, action: real, question: real)

  const MockChapters: seq<ChapterFixture> := [
    ChapterFixture(1.0, -0.008, 0.003, 0.003, 5.0, 0.01),
    ChapterFixture(2.0, 0.002, 0.005, 0.008, 13.0, 0.02),
    ChapterFixture(3.0, 0.005, 0.008, 0.012, 10.0, 0.03),
    ChapterFixture(4.0, 0.01, 0.015, 0.02, 5.0, 0.04),
    ChapterFixture(5.0, 0.015, 0.02, 0.025, 13.0, 0.05),
    ChapterFixture(6.0, 0.02, 0.025, 0.03, 18.0, 0.06),
    ChapterFixture(7.0, 0.03, 0.035, 0.04, 29.0, 0.07),
    ChapterFixture(8.0, 0.04, 0.045, 0.05, 28.0, 0.08),
    ChapterFixture(9.0, 0.065, 0.06, 0.065, 7.0, 0.09)]

  /** The fixture as the dashboard sees it: a record keyed by the source's field names. */
  function AsRecord(f: ChapterFixture): (r: ChapterRecord)
    ensures Field(r, "chapter") == f.chapter && Field(r, "avg_sentiment_score") == f.sentiment
    ensures Field(r, "pace_variance") == f.pace && Field(r, "peak_tension_score") == f.tension
    ensures Field(r, "action_density_per_block") == f.action && Field(r, "question_density") == f.question
    ensures "chapter_number" !in r
  {
    map["chapter" := f.chapter, "avg_sentiment_score" := f.sentiment, "pace_variance" := f.pace,
        "peak_tension_score" := f.tension, "action_density_per_block" := f.action,
        "question_density" := f.question]
  }

  /** `mockChapterMetrics`. */
  function MockChapterMetrics(): (data: seq<ChapterRecord>)
    ensures |data| == |MockChapters|
    ensures forall i :: 0 <= i < |data| ==> data[i] == AsRecord(MockChapters[i])
  {
    seq(|MockChapters|, i requires 0 <= i < |MockChapters| => AsRecord(MockChapters[i]))
  }

  /** The chapters are numbered 1 to 9 in order, one record per chapter. */
  lemma ChaptersNumbered()
    ensures |MockChapters| == 9
    ensures forall i :: 0 <= i < 9 ==> MockChapters[i].chapter == (i + 1) as real
    ensures forall i, j :: 0 <= i < j < 9 ==> MockChapters[i].chapter < MockChapters[j].chapter
  {
  }

  // ----- the derived series -----

  /** The chapter fields the derived series copy. */
  datatype Metric = Sentiment | Tension | Pace | Action

  function Pick(f: ChapterFixture, m: Metric): real {
    match m
    case Sentiment => f.sentiment
    case Tension => f.tension
    case Pace => f.pace
    case Action => f.action
  }

  datatype SeriesPoint = SeriesPoint(chapter: real, value: real)

  /** `mockSentimentData`, `mockTensionData`, `mockPaceData` and `mockActionData`. */
  function MockSeries(m: Metric): (s: seq<SeriesPoint>)
    ensures |s| == |MockChapters|
    ensures forall i :: 0 <= i < |s| ==> s[i].chapter == MockChapters[i].chapter
    ensures forall i :: 0 <= i < |s| ==> s[i].value == Field(MockChapterMetrics()[i], Key(m))
  {
    seq(|MockChapters|, i requires 0 <= i < |MockChapters| =>
      SeriesPoint(MockChapters[i].chapter, Pick(MockChapters[i], m)))
  }

  /** The record field each series copies. */
  function Key(m: Metric): string {
    match m
    case Sentiment => "avg_sentiment_score"
    case Tension => "peak_tension_score"
    case Pace => "pace_variance"
    case Action => "action_density_per_block"
  }

  /** `mockSensoryData`: the dashboard's sensory projection of the fixture. */
  lemma MockSensoryData()
    ensures SensoryData(MockBookMetrics) ==
            [("visual", 45.0), ("auditory", 25.0), ("tactile", 15.0), ("olfactory", 8.0), ("gustatory", 7.0)]
  {
  }

  /** `mockStyleData`. */
  datatype StyleData = StyleData(passiveVoice: real, adjectives: real, adverbs: real)

  function MockStyleData(): (d: StyleData)
    ensures d.passiveVoice == MockBookMetrics.passiveVoiceRatio
    ensures d.adjectives == MockBookMetrics.adjectiveDensity && d.adverbs == MockBookMetrics.adverbDensity
  {
    StyleData(MockBookMetrics.passiveVoiceRatio, MockBookMetrics.adjectiveDensity, MockBookMetrics.adverbDensity)
  }

  /** `mockMetrics`: headline figures, the reading time in minutes. */
  datatype Metrics = Metrics(readabilityScore: real, wordCount: real, avgChapterLength: real, estimatedReadTime: real)

  function MockMetrics(): (m: Metrics)
    ensures m.estimatedReadTime == MockBookMetrics.estimatedReadingTimeHours * 60.0
    ensures m.readabilityScore == 72.0 && m.wordCount == MockBookMetrics.totalWordCount
    ensures m.avgChapterLength == MockBookMetrics.avgChapterLength
  {
    Metrics(72.0, MockBookMetrics.totalWordCount, MockBookMetrics.avgChapterLength,
            MockBookMetrics.estimatedReadingTimeHours * 60.0)
  }

  /** Six hours of reading is shown as 360 minutes. */
  lemma MockReadTime()
    ensures MockMetrics().estimatedReadTime == 360.0
  {
  }

  const MockBookTitle: string := "The Silent Echo"

  // ----- what the dashboard rules make of the fixtures -----

  /** The labels the fixture comments announce. */
  lemma MockLabels()
    ensures EmotionalVolatilityText(MockBookMetrics.emotionalVolatility) == High
    ensures ClimaxMomentumText(MockBookMetrics.climaxTensionGradient) == Rising
    ensures PronounStyleText(MockBookMetrics.thirdPersonPronounRatio) == Observer
    ensures DetachedToneText(MockBookMetrics.passiveVoiceRatio) == High
    ensures DescriptivenessText(MockBookMetrics.adjectiveDensity, MockBookMetrics.adverbDensity,
                                MockBookMetrics.metaphorSimileDensity) == High
  {
  }

  /** Every normalised series spans at least 0.001, so none takes the ramp branch. */
  lemma MockRangesWide()
    ensures var data := MockChapterMetrics();
            Hi(data, "avg_sentiment_score") - Lo(data, "avg_sentiment_score") >= 0.001 &&
            Hi(data, "peak_tension_score") - Lo(data, "peak_tension_score") >= 0.001 &&
            Hi(data, "pace_variance") - Lo(data, "pace_variance") >= 0.001 &&
            Hi(data, "question_density") - Lo(data, "question_density") >= 0.001
  {
    var data := MockChapterMetrics();
    WideRange(data, "avg_sentiment_score", 0, 8);
    WideRange(data, "peak_tension_score", 0, 8);
    WideRange(data, "pace_variance", 0, 8);
    WideRange(data, "question_density", 0, 8);
  }

  /** Normalised sentiment sends chapter 1 (-0.008) to 0 and chapter 9 (0.065) to 1. */
  lemma MockSentimentEnds()
    ensures NormalizeData(MockChapterMetrics(), "avg_sentiment_score")[0]["avg_sentiment_score"] == 0.0
    ensures NormalizeData(MockChapterMetrics(), "avg_sentiment_score")[8]["avg_sentiment_score"] == 1.0
  {
    var data, key := MockChapterMetrics(), "avg_sentiment_score";
    assert forall j :: 0 <= j < |data| ==> Field(data[0], key) <= Field(data[j], key) <= Field(data[8], key);
    LoIsLeast(data, key, 0);
    HiIsGreatest(data, key, 8);
    WideRange(data, key, 0, 8);
    NormalizeExtremes(data, key, 0);
    NormalizeExtremes(data, key, 8);
  }

  /** Every fixture action density exceeds 1, so every one is divided by 30. */
  lemma MockActionsRescaled()
    ensures forall i :: 0 <= i < |MockChapters| ==>
              Field(MockChapterMetrics()[i], "action_density_per_block") > 1.0 &&
              ActionData(MockChapterMetrics())[i].action * 30.0 == MockChapters[i].action
    ensures forall i :: 0 <= i < |MockChapters| ==>
              ActionData(MockChapterMetrics())[i].chapter == Some(MockChapters[i].chapter)
  {
  }

  lemma MockTitleLowerCased()
    ensures ToLower(MockBookTitle) == "the silent echo"
  {
  }

  lemma MockTitleJoined()
    ensures JoinDash(["the", "silent", "echo"]) == "the-silent-echo"
  {
  }

  /** The mock title is stored under the key "the-silent-echo". */
  lemma MockTitleKey()
    ensures FormatBookTitle(MockBookTitle) == "the-silent-echo"
  {
    MockTitleSpaced();
    MockTitleWords();
    KeyOfSpacedWords(MockBookTitle, "the", "silent", "echo");
    MockTitleJoined();
  }

  lemma MockTitleSpaced()
    ensures ToLower(Trim(MockBookTitle)) == "the" + (" " + ("silent" + (" " + "echo")))
  {
    MockTitleLowerCased();
    SpacedWordsLiteral();
    LowerOfUnpadded(MockBookTitle, "the" + (" " + ("silent" + (" " + "echo"))));
  }

  /** Trimming a string without whitespace at its ends does not change its lower-casing. */
  lemma LowerOfUnpadded(t: string, l: string)
    requires t == [] || (!IsWhitespace(t[0]) && !IsWhitespace(t[|t| - 1]))
    requires ToLower(t) == l
    ensures ToLower(Trim(t)) == l
  {
    TrimUnpadded(t);
  }

  lemma SpacedWordsLiteral()
    ensures "the" + (" " + ("silent" + (" " + "echo"))) == "the silent echo"
  {
  }

  lemma MockTitleWords()
    ensures IsWord("the") && IsWord("silent") && IsWord("echo")
  {
  }
}
