# Bestseller anatomy — a verified model of the analysis logic

Bestseller anatomy is a web dashboard. Authors upload a manuscript, and the
dashboard shows metrics computed per chapter and for the whole book. This
project models the small pieces of logic inside the repository's user
interface:

- **Book dashboard** (`BookDashboard`):
  - min/max normalisation of a chapter metric, with its synthetic 0.3–0.7 ramp for a flat series;
  - the action-density rescale;
  - the average sentiment;
  - the sensory and timeline projections;
  - the angle bookkeeping of the sensory pie;
  - the six threshold classifiers that turn a metric into a label.
- **Fixtures** (`MockBookData`): the fixture book and its chapters, and the labels and keys they produce.
- **Chart styling** (`ChartViewer`, `ChartUtils`, on the shared chart-spec values of `PlotlySpec`):
  - the chart viewer's field-by-field dark styling;
  - the one-expression `applyDarkTheme`.
  - Both describe the same Plotly layout. `ChartUtils` reads it as the `"layout"` field of the chart's `Json` object. `ChartViewer` splits that object into the `Layout` record: its named fields are the keys the viewer touches, and `rest` holds every other key.
- **Storage key** (`SupabaseService`): the title-to-key slug, shared by both metric lookups.
- **Upload form** (`AnalyzeTab`):
  - file validation;
  - the storage file name;
  - the choice of error detail;
  - the status machine idle → uploading → parsing → analyzing → completed → idle, with error as the alternative end.
- **Table of contents** (`TableOfContents`): the scroll-spy rule and its programmatic-scroll flag.
- **Podcast player** (`PodcastPlayer`): extraction of the Spotify episode id and the embed address built from it.

`Wrappers` holds `Option`. `JsString` holds the JavaScript string operations
the source relies on: `trim` with the ECMAScript whitespace set, ASCII
`toLowerCase`, and `endsWith`.

How the source is turned into Dafny:

- **Numbers** are `real`. A chapter record is a `map<string, real>`: an absent key is `undefined`, and `item[key] || 0` reads it as 0.
- **`NaN`** is modelled as `None` where the source can produce it.
- **Mutation.** Code that mutates state step by step is a class with `modifies` clauses on its methods:
  - the chart viewer's processed copy;
  - the upload form's React state;
  - the table of contents' state and scroll effect.
- **Loops** are methods with invariants, proved against a specification function:
  - the sensory pie's two passes over a shared `start`;
  - `avgSentimentScore`'s fold;
  - `updatemenus.forEach` over an array;
  - the descending scroll-spy loop with its `break`.
- **Asynchrony.** React handlers that await timers or the network are split into discrete events: upload settled, delay elapsed, timeout fired.

## Model

| member | source | states |
|---|---|---|
| BookDashboard.Field | components/book-dashboard.tsx:20 | no contract of its own: `item[key] \|\| 0`, a missing field reading as 0 |
| BookDashboard.Values | components/book-dashboard.tsx:20 | one value per chapter, in order, a missing or zero field read as 0 |
| BookDashboard.MinIndex | components/book-dashboard.tsx:21 | the index of a value no greater than any other (`Math.min`) |
| BookDashboard.MaxIndex | components/book-dashboard.tsx:22 | the index of a value no smaller than any other (`Math.max`) |
| BookDashboard.LoHiBound | components/book-dashboard.tsx:20-22 | every chapter's value lies between the minimum and the maximum |
| BookDashboard.Lo | components/book-dashboard.tsx:21 | no contract of its own: `Math.min(...values)`, the value at `MinIndex`; `LoHiBound` and `LoIsLeast` state that it is the least value |
| BookDashboard.Hi | components/book-dashboard.tsx:22 | no contract of its own: `Math.max(...values)`, the value at `MaxIndex`; `LoHiBound` and `HiIsGreatest` state that it is the greatest value |
| BookDashboard.LoIsLeast | components/book-dashboard.tsx:21 | a value no greater than every other is the minimum |
| BookDashboard.HiIsGreatest | components/book-dashboard.tsx:22 | a value no smaller than every other is the maximum |
| BookDashboard.WideRange | components/book-dashboard.tsx:25 | two chapters at least 0.001 apart put the series on the rescaling branch |
| BookDashboard.RampValueAsWritten | components/book-dashboard.tsx:29 | the ramp as written is undefined (NaN) exactly when there is a single chapter |
| BookDashboard.SingleChapterRampIsNaN | components/book-dashboard.tsx:25-29 | a one-chapter series always takes the flat branch, and there its ramp value is NaN |
| BookDashboard.RampValue | components/book-dashboard.tsx:27-30 | the ramp stays in [0.3, 0.7]; for two or more chapters it equals the written formula and runs from 0.3 to 0.7 |
| BookDashboard.RampIncreasing | components/book-dashboard.tsx:29 | the ramp strictly increases with the chapter index |
| BookDashboard.Rescaled | components/book-dashboard.tsx:36 | `(v - min) / (max - min)` lies in [0, 1] and maps back to v |
| BookDashboard.NormalizedValue | components/book-dashboard.tsx:25-37 | the rescaled value on a wide range, the ramp on a flat one, always in [0, 1] |
| BookDashboard.NormalizeData | components/book-dashboard.tsx:18-38 | same length and order; every record keeps all other fields and gets the key set to a value in [0, 1]; a one-chapter list gets the corrected ramp value 0.5 where the source writes NaN (see Findings) |
| BookDashboard.NormalizeInvertible | components/book-dashboard.tsx:34-37 | on a wide range, denormalising the output gives back the chapter's value |
| BookDashboard.NormalizeExtremes | components/book-dashboard.tsx:34-37 | on a wide range the minimum maps to 0 and the maximum to 1 |
| BookDashboard.RescaleEnds | components/book-dashboard.tsx:36 | the rescale sends its lower bound to 0 and its upper bound to 1 |
| BookDashboard.NormalizeMonotone | components/book-dashboard.tsx:34-37 | on a wide range normalisation preserves the order of values |
| BookDashboard.NormalizeFlat | components/book-dashboard.tsx:25-30 | on a flat range every output is the chapter's ramp value |
| BookDashboard.ActionRescale | components/book-dashboard.tsx:49 | a value above 1 is divided by 30, others pass unchanged |
| BookDashboard.ActionRescaleBounded | components/book-dashboard.tsx:49 | every value in [0, 30] rescales into [0, 1] |
| BookDashboard.ChapterOf | components/book-dashboard.tsx:51 | `chapter_number` when present and non-zero, otherwise `chapter` (None when neither is) |
| BookDashboard.ActionData | components/book-dashboard.tsx:46-54 | one point per chapter in order, holding only the chapter and the rescaled action density |
| BookDashboard.ActionDataBounded | components/book-dashboard.tsx:46-54 | densities in [0, 30] give action values in [0, 1] |
| BookDashboard.AverageSentiment | components/book-dashboard.tsx:59-60 | the loop returns the field sum over the chapter count, and None (NaN) for no chapters |
| BookDashboard.SumFieldBounds | components/book-dashboard.tsx:60 | a sum of n values in [lo, hi] lies in [n·lo, n·hi] |
| BookDashboard.MeanOfBounded | components/book-dashboard.tsx:59-60 | the mean of values in [lo, hi] is in [lo, hi] |
| BookDashboard.AverageBetweenExtremes | components/book-dashboard.tsx:59-60 | the average sentiment lies between the smallest and the largest chapter sentiment |
| BookDashboard.SensoryData | components/book-dashboard.tsx:63-69 | the five senses in order, each its density times 100 |
| BookDashboard.TimelineData | components/book-dashboard.tsx:72-77 | exactly four points with fixed labels in order, each percent the timing times 100 |
| BookDashboard.TimelinePercentages | components/book-dashboard.tsx:72-77 | timings in [0, 1] give percentages in [0, 100] |
| BookDashboard.Round | components/book-dashboard.tsx:235 | `Math.round`: the integer within half a unit, halves rounded up |
| BookDashboard.AnchorFor | components/book-dashboard.tsx:232 | the anchor is "end" exactly when the mid angle is strictly between 90 and 270 |
| BookDashboard.LabelFacts | components/book-dashboard.tsx:211-235 | a label's mid angle is start plus half its slice angle, with its anchor and rounded percentage |
| BookDashboard.SliceFacts | components/book-dashboard.tsx:271-274 | a slice runs from start to start plus its angle, flagged large when over 180 degrees |
| BookDashboard.Total | components/book-dashboard.tsx:207 | no contract of its own: the left-to-right sum of the values |
| BookDashboard.SliceAngle | components/book-dashboard.tsx:211-212 | no contract of its own: the value's share of the total times 360 |
| BookDashboard.CumAngle | components/book-dashboard.tsx:238 | no contract of its own: the angle `start` has advanced by after i slices; `CumAngleIsPrefixShare` gives its value |
| BookDashboard.Labels | components/book-dashboard.tsx:210-238 | one label per entry; `LabelsAt` places each |
| BookDashboard.Slices | components/book-dashboard.tsx:270-281 | one slice per entry; `SlicesAt` places each |
| BookDashboard.LabelsAt | components/book-dashboard.tsx:210-238 | label i starts at the initial angle plus the angles of the slices before it |
| BookDashboard.SlicesAt | components/book-dashboard.tsx:270-281 | slice i starts at the initial angle plus the angles of the slices before it |
| BookDashboard.LabelPass | components/book-dashboard.tsx:210-253 | the map with a shared `start` yields exactly the specified labels and advances `start` by the full turn |
| BookDashboard.SlicePass | components/book-dashboard.tsx:270-283 | the second map yields exactly the specified slices and advances `start` likewise |
| BookDashboard.SensoryPie | components/book-dashboard.tsx:206-283 | labels are laid out from 0 degrees; slices from 360, where the label pass left `start` |
| BookDashboard.CumAngleIsPrefixShare | components/book-dashboard.tsx:211-212 | the angle after i slices is the share of the first i values times 360 |
| BookDashboard.AnglesSumTo360 | components/book-dashboard.tsx:207-238 | the slice angles sum to 360 for any non-zero total |
| BookDashboard.SlicesTileOneTurn | components/book-dashboard.tsx:273-281 | each slice ends where the next starts, and the slice pass ends at 720 |
| BookDashboard.SentimentText | components/book-dashboard.tsx:343-347 | Positive iff > 0.05, Negative iff < -0.05, Neutral otherwise |
| BookDashboard.AverageSentimentText | components/book-dashboard.tsx:376 | the label of the average; a NaN average fails both comparisons and reads Neutral |
| BookDashboard.ClimaxMomentumText | components/book-dashboard.tsx:350-355 | Steep iff > 1.5, Rising iff in (1.0, 1.5], Moderate iff in (0.5, 1.0], Gradual otherwise |
| BookDashboard.LevelOf | components/book-dashboard.tsx:358-361 | the three-level cascade: High iff above the high threshold, Medium iff above the medium one only, Low otherwise |
| BookDashboard.EmotionalVolatilityText | components/book-dashboard.tsx:358-362 | High iff > 0.8, Medium iff in (0.5, 0.8], Low otherwise |
| BookDashboard.PronounStyleText | components/book-dashboard.tsx:399-403 | Observer iff > 0.7, Mixed iff in (0.4, 0.7], Intimate otherwise |
| BookDashboard.DetachedToneText | components/book-dashboard.tsx:406-410 | High iff > 0.6, Medium iff in (0.3, 0.6], Low otherwise |
| BookDashboard.DescriptivenessText | components/book-dashboard.tsx:413-418 | the level of the sum of the three densities: High iff > 0.2, Medium iff in (0.1, 0.2], Low otherwise |
| BookDashboard.SentimentMonotone | components/book-dashboard.tsx:343-347 | a larger value never gets a lower sentiment label |
| BookDashboard.ClimaxMomentumMonotone | components/book-dashboard.tsx:350-355 | a larger gradient never gets a lower momentum label |
| BookDashboard.EmotionalVolatilityMonotone | components/book-dashboard.tsx:358-362 | a larger volatility never gets a lower level |
| BookDashboard.PronounStyleMonotone | components/book-dashboard.tsx:399-403 | a larger ratio never gets a lower style |
| BookDashboard.DetachedToneMonotone | components/book-dashboard.tsx:406-410 | a larger passive ratio never gets a lower level |
| BookDashboard.DescriptivenessMonotone | components/book-dashboard.tsx:413-418 | larger densities never get a lower level |
| MockBookData.AsRecord | lib/mock-book-data.ts:30-38 | a fixture chapter becomes a record holding exactly its six metrics, without `chapter_number` |
| MockBookData.MockChapterMetrics | lib/mock-book-data.ts:29-102 | one record per fixture chapter, in order |
| MockBookData.ChaptersNumbered | lib/mock-book-data.ts:29-102 | nine chapters numbered 1 to 9, strictly increasing |
| MockBookData.MockSeries | lib/mock-book-data.ts:105-123 | each derived series has one point per chapter, in order, copying exactly one field |
| MockBookData.MockSensoryData | lib/mock-book-data.ts:125-131 | the fixture's sensory values are its densities times 100 |
| MockBookData.MockStyleData | lib/mock-book-data.ts:133-137 | the style values are the fixture's passive, adjective and adverb densities |
| MockBookData.MockMetrics | lib/mock-book-data.ts:139-144 | readability 72, word count and chapter length copied, reading time in minutes |
| MockBookData.MockReadTime | lib/mock-book-data.ts:143 | six hours of reading is 360 minutes |
| MockBookData.MockLabels | lib/mock-book-data.ts:10-16 | the fixture yields the labels its comments promise: High, Rising, Observer, High, High |
| MockBookData.MockRangesWide | lib/mock-book-data.ts:29-102 | every normalised fixture field spans at least 0.001, so the rescaling branch is taken |
| MockBookData.MockSentimentEnds | lib/mock-book-data.ts:30-98 | chapter 1's sentiment normalises to 0 and chapter 9's to 1 |
| MockBookData.MockActionsRescaled | lib/mock-book-data.ts:35-99 | every fixture action density exceeds 1, so each is divided by 30, and each point carries its chapter number |
| MockBookData.MockTitleKey | lib/mock-book-data.ts:147 | the fixture title "The Silent Echo" has the storage key "the-silent-echo" |
| PlotlySpec.Truthy | components/chart-viewer.tsx:19 | no contract of its own: JavaScript truthiness, with null, false, 0 and "" falsy |
| PlotlySpec.Spreadable | components/chart-viewer.tsx:26 | no contract of its own: the values whose spread is modelled, everything but strings and arrays |
| PlotlySpec.Get | components/chart-viewer.tsx:19-109 | a field lookup: present exactly when the key is, with its value |
| PlotlySpec.Member | components/chart-viewer.tsx:24 | optional chaining `x?.key`: present exactly when x is an object holding the key |
| PlotlySpec.Spread | lib/chart-utils.ts:32 | spreading an object copies its fields; spreading `undefined` or a scalar gives nothing |
| PlotlySpec.Or | components/chart-viewer.tsx:46-49 | `a \|\| b`: a when truthy, b otherwise |
| ChartViewer.OrEmpty | components/chart-viewer.tsx:45 | `x \|\| {}` |
| ChartViewer.TitleStep | components/chart-viewer.tsx:32-51 | no contract of its own: a falsy title is kept, a non-object one wrapped, an object one filled; `TextTitleWrapped`, `ObjectTitleFilled` and `FalsyTitleKept` state each branch |
| ChartViewer.MenusStep | components/chart-viewer.tsx:54-61 | no contract of its own: a truthy menu array is replaced by its styled menus; `MenusStyled` states it |
| ChartViewer.AxisStep | components/chart-viewer.tsx:65-97 | no contract of its own: a truthy axis is styled and any other is kept; `AxesAndLegendStyled` states it |
| ChartViewer.LegendStep | components/chart-viewer.tsx:100-108 | no contract of its own: a truthy legend is styled and any other is kept; `AxesAndLegendStyled` states it |
| ChartViewer.ProcessLayout | components/chart-viewer.tsx:19-109 | no contract of its own: each written key is a function of its own prior value only; `ProcessChart` is proved equal to it through `Render` |
| ChartViewer.FontStep | components/chart-viewer.tsx:24-29 | a font with no truthy colour gets `#e4e4e7`, other font fields kept; a coloured font is untouched |
| ChartViewer.TitleFontFilled | components/chart-viewer.tsx:44-48 | the title font keeps its fields and fills size 16 and colour `#e4e4e7` only where missing or falsy |
| ChartViewer.ObjectTitle | components/chart-viewer.tsx:41-51 | an object title keeps every other field, gets the filled font, and x becomes 0.07 only when falsy |
| ChartViewer.StyledMenu | components/chart-viewer.tsx:56-60 | a menu without a truthy bgcolor gets bgcolor, bordercolor and font; one with it is unchanged |
| ChartViewer.StyledMenus | components/chart-viewer.tsx:54-62 | same count, each menu styled on its own |
| ChartViewer.StyledAxis | components/chart-viewer.tsx:65-97 | grid and line colours forced, `tickfont` replaced by the colour alone, title font replaced, other axis and title fields kept |
| ChartViewer.StyledLegend | components/chart-viewer.tsx:100-109 | font, bgcolor and bordercolor forced, other legend fields kept |
| ChartViewer.ForcedMargin | components/chart-viewer.tsx:118 | margins t, r, l, b forced to 40, 20, 40, 40, other margin fields kept |
| ChartViewer.Render | components/chart-viewer.tsx:114-119 | the traces reach the plot unchanged, and layout fields the viewer does not style are kept |
| ChartViewer.StyleMenuArray | components/chart-viewer.tsx:54-62 | the in-place `forEach` leaves the array equal to the styled menus of its old contents |
| ChartViewer.ProcessedChart.constructor | components/chart-viewer.tsx:16 | the deep copy starts equal to the caller's spec |
| ChartViewer.ProcessedChart.FillBackground | components/chart-viewer.tsx:19-22 | both backgrounds set only when `paper_bgcolor` is falsy; otherwise neither is touched |
| ChartViewer.ProcessedChart.FillFontColor | components/chart-viewer.tsx:24-29 | only the layout font changes: it becomes `FontStep` of the old font |
| ChartViewer.ProcessedChart.StyleTitle | components/chart-viewer.tsx:32-51 | only the title changes, to the wrapped or filled title |
| ChartViewer.ProcessedChart.StyleMenus | components/chart-viewer.tsx:54-62 | only the menus change, each styled |
| ChartViewer.ProcessedChart.StyleXAxis | components/chart-viewer.tsx:65-80 | only the x axis changes, and only when present |
| ChartViewer.ProcessedChart.StyleYAxis | components/chart-viewer.tsx:82-97 | only the y axis changes, and only when present |
| ChartViewer.ProcessedChart.StyleLegend | components/chart-viewer.tsx:100-109 | only the legend changes, and only when present |
| ChartViewer.ProcessChart | components/chart-viewer.tsx:15-119 | the imperative processing on a copy yields exactly `Render` of the caller's spec |
| ChartViewer.BackgroundDefaulted | components/chart-viewer.tsx:19-22 | both backgrounds take the dark default when `paper_bgcolor` is falsy, and both are kept otherwise |
| ChartViewer.FontColorDefaulted | components/chart-viewer.tsx:24-29 | an existing font colour is preserved; a missing one is defaulted with the other font fields kept |
| ChartViewer.TextTitleWrapped | components/chart-viewer.tsx:32-40 | a non-object title becomes `{text, font: {size 16, colour}, x 0.07}` |
| ChartViewer.ObjectTitleFilled | components/chart-viewer.tsx:41-51 | an object title is filled rather than replaced |
| ChartViewer.ZeroTitleXReplaced | components/chart-viewer.tsx:49 | because of `\|\|`, a title x of 0 becomes 0.07 |
| ChartViewer.FalsyTitleKept | components/chart-viewer.tsx:32-51 | a falsy title is left as it is |
| ChartViewer.MenusStyled | components/chart-viewer.tsx:54-62 | the rendered menus are the styled menus, same count |
| ChartViewer.AxesAndLegendStyled | components/chart-viewer.tsx:65-109 | present axes and legend are styled, absent ones stay absent |
| ChartViewer.MarginForced | components/chart-viewer.tsx:116-118 | autosize is true and the margin is the forced margin |
| ChartViewer.TitleStepIdempotent | components/chart-viewer.tsx:32-51 | styling a styled title changes nothing |
| ChartViewer.MenusStepIdempotent | components/chart-viewer.tsx:54-62 | styling styled menus changes nothing |
| ChartViewer.AxisStepIdempotent | components/chart-viewer.tsx:65-97 | styling a styled axis changes nothing |
| ChartViewer.LegendStepIdempotent | components/chart-viewer.tsx:100-109 | styling a styled legend changes nothing |
| ChartViewer.ForcedMarginIdempotent | components/chart-viewer.tsx:118 | forcing a forced margin changes nothing |
| ChartViewer.ProcessChartIdempotent | components/chart-viewer.tsx:15-119 | processing the viewer's own output renders the same chart |
| ChartViewer.StyledLayoutKept | components/chart-viewer.tsx:19-51 | a layout that already has a background, font colour and title font keeps all three |
| ChartViewer.LayoutIgnoresTraces | components/chart-viewer.tsx:16-118 | the rendered layout does not depend on the traces |
| ChartViewer.EngagementLayoutReady | components/tabs/anatomy-tab.tsx:80-133 | the anatomy tab's embedded layout meets the viewer's requirements |
| ChartViewer.EngagementChartRendered | components/tabs/anatomy-tab.tsx:117-133 | in the embedded chart, top margin 60 becomes 40 while its background and title font survive |
| ChartViewer.EngagementLayoutStyled | components/tabs/anatomy-tab.tsx:80-133 | the embedded layout already has a background, a font colour, an object title with a sized and coloured font, and a top margin of 60 |
| ChartViewer.EngagementLayout | components/tabs/anatomy-tab.tsx:80-133 | no contract of its own: the anatomy tab's embedded layout; `EngagementLayoutReady` and `EngagementLayoutStyled` state what it satisfies |
| ChartUtils.DarkTitle | lib/chart-utils.ts:36-42 | every caller title field except `font` is kept; `font` becomes size 16 and `#e4e4e7` |
| ChartUtils.DarkLayout | lib/chart-utils.ts:31-43 | backgrounds, font and title overwritten whatever they were; every other layout key kept |
| ChartUtils.ApplyDarkTheme | lib/chart-utils.ts:28-45 | the same top-level keys, every one but `layout` unchanged, `layout` replaced by the dark layout |
| ChartUtils.FontReplacedWholesale | lib/chart-utils.ts:35 | the themed font holds only a colour, so any prior size is dropped |
| ChartUtils.MissingTitleGetsFontOnly | lib/chart-utils.ts:36-42 | an absent title becomes an object holding only the font |
| ChartUtils.ApplyDarkThemeIdempotent | lib/chart-utils.ts:28-45 | the themed chart can be themed again, and theming it again changes nothing |
| JsString.TrimStart | lib/supabase-service.ts:6 | removes exactly the leading whitespace |
| JsString.TrimEnd | lib/supabase-service.ts:6 | removes exactly the trailing whitespace |
| JsString.Trim | lib/supabase-service.ts:6 | removes exactly the whitespace at both ends: the result is a slice of the input, what lies before and after it is whitespace, and it neither starts nor ends with whitespace |
| JsString.TrimUnique | lib/supabase-service.ts:6 | that contract determines the result: any slice framed by whitespace whose own ends are not whitespace is the trim |
| JsString.TrimAllWhitespace | components/tabs/analyze-tab.tsx:51 | an all-whitespace string trims to the empty string |
| JsString.LowerChar | lib/supabase-service.ts:7 | ASCII upper-case letters move down by 32, everything else is unchanged |
| JsString.EndsWith | components/tabs/analyze-tab.tsx:22 | no contract of its own: the suffix fits and the last characters are the suffix |
| JsString.ToLower | lib/supabase-service.ts:7 | same length, each character lowered |
| SupabaseService.SkipSeparators | lib/supabase-service.ts:8 | drops exactly the leading non-`[a-z0-9]` run |
| SupabaseService.CollapseSeparators | lib/supabase-service.ts:8 | empty iff the input is; the first character is kept or becomes a dash |
| SupabaseService.CollapseShape | lib/supabase-service.ts:8 | after collapsing, only `[a-z0-9]` and dashes remain, never two dashes in a row |
| SupabaseService.StripEdgeDashes | lib/supabase-service.ts:9 | no contract of its own: one leading and one trailing dash removed; `StripKeepsSlug` and `CollapsedAndStrippedIsJoin` state what it gives on a collapsed string |
| SupabaseService.FormatBookTitle | lib/supabase-service.ts:4-10 | the key holds only `[a-z0-9-]`, never two dashes in a row, no dash at either end |
| SupabaseService.StripKeepsSlug | lib/supabase-service.ts:9 | stripping the edge dashes of a collapsed string gives a well-formed key |
| SupabaseService.FormatBookTitleFixesSlug | lib/supabase-service.ts:4-10 | a well-formed key is returned unchanged |
| SupabaseService.FormatBookTitleIdempotent | lib/supabase-service.ts:4-10 | formatting a formatted title changes nothing |
| SupabaseService.NoAlphanumericsGiveEmptyKey | lib/supabase-service.ts:8-9 | a title without ASCII letters or digits gives the empty key |
| SupabaseService.TakeRunIsMaximal | lib/supabase-service.ts:8 | the leading run of `[a-z0-9]` is maximal |
| SupabaseService.AlnumRunsAreWords | lib/supabase-service.ts:8 | the alphanumeric runs are non-empty and made of `[a-z0-9]` |
| SupabaseService.FormatBookTitleJoinsRuns | lib/supabase-service.ts:4-10 | the key is the alphanumeric runs of the trimmed, lowered title joined by single dashes |
| SupabaseService.CollapsedAndStrippedIsJoin | lib/supabase-service.ts:8-9 | the two `replace` calls together join the alphanumeric runs with dashes |
| SupabaseService.KeyOfSpacedWords | lib/supabase-service.ts:4-10 | three words separated by single spaces give those words joined by dashes |
| SupabaseService.BookMetricsQuery | lib/supabase-service.ts:15-17 | `book_metrics` looked up by `book_title` equal to a well-formed key |
| SupabaseService.ChapterMetricsQuery | lib/supabase-service.ts:34-40 | `chapter_metrics` looked up by `book_title` equal to a well-formed key, ordered by `chapter_number` |
| SupabaseService.QueriesShareKey | lib/supabase-service.ts:15-34 | both lookups for one title use the same key, the formatted title |
| AnalyzeTab.IsTextFile | components/tabs/analyze-tab.tsx:22 | no contract of its own: MIME type `text/plain` or a name ending in `.txt`; `FileRejection` states its role |
| AnalyzeTab.FileRejection | components/tabs/analyze-tab.tsx:22-34 | accepted iff (`text/plain` or a `.txt` name) and at most 10 MB; the type message takes priority over the size message |
| AnalyzeTab.SizeLimitInclusive | components/tabs/analyze-tab.tsx:29 | the limit is 10485760 bytes: exactly that size is accepted, one more byte is rejected |
| AnalyzeTab.SafeFileName | components/tabs/analyze-tab.tsx:60-66 | the uploaded name is the storage key of the title plus `.txt` |
| AnalyzeTab.SafeFileNameIsSlug | components/tabs/analyze-tab.tsx:60-66 | the name ends with `.txt` and its stem is a well-formed key |
| AnalyzeTab.UploadedNameMatchesQueries | components/tabs/analyze-tab.tsx:60-66 | the uploaded file is named after the very key both metric lookups use |
| AnalyzeTab.PunctuationTitleGivesBareExtension | components/tabs/analyze-tab.tsx:60-66 | a title of punctuation only is uploaded as `.txt` |
| AnalyzeTab.ErrorDetail | components/tabs/analyze-tab.tsx:85-88 | a string error is its own detail; otherwise the first non-empty of `message`, `error_description`, `msg`, else the unknown-error text |
| AnalyzeTab.ErrorDetailNonEmpty | components/tabs/analyze-tab.tsx:88 | a non-string error always has a non-empty detail |
| AnalyzeTab.MessageWins | components/tabs/analyze-tab.tsx:88 | a non-empty `message` is chosen whatever the other fields hold |
| AnalyzeTab.ProgressText | components/tabs/analyze-tab.tsx:198-206 | a progress text is shown exactly while uploading, parsing or analyzing |
| AnalyzeTab.InputsEnabled | components/tabs/analyze-tab.tsx:170-221 | no contract of its own: the `disabled` props, enabled exactly when idle or after an error |
| AnalyzeTab.DashboardTitle | components/tabs/analyze-tab.tsx:134 | the custom title when set and non-empty, the fixture title otherwise |
| AnalyzeTab.BlankIffTrimEmpty | components/tabs/analyze-tab.tsx:51 | a title is blank (all whitespace) exactly when it trims to the empty string |
| AnalyzeTab.AnalyzeForm.constructor | components/tabs/analyze-tab.tsx:11-17 | closed modal, no file, empty title and message, idle, no custom title |
| AnalyzeTab.AnalyzeForm.HandleFileChange | components/tabs/analyze-tab.tsx:19-39 | no selection changes nothing; a rejection clears the file and sets its message; acceptance stores the file and clears the message |
| AnalyzeTab.AnalyzeForm.HandleTitleChange | components/tabs/analyze-tab.tsx:41-43 | only the title changes |
| AnalyzeTab.AnalyzeForm.HandleUpload | components/tabs/analyze-tab.tsx:45-68 | no file: the no-file message; a blank title: the no-title message, status unchanged; otherwise uploading, message cleared, one upload started |
| AnalyzeTab.AnalyzeForm.UploadSucceeded | components/tabs/analyze-tab.tsx:68-71 | the upload settled: status parsing, the run waits for the 1.5 s delay |
| AnalyzeTab.AnalyzeForm.ParsingDelayElapsed | components/tabs/analyze-tab.tsx:71-74 | status analyzing, the run waits for the 2 s delay |
| AnalyzeTab.AnalyzeForm.AnalyzingDelayElapsed | components/tabs/analyze-tab.tsx:74-80 | the entered title becomes the dashboard title, the modal closes and the form is reset to idle |
| AnalyzeTab.AnalyzeForm.UploadFailed | components/tabs/analyze-tab.tsx:81-91 | status error and the message "Upload failed: " followed by the error detail; the rest of the form is kept |
| AnalyzeTab.AnalyzeForm.ResetForm | components/tabs/analyze-tab.tsx:94-100 | no file, empty title and message, idle; modal and custom title kept |
| AnalyzeTab.AnalyzeForm.OpenUploadModal | components/tabs/analyze-tab.tsx:102-105 | the modal opens on a reset form |
| AnalyzeTab.AnalyzeForm.CloseUploadModal | components/tabs/analyze-tab.tsx:107-110 | the modal closes on a reset form |
| AnalyzeTab.UploadToCompletion | components/tabs/analyze-tab.tsx:45-100 | a valid file and title: uploaded as key plus `.txt`, the title shown on the dashboard, idle with the modal closed |
| AnalyzeTab.UploadToFailure | components/tabs/analyze-tab.tsx:81-91 | a failed upload: the fixture title still shown, status error, the failure message, modal still open |
| AnalyzeTab.BlankTitleRefused | components/tabs/analyze-tab.tsx:51-54 | a blank title starts no upload, leaves the status idle and shows the no-title message |
| AnalyzeTab.CancelledUploadStillApplies | components/tabs/analyze-tab.tsx:76-110 | closing the modal during an upload does not stop it: its title still reaches the dashboard |
| TableOfContents.Reached | components/table-of-contents.tsx:64-68 | no contract of its own: the element exists and its top is at or above the position |
| TableOfContents.LastReached | components/table-of-contents.tsx:62-72 | the highest index whose element exists at or above the position, or None when there is none |
| TableOfContents.LastReachedMonotone | components/table-of-contents.tsx:62-68 | the chosen index never decreases as the position grows |
| TableOfContents.MissingNeverChosen | components/table-of-contents.tsx:65 | a section without an element is never chosen |
| TableOfContents.NothingAboveTop | components/table-of-contents.tsx:59-72 | at the top of a page whose sections all lie below the header offset, nothing becomes active |
| TableOfContents.ScrollResultIsSection | components/table-of-contents.tsx:62-72 | the result is the active id unchanged or a section id; it is unchanged whenever no section is reached at `scrollY + 150`, and when some section is reached it is the id of a reached section after which none is reached |
| TableOfContents.ScrollResult | components/table-of-contents.tsx:60-72 | no contract of its own: its body picks the section `LastReached` chooses at `scrollY + 150`, else keeps the active id; `LastReached`'s contract and `ScrollResultIsSection` characterise it, and `TableOfContents.TableOfContents.HandleScroll`'s ensures is stated with it |
| TableOfContents.TableOfContents.constructor | components/table-of-contents.tsx:18-21 | the menu starts open, nothing active, no flag, no timer |
| TableOfContents.TableOfContents.ToggleMenu | components/table-of-contents.tsx:24-26 | flips `isOpen` and nothing else |
| TableOfContents.TableOfContents.ScrollToSection | components/table-of-contents.tsx:29-51 | an existing element: active set to it, flag set, a fresh timer pending; a missing one: nothing changes |
| TableOfContents.TableOfContents.TimeoutFired | components/table-of-contents.tsx:47-49 | the timer clears the flag |
| TableOfContents.TableOfContents.HandleScroll | components/table-of-contents.tsx:55-73 | only the installed listener runs; with the flag it captured when its effect last ran set, active is unchanged; otherwise the descending loop yields the last section reached at scrollY + 150 |
| TableOfContents.TableOfContents.Mount | components/table-of-contents.tsx:75-80 | the listener is installed, and the scroll check runs only with nothing active and the flag clear |
| TableOfContents.TableOfContents.CommitAsWritten | components/table-of-contents.tsx:82-88 | a change of `activeSection` or the flag runs the old cleanup, which cancels the pending timer |
| TableOfContents.TableOfContents.Commit | components/table-of-contents.tsx:82-88 | the corrected re-render keeps the pending timer |
| TableOfContents.TableOfContents.Rerun | components/table-of-contents.tsx:75-88 | the effect is re-installed with the new dependencies; its mount check cannot fire, since a dependency change always leaves a section active |
| TableOfContents.TableOfContents.Unmount | components/table-of-contents.tsx:82-87 | the listener is removed and any pending timer cleared |
| TableOfContents.ClickDisablesScrollSpy | components/table-of-contents.tsx:29-88 | as written, after a click the flag stays set with no timer left, and later scrolls leave the clicked section active |
| TableOfContents.ClickThenScroll | components/table-of-contents.tsx:47-73 | with the timer kept, it fires and the next scroll marks the last section reached again |
| TableOfContents.ToggleTwice | components/table-of-contents.tsx:18-26 | toggling twice leaves the menu open, as it started |
| PodcastPlayer.Split | components/podcast-player.tsx:10 | `split` never returns an empty array |
| PodcastPlayer.SplitPieces | components/podcast-player.tsx:10 | the result is one piece exactly when the string holds no separator, and no piece holds the separator |
| PodcastPlayer.SplitJoin | components/podcast-player.tsx:10 | joining the pieces with the separator gives back the string |
| PodcastPlayer.SplitWithout | components/podcast-player.tsx:10 | a string without the separator splits into itself alone |
| PodcastPlayer.SplitAround | components/podcast-player.tsx:10 | splitting at one separator splits the two sides independently |
| PodcastPlayer.Last | components/podcast-player.tsx:10 | no contract of its own: `pop()` on a never-empty array, its last element; `LastPiece` states what it gives |
| PodcastPlayer.EpisodeId | components/podcast-player.tsx:10 | the id is always defined and holds neither `/` nor `?` |
| PodcastPlayer.FirstPieceIsPrefix | components/podcast-player.tsx:10 | the first piece is a separator-free prefix of the string, ended by a separator or by the end of the string |
| PodcastPlayer.LastPiece | components/podcast-player.tsx:10 | `pop` gives the text after the last separator |
| PodcastPlayer.FirstPiece | components/podcast-player.tsx:10 | `[0]` gives the text before the first separator |
| PodcastPlayer.TrailingSlashGivesEmpty | components/podcast-player.tsx:10 | a URL that ends in `/` has an empty id |
| PodcastPlayer.EpisodeIdOfParts | components/podcast-player.tsx:10 | the id is the last `/`-segment up to, and excluding, its first `?` |
| PodcastPlayer.EmbedSrcKeepsId | components/podcast-player.tsx:68 | reading the episode id back from the embed address gives the id it was built from |
| PodcastPlayer.AnatomyEpisodeId | components/tabs/anatomy-tab.tsx:256 | the anatomy tab's episode URL yields `0VUkAMSWPEDEjaGNjG1vGC` |

## Left out

- Network and storage are not modelled, because they go through a client library that is not part of this model:
  - the Supabase client and uploads (`lib/supabase.ts`, `lib/book-upload.ts`);
  - `fetchBookMetrics`, `fetchChapterMetrics` and `fetchAllBookData` beyond the lookup each sends;
  - `loadChartData`;
  - `useBookData`.
- An upload's outcome is an input event: success, or failure with an error value.
- Timers are discrete events, not time:
  - the 1.5 s and 2 s delays of the upload form;
  - the table of contents' 1 s timeout.
- Rendering is not modelled:
  - JSX, SVG path strings and bar heights;
  - the trigonometric label and arc coordinates of the sensory pie;
  - the results of `console.error`;
  - clearing the DOM file input after a rejection or reset (`fileInputRef.current.value = ""`);
  - the browser's smooth scroll.
- Floating point is not modelled: numbers are exact reals, and `NaN` is `None` where the source can produce it.
  - The sensory pie requires a non-zero total, because a zero total makes every angle `NaN`.
  - The pie's data order is the order of `Object.entries`, taken as the insertion order of the five senses.
- `toLowerCase` is modelled on ASCII only; other letters pass unchanged. Some non-ASCII letters lower to ASCII in JavaScript, and the model then gives a different key: 'İ' (U+0130) becomes "i" followed by U+0307, and the Kelvin sign U+212A becomes "k". So "İzmir" has the key "i-zmir" in the source and "zmir" in `FormatBookTitle`.
- Spreading a string or an array into an object is excluded by the chart models' requirements. A title that is spread must not be a string or an array.
- JSON `null` is treated like an absent field.
- A chart without a layout, or whose layout is not an object, is not modelled: `ChartViewer.ChartSpec` always has a `Layout` and `ChartUtils.Themeable` requires a non-null `layout`. The source throws a TypeError there, at `processedData.layout.paper_bgcolor` (components/chart-viewer.tsx:19) and at `chartData.layout.title` (lib/chart-utils.ts:37).
- ChartViewer.MenusReady: the TypeErrors of the menu loop are not modelled, only excluded. A truthy `updatemenus` that is not an array breaks `forEach` (components/chart-viewer.tsx:55). A primitive menu breaks the strict-mode assignments (components/chart-viewer.tsx:56-59). An array menu is a JavaScript object, so those assignments succeed; it is excluded too, and not modelled.
- ChartViewer.Layout: `rest` is taken never to hold one of the ten keys the layout names; no predicate enforces it.
- The deep copy `JSON.parse(JSON.stringify(chartData))` is the identity on values.
- The key order of objects is not modelled.
- Chart styling rules that the shown viewer does not contain are not modelled.
- TableOfContents.TableOfContents: `sections` is fixed for the component's life, so a change of the `sections` prop, which also re-runs the effect, is not modelled.
- TableOfContents.TableOfContents: scroll positions and offsets are integers, and the DOM is a map from section id to `offsetTop`.
- TableOfContents.TableOfContents.Mount: an active section with an empty id would be falsy in the source's mount check; the model treats every section id as set.
- AnalyzeTab.UploadError: error fields other than strings (numbers, nested objects) are not modelled; an empty string stands for a falsy field.
- AnalyzeTab.AnalyzeForm: a run records the title it was started with, not the uploaded file name; `UploadToCompletion` states that the name is the key plus `.txt`.
- AnalyzeTab.AnalyzeForm: events are accepted only while the modal is open and the inputs are enabled, as the rendered form allows.
  - The main button and the direct calls to `handleUpload` do not exist outside the dialog.
- PodcastPlayer.EmbedSrc: has no contract of its own; its property is `EmbedSrcKeepsId`.
- The parts of the anatomy tab other than its embedded engagement layout and its Spotify URL are not modelled.
- Browser glue is not part of this model:
  - the navigation tabs,
  - the mobile media query,
  - the layout's analytics script,
  - the coming-soon tab.

## Findings

| source | as written | input that shows it | evidently intended | confidence | as-written member | corrected member |
|---|---|---|---|---|---|---|
| components/book-dashboard.tsx:25-30 | a flat series gets `0.3 + (index / (data.length - 1)) * 0.4`, which is `0 / 0`, NaN, for a single chapter | a chapter list with one record: its range is 0 < 0.001 | a value inside the 0.3–0.7 band (0.5, its middle) for one chapter | not executed | BookDashboard.SingleChapterRampIsNaN | BookDashboard.RampValue |
| components/table-of-contents.tsx:47-88 | the click stores its timer in `scrollTimeoutRef`, then the re-render caused by its own state change runs the effect cleanup, which clears that timer | one click on a section whose element exists, followed by any scroll | the timer fires after a second, clears the flag, and scroll tracking resumes | not executed | TableOfContents.ClickDisablesScrollSpy | TableOfContents.ClickThenScroll |
