/**
 * The storage key under which a book's metrics are stored: `formatBookTitle`
 * turns a free-form title into a lower-case slug, and both metric queries
 * look the book up under that slug.
 */
module SupabaseService {
  import opened Wrappers
  import opened JsString

  /** The characters the slug keeps: the regular-expression class `[a-z0-9]`. */
  predicate IsSlugChar(c: char) {
    ('a' <= c <= 'z') || ('0' <= c <= '9')
  }

  /** Only `[a-z0-9]` characters and dashes. */
  predicate SlugChars(s: string) {
    forall i :: 0 <= i < |s| ==> IsSlugChar(s[i]) || s[i] == '-'
  }

  /** Never two dashes in a row. */
  ghost predicate NoDoubleDash(s: string) {
    forall i, j :: 0 <= i < j < |s| && j == i + 1 ==> !(s[i] == '-' && s[j] == '-')
  }

  /** A well-formed key: slug characters, no double dash, no dash at either end. */
  ghost predicate IsSlug(s: string) {
    SlugChars(s) && NoDoubleDash(s) && (|s| > 0 ==> s[0] != '-' && s[|s| - 1] != '-')
  }

  /** `s` without its leading run of characters outside `[a-z0-9]`. */
  function SkipSeparators(s: string): (r: string)
    ensures |r| <= |s| && r == s[|s| - |r|..]
    ensures r == [] || IsSlugChar(r[0])
    ensures forall i :: 0 <= i < |s| - |r| ==> !IsSlugChar(s[i])
  {
    if |s| > 0 && !IsSlugChar(s[0]) then
      var t := s[1..];
      var r := SkipSeparators(t);
      assert r == s[|s| - |r|..] by {
        assert t[|t| - |r|..] == s[|s| - |r|..];
      }
      assert forall i :: 1 <= i < |s| - |r| ==> s[i] == t[i - 1];
      r
    else s
  }

  /**
   * `s.replace(/[^a-z0-9]+/g, "-")`: every maximal run of characters outside
   * `[a-z0-9]` becomes one dash.
   */
  function CollapseSeparators(s: string): (r: string)
    ensures r == [] <==> s == []
    ensures s != [] && IsSlugChar(s[0]) ==> r[0] == s[0]
    ensures s != [] && !IsSlugChar(s[0]) ==> r[0] == '-'
    decreases |s|
  {
    if s == [] then []
    else if IsSlugChar(s[0]) then [s[0]] + CollapseSeparators(s[1..])
    else "-" + CollapseSeparators(SkipSeparators(s[1..]))
  }

  /** Collapsing leaves only slug characters and dashes, never two dashes in a row. */
  lemma {:induction false} CollapseShape(s: string)
    ensures SlugChars(CollapseSeparators(s)) && NoDoubleDash(CollapseSeparators(s))
    decreases |s|
  {
    if s != [] {
      var t := if IsSlugChar(s[0]) then s[1..] else SkipSeparators(s[1..]);
      CollapseShape(t);
      var c := CollapseSeparators(t);
      var r := CollapseSeparators(s);
      assert r == [r[0]] + c;
      forall i, j | 0 <= i < j < |r| && j == i + 1 ensures !(r[i] == '-' && r[j] == '-') {
        if i > 0 {
          assert r[i] == c[i - 1] && r[j] == c[j - 1];
        }
      }
    }
  }

  /** `s.replace(/(^-|-$)/g, "")`: one leading and one trailing dash removed. */
  function StripEdgeDashes(s: string): (r: string)
  {
    var a := if |s| > 0 && s[0] == '-' then s[1..] else s;
    if |a| > 0 && a[|a| - 1] == '-' then a[..|a| - 1] else a
  }

  /**
   * `formatBookTitle`: trim, lower-case, collapse separator runs to one dash,
   * drop the dashes at the ends. The result is always a well-formed key.
   */
  function FormatBookTitle(title: string): (r: string)
    ensures IsSlug(r)
  {
    var c := CollapseSeparators(ToLower(Trim(title)));
    var r := StripEdgeDashes(c);
    CollapseShape(ToLower(Trim(title)));
    StripKeepsSlug(c);
    r
  }

  /** Stripping the edge dashes of a collapsed string leaves a well-formed key. */
  lemma StripKeepsSlug(c: string)
    requires SlugChars(c) && NoDoubleDash(c)
    ensures IsSlug(StripEdgeDashes(c))
  {
    var k := if |c| > 0 && c[0] == '-' then 1 else 0;
    var a := c[k..];
    var m := if |a| > 0 && a[|a| - 1] == '-' then |a| - 1 else |a|;
    var r := a[..m];
    assert r == StripEdgeDashes(c);
    assert forall i :: 0 <= i < |r| ==> r[i] == c[i + k];
    if |r| > 0 {
      if k == 1 {
        assert c[1] != '-';
      }
      if m < |a| {
        assert c[m + k] == '-';
        assert c[m - 1 + k] != '-';
      }
    }
    forall i, j | 0 <= i < j < |r| && j == i + 1 ensures !(r[i] == '-' && r[j] == '-') {
      assert r[i] == c[i + k] && r[j] == c[j + k];
    }
  }

  /** A key that is already well formed is returned unchanged. */
  lemma {:induction false} CollapseKeepsSlug(s: string)
    requires SlugChars(s) && NoDoubleDash(s)
    ensures CollapseSeparators(s) == s
    decreases |s|
  {
    if s != [] {
      CollapseKeepsSlug(s[1..]);
      if !IsSlugChar(s[0]) {
        assert SkipSeparators(s[1..]) == s[1..];
      }
    }
  }

  lemma FormatBookTitleFixesSlug(t: string)
    requires IsSlug(t)
    ensures FormatBookTitle(t) == t
  {
    SlugCharsArePlain(t);
    TrimNoWhitespace(t);
    ToLowerNoUpper(t);
    CollapseKeepsSlug(t);
    StripUndashed(t);
    calc {
      FormatBookTitle(t);
      StripEdgeDashes(CollapseSeparators(ToLower(Trim(t))));
      StripEdgeDashes(CollapseSeparators(t));
      StripEdgeDashes(t);
      t;
    }
  }

  /** Slug characters are neither whitespace nor upper case. */
  lemma SlugCharsArePlain(t: string)
    requires SlugChars(t)
    ensures forall i :: 0 <= i < |t| ==> !IsWhitespace(t[i]) && !IsUpperAscii(t[i])
  {
  }

  /** A string with no dash at either end has no edge dash to strip. */
  lemma StripUndashed(t: string)
    requires |t| > 0 ==> t[0] != '-' && t[|t| - 1] != '-'
    ensures StripEdgeDashes(t) == t
  {
  }

  /** Formatting is idempotent: a formatted title formats to itself. */
  lemma FormatBookTitleIdempotent(title: string)
    ensures FormatBookTitle(FormatBookTitle(title)) == FormatBookTitle(title)
  {
    FormatBookTitleFixesSlug(FormatBookTitle(title));
  }

  /** A title without any ASCII letter or digit formats to the empty key. */
  lemma {:induction false} NoAlphanumericsGiveEmptyKey(title: string)
    requires forall i :: 0 <= i < |title| ==> !IsSlugChar(LowerChar(title[i]))
    ensures FormatBookTitle(title) == ""
  {
    var l := ToLower(Trim(title));
    NoSlugCharAfterTrim(title);
    CollapseOfSeparators(l);
    assert StripEdgeDashes("-") == "";
  }

  /** Trimming and lowering a title without ASCII letters or digits leaves none. */
  lemma NoSlugCharAfterTrim(title: string)
    requires forall i :: 0 <= i < |title| ==> !IsSlugChar(LowerChar(title[i]))
    ensures forall i :: 0 <= i < |ToLower(Trim(title))| ==> !IsSlugChar(ToLower(Trim(title))[i])
  {
    var a, b :| 0 <= a <= b <= |title| && Trim(title) == title[a..b];
    forall i | 0 <= i < |ToLower(Trim(title))| ensures !IsSlugChar(ToLower(Trim(title))[i]) {
      assert ToLower(Trim(title))[i] == LowerChar(title[a + i]);
    }
  }

  /** A string of separators only collapses to one dash, or stays empty. */
  lemma CollapseOfSeparators(l: string)
    requires forall i :: 0 <= i < |l| ==> !IsSlugChar(l[i])
    ensures CollapseSeparators(l) == if l == [] then [] else "-"
  {
    if l != [] {
      assert SkipSeparators(l[1..]) == [];
    }
  }

  // ----- the reference definition: alphanumeric runs joined by dashes -----

  /** The longest prefix of `s` made of `[a-z0-9]` characters. */
  function TakeRun(s: string): (r: string)
    ensures |r| <= |s| && r == s[..|r|]
  {
    if s != [] && IsSlugChar(s[0]) then [s[0]] + TakeRun(s[1..]) else []
  }

  /** The run is made of `[a-z0-9]` characters and is maximal. */
  lemma {:induction false} TakeRunIsMaximal(s: string)
    ensures forall i :: 0 <= i < |TakeRun(s)| ==> IsSlugChar(s[i])
    ensures |TakeRun(s)| < |s| ==> !IsSlugChar(s[|TakeRun(s)|])
  {
    if s != [] && IsSlugChar(s[0]) {
      TakeRunIsMaximal(s[1..]);
    }
  }

  /** The maximal `[a-z0-9]` runs of `s`, in order. */
  function AlnumRuns(s: string): (rs: seq<string>)
    decreases |s|
  {
    if s == [] then []
    else if !IsSlugChar(s[0]) then AlnumRuns(s[1..])
    else var w := TakeRun(s); [w] + AlnumRuns(s[|w|..])
  }

  /** Every run is a non-empty word of `[a-z0-9]` characters. */
  ghost predicate AllWords(ws: seq<string>) {
    forall k :: 0 <= k < |ws| ==> ws[k] != [] && forall i :: 0 <= i < |ws[k]| ==> IsSlugChar(ws[k][i])
  }

  lemma {:induction false} AlnumRunsAreWords(s: string)
    ensures AllWords(AlnumRuns(s))
    decreases |s|
  {
    if s != [] {
      if !IsSlugChar(s[0]) {
        AlnumRunsAreWords(s[1..]);
      } else {
        TakeRunIsMaximal(s);
        AlnumRunsAreWords(s[|TakeRun(s)|..]);
      }
    }
  }

  /** The words of `ws` separated by single dashes. */
  function JoinDash(ws: seq<string>): string {
    if |ws| == 0 then "" else if |ws| == 1 then ws[0] else ws[0] + "-" + JoinDash(ws[1..])
  }

  lemma {:induction false} JoinDashEdges(ws: seq<string>)
    requires ws != [] && AllWords(ws)
    ensures var j := JoinDash(ws); j != [] && IsSlugChar(j[0]) && IsSlugChar(j[|j| - 1])
  {
    if |ws| > 1 {
      JoinDashEdges(ws[1..]);
      assert IsSlugChar(ws[0][0]);
    } else {
      assert IsSlugChar(ws[0][|ws[0]| - 1]);
    }
  }

  lemma JoinDashCons(w: string, ws: seq<string>)
    requires ws != []
    ensures JoinDash([w] + ws) == w + ("-" + JoinDash(ws))
    ensures JoinDash([w] + ws) + "-" == w + ("-" + (JoinDash(ws) + "-"))
  {
    assert ([w] + ws)[1..] == ws;
  }

  lemma CollapseOverRun(s: string)
    ensures CollapseSeparators(s) == TakeRun(s) + CollapseSeparators(s[|TakeRun(s)|..])
  {
    var w := TakeRun(s);
    TakeRunIsMaximal(s);
    assert s == w + s[|w|..];
    CollapseKeepsWord(w, s[|w|..]);
  }

  /** A word of `[a-z0-9]` characters passes through collapsing unchanged. */
  lemma {:induction false} CollapseKeepsWord(w: string, rest: string)
    requires forall i :: 0 <= i < |w| ==> IsSlugChar(w[i])
    ensures CollapseSeparators(w + rest) == w + CollapseSeparators(rest)
    decreases |w|
  {
    if w == [] {
      assert w + rest == rest;
    } else {
      var u := w + rest;
      var c := CollapseSeparators(rest);
      assert u[0] == w[0] && u[1..] == w[1..] + rest;
      CollapseKeepsWord(w[1..], rest);
      calc {
        CollapseSeparators(u);
        [w[0]] + CollapseSeparators(w[1..] + rest);
        [w[0]] + (w[1..] + c);
        { assert w == [w[0]] + w[1..]; }
        w + c;
      }
    }
  }

  lemma {:induction false} AlnumRunsSkip(s: string)
    ensures AlnumRuns(s) == AlnumRuns(SkipSeparators(s))
    decreases |s|
  {
    if |s| > 0 && !IsSlugChar(s[0]) {
      AlnumRunsSkip(s[1..]);
    }
  }

  /** A string that starts with a separator: one dash, then what follows the separator run. */
  lemma SeparatorStep(rest: string)
    requires rest != [] && !IsSlugChar(rest[0])
    ensures CollapseSeparators(rest) == "-" + CollapseSeparators(SkipSeparators(rest[1..]))
    ensures AlnumRuns(rest) == AlnumRuns(SkipSeparators(rest[1..]))
  {
    AlnumRunsSkip(rest[1..]);
  }

  /** A string that starts with a word: the word, then the collapsed rest. */
  lemma WordStep(s: string)
    requires s != [] && IsSlugChar(s[0])
    ensures var w := TakeRun(s);
      && CollapseSeparators(s) == w + CollapseSeparators(s[|w|..])
      && AlnumRuns(s) == [w] + AlnumRuns(s[|w|..])
      && (|w| < |s| ==> !IsSlugChar(s[|w|]))
  {
    CollapseOverRun(s);
    TakeRunIsMaximal(s);
  }

  lemma {:induction false} CollapseIsJoin(s: string)
    requires s != [] && IsSlugChar(s[0])
    ensures AlnumRuns(s) != []
    ensures var j := JoinDash(AlnumRuns(s));
      CollapseSeparators(s) == j || CollapseSeparators(s) == j + "-"
    decreases |s|
  {
    var w := TakeRun(s);
    var rest := s[|w|..];
    WordStep(s);
    assert JoinDash([w]) == w;
    if rest == [] {
      assert AlnumRuns(s) == [w] && CollapseSeparators(s) == w;
    } else {
      var u := SkipSeparators(rest[1..]);
      SeparatorStep(rest);
      if u == [] {
        assert AlnumRuns(s) == [w] && CollapseSeparators(s) == w + "-";
      } else {
        CollapseIsJoin(u);
        var ru := AlnumRuns(u);
        JoinDashCons(w, ru);
        var cu := CollapseSeparators(u);
        assert CollapseSeparators(s) == w + ("-" + cu);
        assert cu == JoinDash(ru) || cu == JoinDash(ru) + "-";
      }
    }
  }

  /**
   * The formatted title is exactly the `[a-z0-9]` runs of the trimmed,
   * lower-cased title joined by single dashes.
   */
  lemma FormatBookTitleJoinsRuns(title: string)
    ensures FormatBookTitle(title) == JoinDash(AlnumRuns(ToLower(Trim(title))))
  {
    CollapsedAndStrippedIsJoin(ToLower(Trim(title)));
  }

  lemma CollapsedAndStrippedIsJoin(l: string)
    ensures StripEdgeDashes(CollapseSeparators(l)) == JoinDash(AlnumRuns(l))
  {
    if l != [] {
      var u := if IsSlugChar(l[0]) then l else SkipSeparators(l[1..]);
      if !IsSlugChar(l[0]) {
        SeparatorStep(l);
      }
      if u != [] {
        CollapseIsJoin(u);
        var rs := AlnumRuns(u);
        AlnumRunsAreWords(u);
        JoinDashEdges(rs);
        StripAroundWords(JoinDash(rs));
      }
    }
  }

  /** Stripping removes at most one dash on each side of a word-delimited string. */
  lemma StripAroundWords(j: string)
    requires j != [] && IsSlugChar(j[0]) && IsSlugChar(j[|j| - 1])
    ensures StripEdgeDashes(j) == j && StripEdgeDashes(j + "-") == j
    ensures StripEdgeDashes("-" + j) == j && StripEdgeDashes("-" + (j + "-")) == j
  {
    assert ("-" + j)[1..] == j;
    assert ("-" + (j + "-"))[1..] == j + "-";
    assert (j + "-")[..|j|] == j;
  }

  lemma {:induction false} TakeRunOfWord(w: string, rest: string)
    requires forall i :: 0 <= i < |w| ==> IsSlugChar(w[i])
    requires rest == [] || !IsSlugChar(rest[0])
    ensures TakeRun(w + rest) == w
  {
    if w != [] {
      assert (w + rest)[1..] == w[1..] + rest;
      TakeRunOfWord(w[1..], rest);
    }
  }

  /** The runs of a word followed by a separator-led rest. */
  lemma RunsOfWord(w: string, rest: string)
    requires w != [] && forall i :: 0 <= i < |w| ==> IsSlugChar(w[i])
    requires rest == [] || !IsSlugChar(rest[0])
    ensures AlnumRuns(w + rest) == [w] + AlnumRuns(rest)
  {
    TakeRunOfWord(w, rest);
    assert (w + rest)[|w|..] == rest;
  }

  /** A non-empty run of `[a-z0-9]` characters. */
  ghost predicate IsWord(w: string) {
    w != [] && forall i :: 0 <= i < |w| ==> IsSlugChar(w[i])
  }

  lemma SpaceRuns(w: string)
    ensures AlnumRuns(" " + w) == AlnumRuns(w)
  {
    assert (" " + w)[1..] == w;
  }

  /** Three words separated by single spaces are found as three runs. */
  lemma RunsOfSpacedWords(a: string, b: string, c: string)
    requires IsWord(a) && IsWord(b) && IsWord(c)
    ensures AlnumRuns(a + (" " + (b + (" " + c)))) == [a, b, c]
  {
    assert c + [] == c;
    RunsOfWord(c, []);
    SpaceRuns(c);
    RunsOfWord(b, " " + c);
    SpaceRuns(b + (" " + c));
    RunsOfWord(a, " " + (b + (" " + c)));
  }

  /** A title that trims and lower-cases to three spaced words is keyed by the three words. */
  lemma KeyOfSpacedWords(title: string, a: string, b: string, c: string)
    requires IsWord(a) && IsWord(b) && IsWord(c)
    requires ToLower(Trim(title)) == a + (" " + (b + (" " + c)))
    ensures FormatBookTitle(title) == JoinDash([a, b, c])
  {
    FormatBookTitleJoinsRuns(title);
    RunsOfSpacedWords(a, b, c);
  }

  // ----- the two queries -----

  /** A row lookup: table, filter column, filter value and optional ascending order column. */
  datatype Query = Query(table: string, column: string, value: string, orderBy: Option<string>)

  /** The lookup `fetchBookMetrics` sends. */
  function BookMetricsQuery(bookTitle: string): (q: Query)
    ensures q.table == "book_metrics" && q.column == "book_title" && q.orderBy == None
    ensures IsSlug(q.value)
  {
    var key := FormatBookTitle(bookTitle);
    assert IsSlug(key);
    Query("book_metrics", "book_title", key, None)
  }

  /** The lookup `fetchChapterMetrics` sends: chapters come back in chapter order. */
  function ChapterMetricsQuery(bookTitle: string): (q: Query)
    ensures q.table == "chapter_metrics" && q.column == "book_title"
    ensures q.orderBy == Some("chapter_number")
    ensures IsSlug(q.value)
  {
    var key := FormatBookTitle(bookTitle);
    assert IsSlug(key);
    Query("chapter_metrics", "book_title", key, Some("chapter_number"))
  }

  /** Both queries for one title use the same key, the formatted title. */
  lemma QueriesShareKey(bookTitle: string)
    ensures BookMetricsQuery(bookTitle).value == ChapterMetricsQuery(bookTitle).value
    ensures BookMetricsQuery(bookTitle).value == FormatBookTitle(bookTitle)
  {
  }
}
