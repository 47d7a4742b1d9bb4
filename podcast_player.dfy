/**
 * The podcast player's episode id: the last `/`-separated piece of the
 * Spotify URL, cut at its first `?`, and the embed address built from it.
 */
module PodcastPlayer {

  /**
   * `s.split(c)` for a one-character separator, one character at a time: a
   * `c` starts a new piece, any other character joins the first piece.
   */
  function Split(s: string, c: char): (parts: seq<string>)
    ensures |parts| >= 1
  {
    if s == [] then [""]
    else
      var rest := Split(s[1..], c);
      if s[0] == c then [""] + rest else [[s[0]] + rest[0]] + rest[1..]
  }

  /** A string is one piece exactly when it holds no `c`, and no piece holds `c`. */
  lemma {:induction false} SplitPieces(s: string, c: char)
    ensures |Split(s, c)| == 1 <==> c !in s
    ensures forall k :: 0 <= k < |Split(s, c)| ==> c !in Split(s, c)[k]
  {
    if s != [] {
      SplitPieces(s[1..], c);
      assert s == [s[0]] + s[1..];
    }
  }

  /** `parts.join(c)`. */
  function Join(parts: seq<string>, c: char): string
    requires |parts| >= 1
  {
    if |parts| == 1 then parts[0] else parts[0] + [c] + Join(parts[1..], c)
  }

  /** Joining after prefixing the first piece prefixes the joined string. */
  lemma JoinPrefixFirst(x: char, parts: seq<string>, c: char)
    requires |parts| >= 1
    ensures Join([[x] + parts[0]] + parts[1..], c) == [x] + Join(parts, c)
  {
    var q := [[x] + parts[0]] + parts[1..];
    if |parts| > 1 {
      assert q[1..] == parts[1..];
    }
  }

  /** Splitting and joining again gives back the string. */
  lemma {:induction false} SplitJoin(s: string, c: char)
    ensures Join(Split(s, c), c) == s
  {
    if s != [] {
      var rest := Split(s[1..], c);
      SplitJoin(s[1..], c);
      if s[0] == c {
        assert ([""] + rest)[1..] == rest;
      } else {
        JoinPrefixFirst(s[0], rest, c);
      }
      assert s == [s[0]] + s[1..];
    }
  }

  /** A string without `c` is one piece. */
  lemma {:induction false} SplitWithout(s: string, c: char)
    requires c !in s
    ensures Split(s, c) == [s]
  {
    if s != [] {
      assert c !in s[1..];
      SplitWithout(s[1..], c);
      assert s == [s[0]] + s[1..];
    }
  }

  /** One step of the definition, for a string written as its first character and the rest. */
  lemma SplitCons(x: char, t: string, c: char)
    ensures Split([x] + t, c)
         == if x == c then [""] + Split(t, c) else [[x] + Split(t, c)[0]] + Split(t, c)[1..]
  {
    assert ([x] + t)[1..] == t;
  }

  /** Prefixing the first piece commutes with appending further pieces. */
  lemma PrefixFirstAppend(x: char, ra: seq<string>, rb: seq<string>)
    requires |ra| >= 1
    ensures [[x] + (ra + rb)[0]] + (ra + rb)[1..] == [[x] + ra[0]] + ra[1..] + rb
  {
    assert (ra + rb)[1..] == ra[1..] + rb;
  }

  /** The inductive step of `SplitAround`: one more character in front of `t`. */
  lemma SplitAroundStep(x: char, t: string, b: string, c: char)
    requires Split(t + [c] + b, c) == Split(t, c) + Split(b, c)
    ensures Split([x] + t + [c] + b, c) == Split([x] + t, c) + Split(b, c)
  {
    assert [x] + t + [c] + b == [x] + (t + [c] + b);
    SplitCons(x, t + [c] + b, c);
    SplitCons(x, t, c);
    if x == c {
      assert [""] + (Split(t, c) + Split(b, c)) == [""] + Split(t, c) + Split(b, c);
    } else {
      PrefixFirstAppend(x, Split(t, c), Split(b, c));
    }
  }

  /** Splitting at one `c` splits the two sides independently. */
  lemma {:induction false} SplitAround(a: string, b: string, c: char)
    ensures Split(a + [c] + b, c) == Split(a, c) + Split(b, c)
  {
    if a == [] {
      assert a + [c] + b == [c] + b;
      SplitCons(c, b, c);
    } else {
      SplitAround(a[1..], b, c);
      SplitAroundStep(a[0], a[1..], b, c);
      assert a == [a[0]] + a[1..];
    }
  }

  /** `arr.pop()` on an array that is never empty, so its result is always defined. */
  function Last(parts: seq<string>): string
    requires |parts| >= 1
  {
    parts[|parts| - 1]
  }

  /** `spotifyUrl.split("/").pop()?.split("?")[0]`. */
  function EpisodeId(url: string): (id: string)
    ensures '/' !in id && '?' !in id
  {
    var segment := Last(Split(url, '/'));
    SplitPieces(url, '/');
    SplitPieces(segment, '?');
    FirstPieceIsPrefix(segment, '?');
    Split(segment, '?')[0]
  }

  /**
   * The first piece is a prefix of the string, ended by the first `c` or by
   * the end of the string.
   */
  lemma {:induction false} FirstPieceIsPrefix(s: string, c: char)
    ensures var p := Split(s, c)[0]; |p| <= |s| && p == s[..|p|] && c !in p
    ensures var p := Split(s, c)[0]; |p| < |s| ==> s[|p|] == c
  {
    if s != [] {
      FirstPieceIsPrefix(s[1..], c);
    }
  }

  /** The piece after the last `c` of `p + [c] + segment`, when `segment` holds none. */
  lemma LastPiece(p: string, segment: string, c: char)
    requires c !in segment
    ensures Last(Split(p + [c] + segment, c)) == segment
  {
    SplitAround(p, segment, c);
    SplitWithout(segment, c);
  }

  /** The piece before the first `c` of `a + [c] + b`, when `a` holds none. */
  lemma FirstPiece(a: string, b: string, c: char)
    requires c !in a
    ensures Split(a + [c] + b, c)[0] == a
  {
    SplitAround(a, b, c);
    SplitWithout(a, c);
  }

  /** A URL that ends in `/` has an empty id. */
  lemma TrailingSlashGivesEmpty(p: string)
    ensures EpisodeId(p + "/") == ""
  {
    assert p + "/" == p + ['/'] + "";
    LastPiece(p, "", '/');
  }

  /**
   * The id is the last `/`-free piece of the URL up to its first `?`: for
   * `url == p + id + q`, where `p` is empty or ends with `/`, neither `id`
   * nor `q` holds a `/`, `id` holds no `?` and `q` is empty or starts with
   * `?`, the id is `id`.
   */
  lemma EpisodeIdOfParts(p: string, id: string, q: string)
    requires p == [] || p[|p| - 1] == '/'
    requires '/' !in id && '/' !in q && '?' !in id
    requires q == [] || q[0] == '?'
    ensures EpisodeId(p + id + q) == id
  {
    var segment := id + q;
    assert '/' !in segment;
    assert p + id + q == p + segment;
    if p == [] {
      assert p + segment == segment;
      SplitWithout(segment, '/');
    } else {
      var p' := p[..|p| - 1];
      assert p + segment == p' + ['/'] + segment;
      LastPiece(p', segment, '/');
    }
    if q == [] {
      assert segment == id;
      SplitWithout(id, '?');
    } else {
      assert segment == id + ['?'] + q[1..];
      FirstPiece(id, q[1..], '?');
    }
  }

  const EmbedPrefix := "https://open.spotify.com/embed/episode/"
  const EmbedQuery := "?utm_source=generator&theme=0"

  /** The iframe's `src`: the embed prefix, the id and the fixed query. */
  function EmbedSrc(url: string): string {
    EmbedPrefix + EpisodeId(url) + EmbedQuery
  }

  /** The embed address carries the same episode id: reading it back gives the id it was built from. */
  lemma EmbedSrcKeepsId(url: string)
    ensures EpisodeId(EmbedSrc(url)) == EpisodeId(url)
  {
    EmbedLiterals();
    EpisodeIdOfParts(EmbedPrefix, EpisodeId(url), EmbedQuery);
  }

  lemma EmbedLiterals()
    ensures |EmbedPrefix| > 0 && EmbedPrefix[|EmbedPrefix| - 1] == '/'
    ensures |EmbedQuery| > 0 && EmbedQuery[0] == '?' && '/' !in EmbedQuery
  {
  }

  const AnatomyEpisodePage := "https://open.spotify.com/episode/"
  const AnatomyEpisode := "0VUkAMSWPEDEjaGNjG1vGC"
  const AnatomyShareQuery := "?si=a9h0mEtVRCWiQ4LnLdf8TA"

  lemma AnatomyLiterals()
    ensures |AnatomyEpisodePage| > 0 && AnatomyEpisodePage[|AnatomyEpisodePage| - 1] == '/'
    ensures '/' !in AnatomyEpisode && '?' !in AnatomyEpisode
    ensures |AnatomyShareQuery| > 0 && AnatomyShareQuery[0] == '?' && '/' !in AnatomyShareQuery
  {
  }

  /** The episode the anatomy tab links to, its URL written as page, episode and share query. */
  lemma AnatomyEpisodeId()
    ensures EpisodeId(AnatomyEpisodePage + AnatomyEpisode + AnatomyShareQuery) == "0VUkAMSWPEDEjaGNjG1vGC"
  {
    AnatomyLiterals();
    EpisodeIdOfParts(AnatomyEpisodePage, AnatomyEpisode, AnatomyShareQuery);
  }
}
