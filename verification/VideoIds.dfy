/** Finding the video id in what a user typed. */
module VideoIds {
  import opened Options
  import opened Texts

  predicate SepAt(s: string, seps: seq<string>, i: nat) {
    exists k :: 0 <= k < |seps| && OccursAt(s, seps[k], i)
  }

  /** The longest prefix in which no separator starts. */
  function UpToSep(s: string, seps: seq<string>): string {
    if s == "" || SepAt(s, seps, 0) then "" else [s[0]] + UpToSep(s[1..], seps)
  }

  lemma {:induction false} UpToSepIs(s: string, seps: seq<string>, end: nat)
    requires end <= |s| && (end < |s| ==> SepAt(s, seps, end))
    requires forall i: nat :: i < end ==> !SepAt(s, seps, i)
    ensures UpToSep(s, seps) == s[..end]
  {
    if end > 0 {
      forall i: nat, k | 0 <= k < |seps| && i < |s|
        ensures OccursAt(s[1..], seps[k], i) <==> OccursAt(s, seps[k], i + 1)
      {
        if i + 1 + |seps[k]| <= |s| {
          assert s[1..][i..i + |seps[k]|] == s[i + 1..i + 1 + |seps[k]|];
        }
      }
      forall i: nat | i < |s| ensures SepAt(s[1..], seps, i) <==> SepAt(s, seps, i + 1) {
        if SepAt(s, seps, i + 1) {
          var k :| 0 <= k < |seps| && OccursAt(s, seps[k], i + 1);
          assert OccursAt(s[1..], seps[k], i);
        }
      }
      UpToSepIs(s[1..], seps, end - 1);
      assert s[..end] == [s[0]] + s[1..][..end - 1];
    }
  }

  method SplitAtFirstAny(s: string, seps: seq<string>) returns (r: string)
    ensures r == UpToSep(s, seps)
    ensures r <= s && (|r| < |s| ==> SepAt(s, seps, |r|))
    ensures forall i: nat :: i < |r| ==> !SepAt(s, seps, i)
  {
    var end := |s|;
    for k := 0 to |seps|
      invariant 0 <= end <= |s|
      invariant end < |s| ==> SepAt(s, seps, end)
      invariant forall i: nat, j :: i < end && 0 <= j < k ==> !OccursAt(s, seps[j], i)
    {
      var at := Index(s, seps[k]);
      if at.Some? && at.value < end {
        end := at.value;
      }
    }
    r := s[..end];
    UpToSepIs(s, seps, end);
  }

  const SHORT := "youtu.be/"
  const MARK := "v="

  function ExtractVideoID(input: string): string {
    match Index(input, SHORT)
    case Some(i) => UpToSep(input[i + |SHORT|..], ["?", "&", "/"])
    case None =>
      match Index(input, MARK)
      case Some(i) => UpToSep(input[i + |MARK|..], ["&", "?"])
      case None => ""
  }

  // ---------------------------------------------------------------- round trips

  predicate IdChar(c: char) {
    'A' <= c <= 'Z' || 'a' <= c <= 'z' || '0' <= c <= '9' || c == '_' || c == '-'
  }

  predicate IsId(id: string) {
    forall i :: 0 <= i < |id| ==> IdChar(id[i])
  }

  const WATCH := "https://www.youtube.com/watch?v="

  predicate Query(suffix: string) {
    suffix == "" || suffix[0] == '&' || suffix[0] == '?'
  }

  /** One-character separators outside the alphabet of ids cut exactly behind the id. */
  lemma CutBehindId(id: string, suffix: string, seps: seq<string>)
    requires IsId(id) && (forall k :: 0 <= k < |seps| ==> |seps[k]| == 1 && !IdChar(seps[k][0]))
    requires suffix == "" || [suffix[0]] in seps
    ensures UpToSep(id + suffix, seps) == id
  {
    var s := id + suffix;
    forall i: nat | i < |id| ensures !SepAt(s, seps, i) {
      forall k | 0 <= k < |seps| ensures !OccursAt(s, seps[k], i) {
        assert s[i] == id[i];
        NotAt(s, seps[k], i, 0);
      }
    }
    if suffix != "" {
      var k :| 0 <= k < |seps| && seps[k] == [suffix[0]];
      assert s[|id|..|id| + 1] == seps[k];
      assert OccursAt(s, seps[k], |id|);
    }
    UpToSepIs(s, seps, |id|);
    assert s[..|id|] == id;
  }

  /** The marker of a short link lies in the suffix or nowhere. */
  lemma NoShortLink(id: string, suffix: string)
    requires IsId(id) && Query(suffix) && !Contains(suffix, SHORT)
    ensures !Contains(WATCH + id + suffix, SHORT)
  {
    forall k: nat ensures !OccursAt(WATCH + id + suffix, SHORT, k) {
      NoShortLinkAt(id, suffix, k);
    }
  }

  lemma NoShortLinkAt(id: string, suffix: string, k: nat)
    requires IsId(id) && Query(suffix) && !Contains(suffix, SHORT)
    ensures !OccursAt(WATCH + id + suffix, SHORT, k)
  {
    var s := WATCH + id + suffix;
    var p := |WATCH| + |id|;
    if k >= p {
      assert s[p..] == suffix;
      AtInSuffix(s, p, SHORT, k);
    } else {
      NotBeforeSuffix(id, suffix, k);
    }
  }

  lemma NotBeforeSuffix(id: string, suffix: string, k: nat)
    requires IsId(id) && Query(suffix) && k < |WATCH| + |id|
    ensures !OccursAt(WATCH + id + suffix, SHORT, k)
  {
    var s := WATCH + id + suffix;
    var p := |WATCH| + |id|;
    hide OccursAt;
    if k + 5 < |WATCH| && k != 6 && k != 14 {
      assert s[k + 5] == WATCH[k + 5] != '.';
      NotAt(s, SHORT, k, 5);
    } else if k < |WATCH| && k + 5 < |WATCH| {
      assert s[k] == WATCH[k] != 'y';
      NotAt(s, SHORT, k, 0);
    } else if k + 5 < p {
      assert s[k + 5] == id[k + 5 - |WATCH|];
      NotAt(s, SHORT, k, 5);
    } else {
      assert p < |s| ==> s[p] == suffix[0];
      NotAt(s, SHORT, k, p - k);
    }
  }

  lemma WatchRoundTrip(id: string, suffix: string)
    requires IsId(id) && Query(suffix) && !Contains(suffix, SHORT)
    ensures ExtractVideoID(WATCH + id + suffix) == id
  {
    var s := WATCH + id + suffix;
    NoShortLink(id, suffix);
    assert WATCH[30] == 'v' && WATCH[31] == '=';
    assert s[30..32] == MARK;
    forall j: nat | j < 30 ensures !OccursAt(s, MARK, j) {
      assert s[j] == WATCH[j] != 'v';
      NotAt(s, MARK, j, 0);
    }
    IndexIs(s, MARK, 30);
    assert s[32..] == id + suffix;
    CutBehindId(id, suffix, ["&", "?"]);
  }

  /** A short link gives its id whatever stands before it, provided no earlier marker does. */
  lemma ShortRoundTrip(before: string, id: string, suffix: string)
    requires IsId(id) && (Query(suffix) || suffix[0] == '/')
    requires !Contains(before, SHORT)
    ensures ExtractVideoID(before + SHORT + (id + suffix)) == id
  {
    var s := before + SHORT + (id + suffix);
    ShortIsFirst(before, id + suffix);
    assert s[|before| + |SHORT|..] == id + suffix;
    CutBehindId(id, suffix, ["?", "&", "/"]);
  }

  /** The marker has one slash, at its end: no earlier occurrence overlaps it. */
  lemma ShortIsFirst(before: string, after: string)
    requires !Contains(before, SHORT)
    ensures Index(before + SHORT + after, SHORT) == Some(|before|)
  {
    var s := before + SHORT + after;
    forall j: nat | j < |before| ensures !OccursAt(s, SHORT, j) {
      NotEarlier(before, after, j);
    }
    assert s[|before|..|before| + |SHORT|] == SHORT;
    IndexIs(s, SHORT, |before|);
  }

  lemma NotEarlier(before: string, after: string, j: nat)
    requires !Contains(before, SHORT) && j < |before|
    ensures !OccursAt(before + SHORT + after, SHORT, j)
  {
    var s := before + SHORT + after;
    if j + |SHORT| <= |before| {
      assert s == before + (SHORT + after);
      AtInPrefix(before, SHORT + after, SHORT, j);
    } else {
      hide OccursAt, Contains;
      assert s[j + 8] == SHORT[j + 8 - |before|];
      NotAt(s, SHORT, j, 8);
    }
  }

  /** The first short link of a watch URL is the first one of its query. */
  lemma ShortInSuffix(id: string, suffix: string)
    requires IsId(id) && Query(suffix) && Contains(suffix, SHORT)
    ensures Index(WATCH + id + suffix, SHORT) == Some(|WATCH| + |id| + Index(suffix, SHORT).value)
  {
    hide OccursAt, Contains, IsId, Query, Index;
    forall k: nat | k < |WATCH| + |id| ensures !OccursAt(WATCH + id + suffix, SHORT, k) {
      NotBeforeSuffix(id, suffix, k);
    }
    IndexInSuffix(WATCH + id, suffix, SHORT);
  }

  /** What follows the first short link of a text, up to a separator. */
  function ShortId(suffix: string): Option<string> {
    match Index(suffix, SHORT)
    case None => None
    case Some(i) => Some(UpToSep(suffix[i + |SHORT|..], ["?", "&", "/"]))
  }

  lemma SuffixOfRest<T>(front: seq<T>, rest: seq<T>, n: nat)
    requires n <= |rest|
    ensures (front + rest)[|front| + n..] == rest[n..]
  {
  }

  /** A short link in the query of a watch page takes over. */
  lemma ShortTakesOver(id: string, suffix: string)
    requires IsId(id) && Query(suffix) && Contains(suffix, SHORT)
    ensures ShortId(suffix) == Some(ExtractVideoID(WATCH + id + suffix))
  {
    hide OccursAt, Contains, IsId, Query, Index, UpToSep;
    ShortInSuffix(id, suffix);
    IndexFinds(suffix, SHORT);
    SuffixOfRest(WATCH + id, suffix, Index(suffix, SHORT).value + |SHORT|);
  }

  /** From a watch URL the id comes back exactly when its query holds no short link, or holds first one
      to the same id. */
  lemma WatchExactly(id: string, suffix: string)
    requires IsId(id) && Query(suffix)
    ensures ExtractVideoID(WATCH + id + suffix) == id
       <==> !Contains(suffix, SHORT) || ShortId(suffix) == Some(id)
    ensures Contains(suffix, SHORT) ==> ShortId(suffix) == Some(ExtractVideoID(WATCH + id + suffix))
  {
    hide Contains, IsId, Query, ShortId, ExtractVideoID;
    if Contains(suffix, SHORT) {
      ShortTakesOver(id, suffix);
    } else {
      WatchRoundTrip(id, suffix);
    }
  }

  /** Such a query, for any two different ids. */
  lemma HiddenLinkWins(id: string, other: string)
    requires IsId(id) && IsId(other)
    ensures ExtractVideoID(WATCH + id + "&u=" + SHORT + (other + "")) == other
    ensures other != id ==> ExtractVideoID(WATCH + id + "&u=" + SHORT + (other + "")) != id
  {
    forall j: nat ensures !OccursAt("&u=", SHORT, j) {
    }
    NoShortLink(id, "&u=");
    ShortRoundTrip(WATCH + id + "&u=", other, "");
  }

  /** Of any other address the id is what follows its first "v=", if there is no short link. */
  lemma MarkRoundTrip(before: string, id: string, suffix: string)
    requires IsId(id) && Query(suffix) && !Contains(before, MARK)
    requires !Contains(before + MARK + (id + suffix), SHORT)
    ensures ExtractVideoID(before + MARK + (id + suffix)) == id
  {
    var s := before + MARK + (id + suffix);
    MarkIsFirst(before, id + suffix);
    IndexFinds(s, SHORT);
    assert s[|before| + |MARK|..] == id + suffix;
    CutBehindId(id, suffix, ["&", "?"]);
  }

  lemma MarkIsFirst(before: string, after: string)
    requires !Contains(before, MARK)
    ensures Index(before + MARK + after, MARK) == Some(|before|)
  {
    var s := before + MARK + after;
    forall j: nat | j < |before| ensures !OccursAt(s, MARK, j) {
      if j + |MARK| <= |before| {
        assert s == before + (MARK + after);
        AtInPrefix(before, MARK + after, MARK, j);
      } else {
        assert s[j + 1] == 'v';
        NotAt(s, MARK, j, 1);
      }
    }
    assert s[|before|..|before| + |MARK|] == MARK;
    IndexIs(s, MARK, |before|);
  }

  /** Without either marker there is no id. */
  lemma NoMarkerNoId(input: string)
    requires !Contains(input, SHORT) && !Contains(input, MARK)
    ensures ExtractVideoID(input) == ""
  {
    IndexFinds(input, SHORT);
    IndexFinds(input, MARK);
  }

  /** The id found never holds a separator and is a piece of the input. */
  lemma ExtractedIsAPiece(input: string)
    ensures var id := ExtractVideoID(input); Contains(input, id) && '&' !in id && '?' !in id
    ensures Contains(input, SHORT) ==> '/' !in ExtractVideoID(input)
  {
    if Index(input, SHORT).Some? {
      PieceAfter(input, Index(input, SHORT).value + 9, ["?", "&", "/"]);
    } else if Index(input, MARK).Some? {
      PieceAfter(input, Index(input, MARK).value + 2, ["&", "?"]);
    } else {
      assert OccursAt(input, "", 0);
    }
  }

  lemma {:induction false} PieceAfter(input: string, from: nat, seps: seq<string>)
    requires from <= |input|
    ensures OccursAt(input, UpToSep(input[from..], seps), from)
    ensures forall c :: [c] in seps ==> c !in UpToSep(input[from..], seps)
    decreases |input| - from
  {
    var s := input[from..];
    if s != "" && !SepAt(s, seps, 0) {
      PieceAfter(input, from + 1, seps);
      assert s[1..] == input[from + 1..];
      forall k | 0 <= k < |seps| && |seps[k]| == 1 ensures seps[k] != [s[0]] {
        assert !OccursAt(s, seps[k], 0);
        assert s[0..1] == [s[0]];
      }
    }
  }
}
