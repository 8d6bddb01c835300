/** Searching a text, as strings.Index and the leftmost match of a regular expression do. */
module Texts {
  import opened Options

  predicate OccursAt(s: string, sep: string, i: nat) {
    i + |sep| <= |s| && s[i..i + |sep|] == sep
  }

  ghost predicate Contains(s: string, sep: string) {
    exists i: nat :: OccursAt(s, sep, i)
  }

  lemma TailOccurrence(s: string, sep: string, i: nat)
    requires s != ""
    ensures OccursAt(s[1..], sep, i) <==> OccursAt(s, sep, i + 1)
  {
    AtInSuffix(s, 1, sep, i + 1);
  }

  /** Apart from the first place, a text and its tail have the same occurrences. */
  lemma TailOccurrences(s: string, sep: string)
    requires s != ""
    ensures forall i: nat :: OccursAt(s[1..], sep, i) ==> OccursAt(s, sep, i + 1)
    ensures forall i: nat :: i > 0 && OccursAt(s, sep, i) ==> OccursAt(s[1..], sep, i - 1)
  {
    hide OccursAt;
    forall i: nat ensures OccursAt(s[1..], sep, i) <==> OccursAt(s, sep, i + 1) {
      TailOccurrence(s, sep, i);
    }
    forall i: nat | i > 0 && OccursAt(s, sep, i) ensures OccursAt(s[1..], sep, i - 1) {
      TailOccurrence(s, sep, i - 1);
    }
  }

  /** strings.Index: the first place where sep occurs. */
  function Index(s: string, sep: string): (r: Option<nat>)
    ensures r.Some? ==> OccursAt(s, sep, r.value) && forall i: nat :: i < r.value ==> !OccursAt(s, sep, i)
    ensures r.None? ==> !Contains(s, sep)
  {
    if sep <= s then Some(0)
    else if s == "" then None
    else
      TailOccurrences(s, sep);
      match Index(s[1..], sep)
      case None => None
      case Some(i) => Some(i + 1)
  }

  /** The first occurrence is the one with none before it. */
  lemma IndexIs(s: string, sep: string, i: nat)
    requires OccursAt(s, sep, i) && forall j: nat :: j < i ==> !OccursAt(s, sep, j)
    ensures Index(s, sep) == Some(i)
  {
    assert Contains(s, sep);
  }

  /** One character that differs is enough to rule an occurrence out. */
  lemma NotAt(s: string, sep: string, i: nat, j: nat)
    requires j < |sep| && (i + j < |s| ==> s[i + j] != sep[j])
    ensures !OccursAt(s, sep, i)
  {
    if OccursAt(s, sep, i) {
      CharAt(s, sep, i, j);
    }
  }

  lemma CharAt(s: string, sep: string, i: nat, j: nat)
    requires OccursAt(s, sep, i) && j < |sep|
    ensures i + j < |s| && s[i + j] == sep[j]
  {
    assert s[i..i + |sep|][j] == s[i + j];
  }

  /** Occurrences in a prefix of the text are occurrences in the text. */
  lemma AtInPrefix(s: string, more: string, sep: string, i: nat)
    requires i + |sep| <= |s|
    ensures OccursAt(s + more, sep, i) <==> OccursAt(s, sep, i)
  {
    assert (s + more)[i..i + |sep|] == s[i..i + |sep|];
  }

  lemma IndexFinds(s: string, sep: string)
    ensures Index(s, sep).Some? <==> Contains(s, sep)
    ensures Index(s, sep).Some? ==> Index(s, sep).value + |sep| <= |s|
  {
    hide Index;
  }

  /** When nothing starts in front of it, the first occurrence in the rest is the first one. */
  lemma IndexInSuffix(front: string, rest: string, sep: string)
    requires Contains(rest, sep) && forall k: nat :: k < |front| ==> !OccursAt(front + rest, sep, k)
    ensures Index(front + rest, sep) == Some(|front| + Index(rest, sep).value)
  {
    hide OccursAt, Index;
    var i := Index(rest, sep).value;
    forall k: nat | |front| <= k <= |front| + i ensures OccursAt(front + rest, sep, k) <==> k == |front| + i {
      AtInSuffix(front + rest, |front|, sep, k);
      assert (front + rest)[|front|..] == rest;
    }
    IndexIs(front + rest, sep, |front| + i);
  }

  /** Occurrences behind a place are occurrences in the rest of the text. */
  lemma AtInSuffix(s: string, from: nat, sep: string, i: nat)
    requires from <= i && from <= |s|
    ensures OccursAt(s, sep, i) <==> OccursAt(s[from..], sep, i - from)
  {
    if i + |sep| <= |s| {
      assert s[i..i + |sep|] == s[from..][i - from..i - from + |sep|];
    }
  }
}
