/** sanitizeFilename: forbidden characters become spaces, runs of white space one space, and white
    space at the ends goes. */
module Filenames {
  import opened Seqs

  predicate Forbidden(c: char) {
    c == '\\' || c == '/' || c == ':' || c == '*' || c == '?' || c == '\"' || c == '<' || c == '>' || c == '|'
  }

  /** The class \s of the regular expression. */
  predicate RegexSpace(c: char) {
    c == '\t' || c == '\n' || c == '\U{000C}' || c == '\r' || c == ' '
  }

  /** What strings.TrimSpace removes: the white space of Unicode, which is more than \s. */
  predicate TrimmedSpace(c: char) {
    || RegexSpace(c) || c == '\U{000B}' || c == '\U{0085}' || c == '\U{00A0}' || c == '\U{1680}'
    || '\U{2000}' <= c <= '\U{200A}' || c == '\U{2028}' || c == '\U{2029}' || c == '\U{202F}'
    || c == '\U{205F}' || c == '\U{3000}'
  }

  function Replace(s: string): string {
    if s == "" then "" else Replace(s[..|s| - 1]) + [if Forbidden(s[|s| - 1]) then ' ' else s[|s| - 1]]
  }

  /** Each maximal run of \s becomes one space. */
  function Collapse(s: string): string {
    if s == "" then ""
    else
      var front, c := Collapse(s[..|s| - 1]), s[|s| - 1];
      if !RegexSpace(c) then front + [c]
      else if front != "" && front[|front| - 1] == ' ' then front
      else front + " "
  }

  function TrimLeft(s: string): string {
    if s != "" && TrimmedSpace(s[0]) then TrimLeft(s[1..]) else s
  }

  function TrimRight(s: string): string {
    if s != "" && TrimmedSpace(s[|s| - 1]) then TrimRight(s[..|s| - 1]) else s
  }

  function Sanitize(name: string): string {
    TrimRight(TrimLeft(Collapse(Replace(name))))
  }

  // ---------------------------------------------------------------- the canonical form

  /** No forbidden character, no white space but single blanks for the regular expression. */
  predicate Inner(s: string) {
    && (forall i :: 0 <= i < |s| ==> !Forbidden(s[i]) && (RegexSpace(s[i]) ==> s[i] == ' '))
    && (forall i, j :: 0 <= i < |s| && i < j < |s| && j == i + 1 && s[i] == ' ' ==> s[j] != ' ')
  }

  predicate Canonical(s: string) {
    Inner(s) && (s != "" ==> !TrimmedSpace(s[0]) && !TrimmedSpace(s[|s| - 1]))
  }

  /** The characters that are neither forbidden nor white space. */
  function Kept(s: string): string {
    if s == "" then ""
    else
      var c := s[|s| - 1];
      Kept(s[..|s| - 1]) + (if Forbidden(c) || TrimmedSpace(c) then "" else [c])
  }

  lemma Classes(c: char)
    ensures !Forbidden(' ') && RegexSpace(' ') && TrimmedSpace(' ')
    ensures RegexSpace(c) ==> TrimmedSpace(c) && !Forbidden(c)
  {
  }

  lemma KeptMore(s: string, c: char)
    ensures Kept(s + [c]) == Kept(s) + if Forbidden(c) || TrimmedSpace(c) then "" else [c]
  {
    var t := s + [c];
    assert t[..|t| - 1] == s && t[|t| - 1] == c;
    hide Forbidden, TrimmedSpace;
  }

  lemma InnerMore(s: string, c: char)
    ensures Inner(s + [c]) <==>
      Inner(s) && !Forbidden(c) && (RegexSpace(c) ==> c == ' ' && (s == "" || s[|s| - 1] != ' '))
  {
    hide Forbidden, RegexSpace;
    var t := s + [c];
    assert t[|s|] == c && forall i :: 0 <= i < |s| ==> t[i] == s[i];
    assert RegexSpace(' ') by { Classes(' '); }
  }

  lemma {:induction false} ReplaceClean(s: string)
    ensures |Replace(s)| == |s| && forall i :: 0 <= i < |s| ==> !Forbidden(Replace(s)[i])
    ensures (forall i :: 0 <= i < |s| ==> !Forbidden(s[i])) ==> Replace(s) == s
    ensures Kept(Replace(s)) == Kept(s)
  {
    hide Forbidden, RegexSpace, TrimmedSpace, Kept;
    if s != "" {
      var front, c := s[..|s| - 1], s[|s| - 1];
      var done, next := Replace(front), if Forbidden(c) then ' ' else c;
      ReplaceClean(front);
      SplitLast(s);
      assert Replace(s) == done + [next];
      hide Replace;
      Classes(c);
      KeptMore(front, c);
      KeptMore(done, next);
    }
  }

  lemma {:induction false} CollapseInner(s: string)
    requires forall i :: 0 <= i < |s| ==> !Forbidden(s[i])
    ensures Inner(Collapse(s)) && Kept(Collapse(s)) == Kept(s)
    ensures Inner(s) ==> Collapse(s) == s
  {
    hide Forbidden, RegexSpace, TrimmedSpace, Kept;
    if s != "" {
      var front, c := s[..|s| - 1], s[|s| - 1];
      hide Inner;
      var done, next := Collapse(front), if RegexSpace(c) then ' ' else c;
      CollapseInner(front);
      SplitLast(s);
      assert Collapse(s) == if RegexSpace(c) && done != "" && done[|done| - 1] == ' ' then done else done + [next];
      hide Collapse;
      Classes(c);
      KeptMore(front, c);
      KeptMore(done, next);
      InnerMore(front, c);
      InnerMore(done, next);
    }
  }

  lemma {:induction false} TrimLeftInner(s: string)
    requires Inner(s)
    ensures var r := TrimLeft(s); Inner(r) && (r != "" ==> !TrimmedSpace(r[0])) && Kept(r) == Kept(s)
  {
    if s != "" && TrimmedSpace(s[0]) {
      assert forall i :: 0 <= i < |s| - 1 ==> s[1..][i] == s[i + 1];
      TrimLeftInner(s[1..]);
      KeptDropsSpace(s);
    }
  }

  lemma {:induction false} KeptDropsSpace(s: string)
    requires s != "" && TrimmedSpace(s[0])
    ensures Kept(s[1..]) == Kept(s)
  {
    if |s| > 1 {
      KeptDropsSpace(s[..|s| - 1]);
      assert s[..|s| - 1][1..] == s[1..][..|s| - 2];
    } else {
      assert s[..0] == "" && s[1..] == "";
    }
  }

  lemma {:induction false} TrimRightInner(s: string)
    requires Inner(s) && (s != "" ==> !TrimmedSpace(s[0]))
    ensures Canonical(TrimRight(s)) && Kept(TrimRight(s)) == Kept(s)
  {
    if s != "" && TrimmedSpace(s[|s| - 1]) {
      TrimRightInner(s[..|s| - 1]);
    }
  }

  /** The result is canonical and keeps every other character in order. */
  lemma SanitizeCanonical(name: string)
    ensures Canonical(Sanitize(name)) && Kept(Sanitize(name)) == Kept(name)
  {
    ReplaceClean(name);
    CollapseInner(Replace(name));
    TrimLeftInner(Collapse(Replace(name)));
    TrimRightInner(TrimLeft(Collapse(Replace(name))));
  }

  /** The canonical names are exactly those that are left as they are. */
  lemma FixedExactly(name: string)
    ensures Sanitize(name) == name <==> Canonical(name)
  {
    SanitizeCanonical(name);
    if Canonical(name) {
      ReplaceClean(name);
      CollapseInner(name);
    }
  }

  lemma Idempotent(name: string)
    ensures Sanitize(Sanitize(name)) == Sanitize(name)
  {
    SanitizeCanonical(name);
    FixedExactly(Sanitize(name));
  }

  // ---------------------------------------------------------------- the words of a name

  /** Neither forbidden nor white space for the regular expression. */
  predicate Solid(s: string) {
    forall i :: 0 <= i < |s| ==> !Forbidden(s[i]) && !RegexSpace(s[i])
  }

  /** What stands between two words. */
  predicate Gap(s: string) {
    forall i :: 0 <= i < |s| ==> Forbidden(s[i]) || RegexSpace(s[i])
  }

  /** Words, none of them empty, and the gaps around them, of which only the outer two may be empty. */
  predicate Spaced(words: seq<string>, gaps: seq<string>) {
    && |gaps| == |words| + 1
    && (forall i :: 0 <= i < |words| ==> words[i] != "" && Solid(words[i]))
    && (forall i :: 0 <= i < |gaps| ==> Gap(gaps[i]) && (0 < i < |words| ==> gaps[i] != ""))
  }

  /** A name written with these words and gaps. */
  function Written(words: seq<string>, gaps: seq<string>): string
    requires |gaps| == |words| + 1
  {
    if words == [] then gaps[0]
    else
      var n := |words| - 1;
      Written(words[..n], gaps[..n + 1]) + words[n] + gaps[n + 1]
  }

  /** The words joined by single blanks. */
  function Joined(words: seq<string>): string {
    if words == [] then ""
    else if |words| == 1 then words[0]
    else Joined(words[..|words| - 1]) + " " + words[|words| - 1]
  }

  function Trim(s: string): string {
    TrimRight(TrimLeft(s))
  }

  function Squeeze(s: string): string {
    Collapse(Replace(s))
  }

  predicate EndsBlank(s: string) {
    s != "" && s[|s| - 1] == ' '
  }

  lemma SqueezeOne(s: string, c: char)
    ensures Squeeze(s + [c]) ==
      if !Forbidden(c) && !RegexSpace(c) then Squeeze(s) + [c]
      else if EndsBlank(Squeeze(s)) then Squeeze(s) else Squeeze(s) + " "
    ensures Squeeze("") == ""
  {
    var d := if Forbidden(c) then ' ' else c;
    assert (s + [c])[..|s|] == s && (s + [c])[|s|] == c;
    assert Replace(s + [c]) == Replace(s) + [d];
    assert (Replace(s) + [d])[..|Replace(s)|] == Replace(s);
    Classes(c);
    hide Replace, Forbidden, RegexSpace;
  }

  lemma {:induction false} SqueezeWord(s: string, word: string)
    requires Solid(word)
    ensures Squeeze(s + word) == Squeeze(s) + word
  {
    hide Squeeze, Forbidden, RegexSpace;
    if word == "" {
      assert s + word == s;
    } else {
      var front, c := word[..|word| - 1], word[|word| - 1];
      SqueezeWord(s, front);
      SqueezeOne(s + front, c);
      assert s + word == s + front + [c] && word == front + [c];
    }
  }

  lemma {:induction false} SqueezeGap(s: string, gap: string)
    requires Gap(gap)
    ensures Squeeze(s + gap) == if gap == "" || EndsBlank(Squeeze(s)) then Squeeze(s) else Squeeze(s) + " "
  {
    hide Squeeze, Forbidden, RegexSpace;
    if gap == "" {
      assert s + gap == s;
    } else {
      var front, c := gap[..|gap| - 1], gap[|gap| - 1];
      SqueezeGap(s, front);
      SqueezeOne(s + front, c);
      assert s + gap == s + front + [c];
    }
  }

  function Blank(gap: string): string {
    if gap == "" then "" else " "
  }

  lemma SpacedFront(words: seq<string>, gaps: seq<string>)
    requires Spaced(words, gaps) && words != []
    ensures var n := |words| - 1;
      && Spaced(words[..n], gaps[..n + 1]) && gaps[..n + 1][0] == gaps[0] && gaps[..n + 1][n] == gaps[n]
      && Solid(words[n]) && words[n] != "" && Gap(gaps[n + 1]) && (n > 0 ==> gaps[n] != "")
  {
    hide Solid, Gap;
  }

  lemma Assoc(a: string, b: string, c: string, d: string, e: string)
    ensures a + b + c + d + e == a + (b + c + d) + e
  {
  }

  /** Squeezed, a name is its words joined by single blanks, and a blank at an end that had a gap. */
  lemma {:induction false} SqueezeWritten(words: seq<string>, gaps: seq<string>)
    requires Spaced(words, gaps)
    ensures Squeeze(Written(words, gaps)) ==
      if words == [] then Blank(gaps[0]) else Blank(gaps[0]) + Joined(words) + Blank(gaps[|words|])
  {
    SqueezeOne("", ' ');
    hide Squeeze, Solid, Gap, EndsBlank;
    if words == [] {
      assert Gap(gaps[0]);
      SqueezeGap("", gaps[0]);
      assert "" + gaps[0] == gaps[0] && !EndsBlank("") by { NothingEnds(); }
    } else {
      var n := |words| - 1;
      var front, word := Written(words[..n], gaps[..n + 1]), words[n];
      SpacedFront(words, gaps);
      hide Spaced;
      SqueezeWritten(words[..n], gaps[..n + 1]);
      SqueezeWord(front, word);
      SqueezeGap(front + word, gaps[n + 1]);
      WordEnd(Squeeze(front), word);
      if n > 0 {
        Assoc(Blank(gaps[0]), Joined(words[..n]), " ", word, Blank(gaps[n + 1]));
      }
    }
  }

  lemma NothingEnds()
    ensures !EndsBlank("")
  {
  }

  lemma WordEnd(s: string, word: string)
    requires word != "" && Solid(word)
    ensures !EndsBlank(s + word)
  {
    Classes(' ');
    assert (s + word)[|s + word| - 1] == word[|word| - 1];
  }

  lemma {:induction false} TrimLeftMore(s: string)
    ensures Trim(s + " ") == Trim(s)
  {
    Classes(' ');
    hide TrimmedSpace;
    if s == "" {
      assert s + " " == " " && " "[1..] == "";
      assert TrimLeft(" ") == TrimLeft("");
    } else if TrimmedSpace(s[0]) {
      TrimLeftMore(s[1..]);
      assert (s + " ")[1..] == s[1..] + " ";
      assert TrimLeft(s + " ") == TrimLeft(s[1..] + " ") && TrimLeft(s) == TrimLeft(s[1..]);
    } else {
      assert (s + " ")[..|s|] == s;
    }
  }

  lemma TrimBlanks(s: string, a: string, b: string)
    requires (a == "" || a == " ") && (b == "" || b == " ")
    ensures Trim(a + s + b) == Trim(s)
  {
    Classes(' ');
    hide TrimmedSpace;
    if a == " " {
      assert (a + s)[1..] == s;
      assert TrimLeft(a + s) == TrimLeft(s);
    } else {
      assert a + s == s;
    }
    if b == " " {
      TrimLeftMore(a + s);
    } else {
      assert a + s + b == a + s;
    }
  }

  /** The word law: a sanitized name is its words joined by single blanks, trimmed; the trimming matters
      only where a word begins or ends with white space unknown to the regular expression. */
  lemma WordLaw(words: seq<string>, gaps: seq<string>)
    requires Spaced(words, gaps)
    ensures Sanitize(Written(words, gaps)) == Trim(Joined(words))
    ensures words == [] || (!TrimmedSpace(words[0][0]) && !TrimmedSpace(words[|words| - 1][|words[|words| - 1]| - 1]))
        ==> Sanitize(Written(words, gaps)) == Joined(words)
  {
    SqueezeWritten(words, gaps);
    if words == [] {
      TrimBlanks("", Blank(gaps[0]), "");
      assert Blank(gaps[0]) + "" + "" == Blank(gaps[0]);
    } else {
      TrimBlanks(Joined(words), Blank(gaps[0]), Blank(gaps[|words|]));
      JoinedEnds(words);
    }
    hide Squeeze, Joined, Blank, Written, TrimmedSpace;
  }

  lemma {:induction false} JoinedEnds(words: seq<string>)
    requires words != [] && forall i :: 0 <= i < |words| ==> words[i] != ""
    ensures var s, last := Joined(words), words[|words| - 1];
      s != "" && s[0] == words[0][0] && s[|s| - 1] == last[|last| - 1]
  {
    if |words| > 1 {
      JoinedEnds(words[..|words| - 1]);
    }
  }

  lemma WrittenMore(words: seq<string>, gaps: seq<string>, word: string, gap: string)
    requires |gaps| == |words| + 1
    ensures Written(words + [word], gaps + [gap]) == Written(words, gaps) + word + gap
  {
    var n := |words|;
    assert (words + [word])[..n] == words && (gaps + [gap])[..n + 1] == gaps;
  }

  /** One more separator at the end. */
  lemma GapGrows(words: seq<string>, gaps: seq<string>, c: char) returns (gaps': seq<string>)
    requires Spaced(words, gaps) && (Forbidden(c) || RegexSpace(c))
    ensures Spaced(words, gaps') && Written(words, gaps') == Written(words, gaps) + [c]
  {
    hide Forbidden, RegexSpace;
    var n := |words|;
    gaps' := gaps[n := gaps[n] + [c]];
    if n > 0 {
      assert gaps'[..n] == gaps[..n];
      hide Spaced;
      assert Written(words, gaps) == Written(words[..n - 1], gaps[..n]) + words[n - 1] + gaps[n];
      assert Written(words, gaps') == Written(words[..n - 1], gaps[..n]) + words[n - 1] + (gaps[n] + [c]);
    }
  }

  /** One more letter of the last word. */
  lemma WordGrows(words: seq<string>, gaps: seq<string>, c: char) returns (words': seq<string>)
    requires Spaced(words, gaps) && words != [] && gaps[|words|] == "" && !Forbidden(c) && !RegexSpace(c)
    ensures Spaced(words', gaps) && Written(words', gaps) == Written(words, gaps) + [c]
  {
    hide Forbidden, RegexSpace;
    var n := |words|;
    words' := words[n - 1 := words[n - 1] + [c]];
    assert words'[..n - 1] == words[..n - 1];
    hide Spaced;
    assert Written(words, gaps) == Written(words[..n - 1], gaps[..n]) + words[n - 1] + "";
    assert Written(words', gaps) == Written(words[..n - 1], gaps[..n]) + (words[n - 1] + [c]) + "";
  }

  /** A new word. */
  lemma WordStarts(words: seq<string>, gaps: seq<string>, c: char) returns (words': seq<string>, gaps': seq<string>)
    requires Spaced(words, gaps) && (words == [] || gaps[|words|] != "") && !Forbidden(c) && !RegexSpace(c)
    ensures Spaced(words', gaps') && Written(words', gaps') == Written(words, gaps) + [c]
  {
    hide Forbidden, RegexSpace, Written;
    WrittenMore(words, gaps, [c], "");
    words', gaps' := words + [[c]], gaps + [""];
    assert Written(words, gaps) + [c] + "" == Written(words, gaps) + [c];
  }

  /** Every name can be written so. */
  lemma {:induction false} EveryNameIsWritten(name: string) returns (words: seq<string>, gaps: seq<string>)
    ensures Spaced(words, gaps) && Written(words, gaps) == name
  {
    hide Forbidden, RegexSpace;
    if name == "" {
      words, gaps := [], [""];
    } else {
      var c := name[|name| - 1];
      words, gaps := EveryNameIsWritten(name[..|name| - 1]);
      SplitLast(name);
      if Forbidden(c) || RegexSpace(c) {
        gaps := GapGrows(words, gaps, c);
      } else if words != [] && gaps[|words|] == "" {
        words := WordGrows(words, gaps, c);
      } else {
        words, gaps := WordStarts(words, gaps, c);
      }
    }
  }
}
