/** parseISO8601Duration: the first "PT", then three optional fields, each a run of digits and its unit. */
module Durations {
  import opened Options
  import opened Texts

  const LIMIT: int := 0x8000_0000_0000_0000

  /** The 64-bit int of Go: arithmetic wraps. */
  function Wrap(n: int): (r: int)
    ensures -LIMIT <= r < LIMIT && (r - n) % (2 * LIMIT) == 0
    ensures -LIMIT <= n < LIMIT ==> r == n
  {
    (n + LIMIT) % (2 * LIMIT) - LIMIT
  }

  predicate Digit(c: char) { '0' <= c <= '9' }

  predicate AllDigits(d: string) {
    forall i :: 0 <= i < |d| ==> Digit(d[i])
  }

  function Value(d: string): nat
    requires AllDigits(d)
  {
    if d == "" then 0 else 10 * Value(d[..|d| - 1]) + (d[|d| - 1] - '0') as nat
  }

  /** strconv.Atoi, its error ignored: a number too big becomes the largest int. */
  function Atoi(d: string): int
    requires AllDigits(d)
  {
    if Value(d) < LIMIT then Value(d) else LIMIT - 1
  }

  /** How many digits the text starts with. */
  function Run(t: string): (n: nat)
    ensures n <= |t| && AllDigits(t[..n]) && (n < |t| ==> !Digit(t[n]))
  {
    if t != "" && Digit(t[0]) then
      assert t[..1 + Run(t[1..])] == [t[0]] + t[1..][..Run(t[1..])];
      1 + Run(t[1..])
    else 0
  }

  /** An optional group: its digits (none when it does not match) and the text behind it. */
  function Group(t: string, unit: char): (r: (string, string))
    ensures AllDigits(r.0)
  {
    var n := Run(t);
    if 0 < n < |t| && t[n] == unit then (t[..n], t[n + 1..]) else ("", t)
  }

  function Parse(duration: string): int {
    match Index(duration, "PT")
    case None => 0
    case Some(i) =>
      var (h, afterH) := Group(duration[i + 2..], 'H');
      var (m, afterM) := Group(afterH, 'M');
      var (s, _) := Group(afterM, 'S');
      Wrap(Wrap(Wrap(Atoi(h) * 3600) + Wrap(Atoi(m) * 60)) + Atoi(s))
  }

  // ---------------------------------------------------------------- printing

  function Decimal(n: nat): string {
    if n < 10 then ['0' + n as char] else Decimal(n / 10) + ['0' + (n % 10) as char]
  }

  /** A field of the duration; without digits it is omitted. */
  function Field(d: string, unit: char): string {
    if d == "" then "" else d + [unit]
  }

  function Clock(h: string, m: string, s: string): string {
    Field(h, 'H') + (Field(m, 'M') + Field(s, 'S'))
  }

  function Seconds(h: string, m: string, s: string): nat
    requires AllDigits(h) && AllDigits(m) && AllDigits(s)
  {
    3600 * Value(h) + 60 * Value(m) + Value(s)
  }

  lemma {:induction false} DecimalReads(n: nat)
    ensures AllDigits(Decimal(n)) && Value(Decimal(n)) == n && Decimal(n) != ""
  {
    if n < 10 {
      assert Decimal(n)[..0] == "";
    } else {
      DecimalReads(n / 10);
      assert Decimal(n)[..|Decimal(n)| - 1] == Decimal(n / 10);
    }
  }

  lemma {:induction false} RunIs(d: string, rest: string)
    requires AllDigits(d) && (rest != "" ==> !Digit(rest[0]))
    ensures Run(d + rest) == |d|
  {
    if d == "" {
      assert d + rest == rest;
    } else {
      assert (d + rest)[1..] == d[1..] + rest;
      RunIs(d[1..], rest);
    }
  }

  /** A group takes its own field whole, and nothing of a text that starts with another field. */
  lemma GroupTakes(d: string, unit: char, rest: string)
    requires AllDigits(d) && !Digit(unit) && Group(rest, unit) == ("", rest)
    ensures Group(Field(d, unit) + rest, unit) == (d, rest)
  {
    if d != "" {
      var t := d + [unit] + rest;
      RunIs(d, [unit] + rest);
      assert t == d + ([unit] + rest);
      assert t[..|d|] == d && t[|d| + 1..] == rest;
    } else {
      assert Field(d, unit) + rest == rest;
    }
  }

  lemma GroupSkips(d: string, other: char, rest: string, unit: char)
    requires AllDigits(d) && !Digit(other) && other != unit && Group(rest, unit) == ("", rest)
    ensures Group(Field(d, other) + rest, unit) == ("", Field(d, other) + rest)
  {
    if d != "" {
      RunIs(d, [other] + rest);
      assert d + [other] + rest == d + ([other] + rest);
    } else {
      assert Field(d, other) + rest == rest;
    }
  }

  /** The three groups take the three fields. */
  lemma GroupsTake(h: string, m: string, s: string)
    requires AllDigits(h) && AllDigits(m) && AllDigits(s)
    ensures var seconds := Field(s, 'S');
            && Group(Clock(h, m, s), 'H') == (h, Field(m, 'M') + seconds)
            && Group(Field(m, 'M') + seconds, 'M') == (m, seconds)
            && Group(seconds, 'S') == (s, "")
  {
    var seconds := Field(s, 'S');
    assert seconds + "" == seconds;
    GroupTakes(s, 'S', "");
    GroupSkips(s, 'S', "", 'M');
    GroupSkips(s, 'S', "", 'H');
    GroupTakes(m, 'M', seconds);
    GroupSkips(m, 'M', seconds, 'H');
    GroupTakes(h, 'H', Field(m, 'M') + seconds);
  }

  /** The printed time is read back exactly while it fits an int; each field may be left out or carry
      leading zeros. */
  lemma TimeRoundTrip(h: string, m: string, s: string)
    requires AllDigits(h) && AllDigits(m) && AllDigits(s)
    ensures Parse("PT" + Clock(h, m, s)) == Seconds(h, m, s) <==> Seconds(h, m, s) < LIMIT
  {
    var t := "PT" + Clock(h, m, s);
    assert t[2..] == Clock(h, m, s);
    GroupsTake(h, m, s);
    assert Index(t, "PT") == Some(0) by {
      assert t[0..2] == "PT";
      IndexIs(t, "PT", 0);
    }
    hide Group, Index, Clock, Value, Wrap;
  }

  /** A number as it is printed; a zero may be left out. */
  function Digits(n: nat, zeros: bool): (d: string)
    ensures AllDigits(d) && Value(d) == n
  {
    DecimalReads(n);
    if n == 0 && !zeros then "" else Decimal(n)
  }

  /** The same for numbers, a zero component being printed or not. */
  lemma NumbersRoundTrip(h: nat, m: nat, s: nat, zeros: bool)
    ensures Parse("PT" + Clock(Digits(h, zeros), Digits(m, zeros), Digits(s, zeros))) == 3600 * h + 60 * m + s
       <==> 3600 * h + 60 * m + s < LIMIT
  {
    TimeRoundTrip(Digits(h, zeros), Digits(m, zeros), Digits(s, zeros));
    hide Parse, Clock, Value, Digits;
  }

  lemma NoTimeMark(d: string, h: string, m: string, s: string)
    requires d != "" && AllDigits(d) && AllDigits(h) && AllDigits(m) && AllDigits(s)
    ensures !Contains("P" + d + "DT" + Clock(h, m, s), "PT")
  {
    var clock := Clock(h, m, s);
    var t := "P" + d + "DT" + clock;
    NoLetter(h, m, s, 'P');
    hide Clock, OccursAt;
    forall i: nat ensures !OccursAt(t, "PT", i) {
      if i == 0 {
        assert t[1] == d[0];
        NotAt(t, "PT", i, 1);
      } else {
        assert i < |t| ==> t[i] in d || t[i] in "DT" || t[i] in clock;
        NotAt(t, "PT", i, 0);
      }
    }
  }

  /** A duration with a day part has no "PT" and is read as zero: right exactly for the length zero. */
  lemma DaysAreLost(d: string, h: string, m: string, s: string)
    requires d != "" && AllDigits(d) && AllDigits(h) && AllDigits(m) && AllDigits(s)
    ensures Parse("P" + d + "DT" + Clock(h, m, s)) == 0
    ensures Parse("P" + d + "DT" + Clock(h, m, s)) == 86400 * Value(d) + Seconds(h, m, s)
       <==> 86400 * Value(d) + Seconds(h, m, s) == 0
  {
    hide Clock, Value, Contains, Index, Group, Wrap;
    NoTimeMark(d, h, m, s);
    IndexFinds("P" + d + "DT" + Clock(h, m, s), "PT");
  }

  lemma NoLetter(h: string, m: string, s: string, c: char)
    requires AllDigits(h) && AllDigits(m) && AllDigits(s) && !Digit(c) && c != 'H' && c != 'M' && c != 'S'
    ensures c !in Clock(h, m, s)
  {
    assert c !in Field(h, 'H') && c !in Field(m, 'M') && c !in Field(s, 'S');
  }
}
