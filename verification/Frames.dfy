/** The frames PlayAudioThread cuts a PCM file into, and what a recorded performance promises. */
module Frames {
  import opened Bytes

  const FRAME_SIZE := 11520
  const FRAME_DURATION_MS := 60
  const SEND_INTERVAL_MS := 58
  const LEAD_PER_FRAME_MS := FRAME_DURATION_MS - SEND_INTERVAL_MS
  const BYTES_PER_MS := 192
  const MS := 1_000_000  // nanoseconds
  const TWO_TO_THE_32 := 0x1_0000_0000
  const VOICE_RECOVERY_TIMEOUT := 20_000 * MS

  /** All but a trailing odd byte. */
  function Even<T>(s: seq<T>): seq<T> {
    s[..|s| - |s| % 2]
  }

  function Min(a: int, b: int): int {
    if a < b then a else b
  }

  /** Everything a song sends when it is played to its end. */
  function Cut(data: seq<Byte>): seq<seq<Byte>> {
    if data == [] then []
    else
      var n := Min(FRAME_SIZE, |data|);
      [Even(data[..n])] + Cut(data[n..])
  }

  function Flatten(fs: seq<seq<Byte>>): seq<Byte> {
    if fs == [] then [] else fs[0] + Flatten(fs[1..])
  }

  /** The number of reads that return data. */
  function Reads(n: nat): nat {
    (n + FRAME_SIZE - 1) / FRAME_SIZE
  }

  lemma SliceOfSuffix<T>(s: seq<T>, n: nat, lo: nat, hi: nat)
    requires lo <= hi && n + hi <= |s|
    ensures s[n..][lo..hi] == s[n + lo..n + hi]
  {
  }

  lemma {:induction false} CutCount(data: seq<Byte>)
    ensures |Cut(data)| == Reads(|data|)
  {
    if data != [] {
      var n := Min(FRAME_SIZE, |data|);
      CutCount(data[n..]);
      assert |data[n..]| == |data| - n;
      ReadsLess(|data|, n);
    }
  }

  lemma ReadsLess(size: nat, n: nat)
    requires size > 0 && n == Min(FRAME_SIZE, size)
    ensures Reads(size) == 1 + Reads(size - n)
  {
  }

  lemma {:induction false} CutElement(data: seq<Byte>, i: nat)
    requires i * FRAME_SIZE < |data|
    ensures i < |Cut(data)|
    ensures Cut(data)[i] == Even(data[i * FRAME_SIZE..Min(i * FRAME_SIZE + FRAME_SIZE, |data|)])
  {
    hide Even;
    var n := Min(FRAME_SIZE, |data|);
    assert Cut(data) == [Even(data[..n])] + Cut(data[n..]);
    hide Cut;
    if i > 0 {
      CutElement(data[n..], i - 1);
      SliceOfSuffix(data, n, (i - 1) * FRAME_SIZE, Min(i * FRAME_SIZE, |data| - n));
    }
  }

  lemma CutAt(data: seq<Byte>, i: nat)
    ensures |Cut(data)| == Reads(|data|)
    ensures i < |Cut(data)| ==>
      i * FRAME_SIZE < |data| && Cut(data)[i] == Even(data[i * FRAME_SIZE..Min(i * FRAME_SIZE + FRAME_SIZE, |data|)])
  {
    hide Cut, Even;
    CutCount(data);
    if i < |Cut(data)| {
      CutElement(data, i);
    }
  }

  /** Only the last frame may be short. */
  lemma FullFrames(data: seq<Byte>, i: nat)
    requires i + 1 < |Cut(data)|
    ensures |Cut(data)[i]| == FRAME_SIZE
  {
    hide Cut;
    CutAt(data, i + 1);
    CutAt(data, i);
  }

  lemma {:induction false} FlattenAppend(fs: seq<seq<Byte>>, f: seq<Byte>)
    ensures Flatten(fs + [f]) == Flatten(fs) + f
  {
    if fs == [] {
      assert fs + [f] == [f];
    } else {
      FlattenAppend(fs[1..], f);
      assert (fs + [f])[1..] == fs[1..] + [f];
    }
  }

  lemma SliceOfSlice<T>(s: seq<T>, lo: nat, hi: nat, n: nat)
    requires lo <= hi <= |s| && n <= hi - lo
    ensures s[lo..hi][..n] == s[lo..lo + n]
  {
  }

  lemma SplitAt<T>(s: seq<T>, lo: nat, hi: nat)
    requires lo <= hi <= |s|
    ensures s[..lo] + s[lo..hi] == s[..hi]
  {
  }

  /** Even, as a slice of the whole. */
  lemma EvenSlice<T>(s: seq<T>, lo: nat, hi: nat)
    requires lo % 2 == 0 && lo <= hi <= |s|
    ensures lo <= hi - hi % 2 && Even(s[lo..hi]) == s[lo..hi - hi % 2]
  {
    var n := hi - lo - (hi - lo) % 2;
    assert lo + n == hi - hi % 2 && 0 <= n <= hi - lo by { Parity(lo, hi); }
    SliceOfSlice(s, lo, hi, n);
  }

  lemma Remainder(n: nat, q: nat, r: nat)
    requires n == 2 * q + r && r < 2
    ensures n % 2 == r
  {
  }

  lemma Parity(lo: nat, hi: nat)
    requires lo % 2 == 0 && lo <= hi
    ensures (hi - lo) % 2 == hi % 2 && lo <= hi - hi % 2
  {
    var a, b, r := lo / 2, hi / 2, hi % 2;
    assert lo == 2 * a && hi == 2 * b + r;
    assert a <= b;
    Remainder(hi - lo, b - a, r);
  }

  lemma FrameStart(k: nat)
    ensures k * FRAME_SIZE % 2 == 0
  {
    Remainder(k * FRAME_SIZE, k * 5760, 0);
  }

  lemma NothingSent(data: seq<Byte>)
    ensures Flatten([]) == [] && Even(data[..0]) == []
  {
  }

  lemma EvenSplits(data: seq<Byte>, lo: nat, hi: nat)
    requires lo % 2 == 0 && lo <= hi <= |data|
    ensures Even(data[..lo]) == data[..lo] && data[..lo] + Even(data[lo..hi]) == Even(data[..hi])
  {
    hide Even;
    EvenPrefix(data, lo);
    EvenPrefix(data, hi);
    EvenSlice(data, lo, hi);
    SplitAt(data, lo, hi - hi % 2);
  }

  lemma EvenPrefix(data: seq<Byte>, n: nat)
    requires n <= |data|
    ensures Even(data[..n]) == data[..n - n % 2] && Even(data[..n]) <= data && |Even(data[..n])| % 2 == 0
  {
    hide Even;
    EvenSlice(data, 0, n);
    assert data[0..n] == data[..n] && data[0..n - n % 2] == data[..n - n % 2];
  }

  /** The first k frames are the first bytes of the file, in order, with no gap and no repeat. */
  lemma {:induction false} CutPrefix(data: seq<Byte>, k: nat)
    requires k <= |Cut(data)|
    ensures Flatten(Cut(data)[..k]) == Even(data[..Min(k * FRAME_SIZE, |data|)])
  {
    hide Cut, Even, Flatten;
    if k == 0 {
      assert Cut(data)[..0] == [];
      NothingSent(data);
    } else {
      var front, last := Cut(data)[..k - 1], Cut(data)[k - 1];
      var lo, hi := (k - 1) * FRAME_SIZE, Min(k * FRAME_SIZE, |data|);
      assert Flatten(Cut(data)[..k]) == Flatten(front) + last by {
        LastOf(Cut(data), k);
        FlattenAppend(front, last);
      }
      assert lo <= hi && last == Even(data[lo..hi]) by {
        CutAt(data, k - 1);
      }
      assert lo % 2 == 0 by { FrameStart(k - 1); }
      CutPrefix(data, k - 1);
      EvenSplits(data, lo, hi);
    }
  }

  lemma LastOf<T>(s: seq<T>, k: nat)
    requires 0 < k <= |s|
    ensures s[..k] == s[..k - 1] + [s[k - 1]]
  {
  }

  // ---------------------------------------------------------------- performances

  datatype Ending = Natural | Skipped | Stopped | Abandoned | Missing

  /** How many frames were sent since the start or the last recovery; `recovered` says of each frame
      whether it had to wait for the connection. */
  function Lead(recovered: seq<bool>): (n: nat)
    ensures n <= |recovered| && (recovered != [] ==> n > 0)
  {
    if recovered == [] then 0
    else if recovered[|recovered| - 1] then 1
    else Lead(recovered[..|recovered| - 1]) + 1
  }

  /** At `clock`, after the pause that follows the last of the frames sent at `times`: they are at
      least 58 ms apart, and `wait` is 2 ms for each frame of the lead, in 32 bits. */
  ghost predicate Paced(clock: nat, wait: nat, recovered: seq<bool>, times: seq<nat>) {
    var lead := Lead(recovered);
    && |recovered| == |times|
    && wait == (LEAD_PER_FRAME_MS * lead) % TWO_TO_THE_32
    && (lead > 0 ==> clock >= times[|times| - lead] + SEND_INTERVAL_MS * MS * lead)
    && (forall i, j :: 0 <= i < j < |times| && j == i + 1 ==> times[j] >= times[i] + SEND_INTERVAL_MS * MS)
    && (times != [] ==> clock >= times[|times| - 1] + SEND_INTERVAL_MS * MS)
  }

  /** One more frame, and its pause. */
  lemma OneMorePaced(sentAt: nat, clock: nat, wait: nat, recovered: seq<bool>, times: seq<nat>, waited: bool)
    requires Paced(sentAt, wait, recovered, times) && clock >= sentAt + SEND_INTERVAL_MS * MS
    ensures Paced(clock, ((if waited then 0 else wait) + LEAD_PER_FRAME_MS) % TWO_TO_THE_32,
                  recovered + [waited], times + [sentAt])
  {
    var lead := Lead(recovered);
    assert (recovered + [waited])[..|recovered|] == recovered;
    assert Lead(recovered + [waited]) == if waited then 1 else lead + 1;
    hide Lead;
    LeadGrows(lead);
    if times != [] {
      assert (times + [sentAt])[|times| - 1] == times[|times| - 1];
    }
    assert lead > 0 ==> (times + [sentAt])[|times| - lead] == times[|times| - lead];
  }

  lemma LeadGrows(lead: nat)
    ensures SEND_INTERVAL_MS * MS * (lead + 1) == SEND_INTERVAL_MS * MS * lead + SEND_INTERVAL_MS * MS
    ensures ((LEAD_PER_FRAME_MS * lead) % TWO_TO_THE_32 + LEAD_PER_FRAME_MS) % TWO_TO_THE_32
         == (LEAD_PER_FRAME_MS * (lead + 1)) % TWO_TO_THE_32
  {
  }

  /** A frame handed to send_audio_raw: when, and whether the client had been found unsafe since the
      frame before it or the opening of the song. */
  datatype Send = Send(frame: seq<Byte>, at: nat, recovered: bool)

  function Sends(frames: seq<seq<Byte>>, times: seq<nat>, recovered: seq<bool>): seq<Send>
    requires |frames| == |times| == |recovered|
  {
    if frames == [] then []
    else
      var n := |frames| - 1;
      Sends(frames[..n], times[..n], recovered[..n]) + [Send(frames[n], times[n], recovered[n])]
  }

  lemma SendsMore(frames: seq<seq<Byte>>, times: seq<nat>, recovered: seq<bool>, s: Send)
    requires |frames| == |times| == |recovered|
    ensures Sends(frames + [s.frame], times + [s.at], recovered + [s.recovered])
         == Sends(frames, times, recovered) + [s]
  {
    var n := |frames|;
    assert (frames + [s.frame])[..n] == frames && (times + [s.at])[..n] == times;
    assert (recovered + [s.recovered])[..n] == recovered;
  }

  /** One playing of a song: when it was opened, the frames sent, when, and which of them after a
      recovery; how many frames were read, in how many turns; when the frame loop ended and how, and
      whether a send threw; the wait accumulated then, whether it was waited for, and when the song was
      done with. */
  datatype Performance = Performance(
    data: seq<Byte>, start: nat, frames: seq<seq<Byte>>, times: seq<nat>, recovered: seq<bool>,
    taken: nat, turns: nat, how: Ending, threw: bool, ended: nat, wait: nat, drained: bool, until: nat)

  /** When the pause after the last frame was over at the earliest; the opening, before the first. */
  function Rested(start: nat, times: seq<nat>): nat {
    if times == [] then start else times[|times| - 1] + SEND_INTERVAL_MS * MS
  }

  ghost predicate Faithful(p: Performance) {
    && |p.frames| <= |Cut(p.data)| && p.frames == Cut(p.data)[..|p.frames|]
    && (p.how.Natural? ==> |p.frames| == |Cut(p.data)|)
    && |p.frames| <= p.taken <= |p.frames| + 1 && (p.how.Natural? ==> p.taken == |p.frames|)
    && p.turns <= Reads(|p.data|) + 1
    && |p.times| == |p.recovered| == |p.frames|
    && (p.how.Abandoned? ==> p.wait == 0 && p.taken == |p.frames| + 1)
    && (p.how.Abandoned? ==> p.threw || p.ended > Rested(p.start, p.times) + VOICE_RECOVERY_TIMEOUT)
    && (p.threw ==> p.how.Abandoned?)
    && (!p.how.Abandoned? ==> Paced(p.ended, p.wait, p.recovered, p.times))
    && p.until >= p.ended + (if p.drained then p.wait * MS else 0)
  }

  /** Byte-exact playback. */
  lemma SentIsEvenPrefix(p: Performance)
    requires Faithful(p)
    ensures |Flatten(p.frames)| % 2 == 0 && Flatten(p.frames) <= p.data
    ensures Flatten(p.frames) == Even(p.data[..Min(|p.frames| * FRAME_SIZE, |p.data|)])
    ensures forall i :: 0 <= i < |p.frames| - 1 ==> |p.frames[i]| == FRAME_SIZE
    ensures p.how.Natural? ==> Flatten(p.frames) == Even(p.data) && |p.frames| == Reads(|p.data|)
  {
    hide Cut, Flatten, Paced, Even;
    var n := Min(|p.frames| * FRAME_SIZE, |p.data|);
    CutPrefix(p.data, |p.frames|);
    EvenPrefix(p.data, n);
    forall i | 0 <= i < |p.frames| - 1 ensures |p.frames[i]| == FRAME_SIZE {
      FullFrames(p.data, i);
    }
    if p.how.Natural? {
      CutCount(p.data);
      AllRead(|p.data|);
      assert p.data[..n] == p.data;
    }
  }

  lemma AllRead(size: nat)
    ensures Min(Reads(size) * FRAME_SIZE, size) == size
  {
  }

  function Size(fs: seq<seq<Byte>>): nat {
    |Flatten(fs)|
  }

  lemma {:induction false} SizeBound(data: seq<Byte>, i: nat, j: nat)
    requires i <= j <= |Cut(data)|
    ensures Size(Cut(data)[i..j]) <= FRAME_SIZE * (j - i)
  {
    if i < j {
      CutAt(data, j - 1);
      SizeBound(data, i, j - 1);
      assert Cut(data)[i..j] == Cut(data)[i..j - 1] + [Cut(data)[j - 1]];
      FlattenAppend(Cut(data)[i..j - 1], Cut(data)[j - 1]);
    }
  }

  /** The drain: below 2^31 frames the wait is exactly 2 ms a frame of the lead, and the time from the
      first of these frames to the end of the drain covers the play time of their bytes. */
  lemma DrainCoversPlayTime(p: Performance)
    requires Faithful(p) && (p.how.Natural? || p.how.Skipped?) && p.drained
    requires 0 < Lead(p.recovered) < 0x8000_0000
    ensures var lead := Lead(p.recovered); var first := |p.frames| - lead;
      && p.wait == LEAD_PER_FRAME_MS * lead
      && p.until - p.times[first] >= FRAME_DURATION_MS * MS * lead
      && (p.until - p.times[first]) * BYTES_PER_MS >= MS * Size(p.frames[first..])
  {
    var lead := Lead(p.recovered);
    var i, j := |p.frames| - lead, |p.frames|;
    SizeBound(p.data, i, j);
    assert Cut(p.data)[i..j] == p.frames[i..];
    hide Cut, Lead, Flatten;
  }
}
