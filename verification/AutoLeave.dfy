/** CheckVoiceChannels: when an empty channel makes the bot leave. */
module AutoLeave {
  import V = VoiceIndex
  import VoiceTracker

  const EMPTY_CHANNEL_GRACE := 10_000_000_000  // nanoseconds

  /** One pass that evaluated a GuildInfo: the time it started at and what it saw. */
  datatype Pass = Pass(now: nat, obs: VoiceTracker.Observation)

  predicate Empty(p: Pass) {
    p.obs.known && p.obs.botPresent && p.obs.humans == 0
  }

  /** The fields of GuildInfo the timer keeps, and how many leave workers it has started for it. */
  datatype Watch = Watch(emptyTracking: bool, emptySince: nat, leavePending: bool, workers: nat)

  const UNWATCHED := Watch(false, 0, false, 0)

  class GuildWatch {
    var emptyTracking: bool
    var emptySince: nat
    var leavePending: bool
    var workers: nat

    function State(): Watch
      reads this
    {
      Watch(emptyTracking, emptySince, leavePending, workers)
    }

    constructor ()
      ensures State() == UNWATCHED
    {
      emptyTracking, emptySince, leavePending, workers := false, 0, false, 0;
    }

    /** The evaluation of one target in a pass; true when it starts the detached leave worker. */
    method Evaluate(p: Pass) returns (shouldLeave: bool)
      modifies this
      ensures State() == After(old(State()), p)
      ensures shouldLeave <==> !old(leavePending) && leavePending
    {
      shouldLeave := false;
      if leavePending { return; }
      if !p.obs.known || !p.obs.botPresent || p.obs.humans > 0 {
        emptyTracking := false;
        return;
      }
      if !emptyTracking {
        emptyTracking, emptySince := true, p.now;
        return;
      }
      if p.now - emptySince >= EMPTY_CHANNEL_GRACE {
        leavePending, shouldLeave, workers := true, true, workers + 1;
      }
    }
  }

  function After(w: Watch, p: Pass): Watch {
    if w.leavePending then w
    else if !Empty(p) then w.(emptyTracking := false)
    else if !w.emptyTracking then w.(emptyTracking := true, emptySince := p.now)
    else if p.now - w.emptySince >= EMPTY_CHANNEL_GRACE then w.(leavePending := true, workers := w.workers + 1)
    else w
  }

  function Run(passes: seq<Pass>): Watch {
    if passes == [] then UNWATCHED else After(Run(passes[..|passes| - 1]), passes[|passes| - 1])
  }

  /** steady_clock does not go back. */
  ghost predicate Ordered(passes: seq<Pass>) {
    forall i, j :: 0 <= i <= j < |passes| ==> passes[i].now <= passes[j].now
  }

  /** Every pass from the i-th to the j-th saw the bot alone. */
  ghost predicate EmptyFrom(passes: seq<Pass>, i: nat, j: nat) {
    forall k :: i <= k <= j && k < |passes| ==> Empty(passes[k])
  }

  ghost predicate GraceOver(passes: seq<Pass>, i: nat, j: nat) {
    i <= j < |passes| && EmptyFrom(passes, i, j) && passes[j].now - passes[i].now >= EMPTY_CHANNEL_GRACE
  }

  ghost predicate TrackedSince(passes: seq<Pass>, i: nat) {
    i < |passes| && EmptyFrom(passes, i, |passes| - 1) && (i > 0 ==> !Empty(passes[i - 1]))
    && Run(passes).emptySince == passes[i].now
  }

  /** While nothing is pending, tracking is on exactly when the last pass saw an empty channel, and
      `emptySince` is the time of the first pass of that unbroken row. */
  lemma {:induction false} Tracking(passes: seq<Pass>)
    ensures !Run(passes).leavePending ==>
      (Run(passes).emptyTracking <==> passes != [] && Empty(passes[|passes| - 1]))
    ensures !Run(passes).leavePending && Run(passes).emptyTracking ==> exists i :: TrackedSince(passes, i)
  {
    if passes != [] {
      var n := |passes| - 1;
      var front := passes[..n];
      Tracking(front);
      if !Run(passes).leavePending && Empty(passes[n]) {
        if Run(front).emptyTracking {
          var i: nat :| TrackedSince(front, i);
          assert front[i] == passes[i];
          assert forall k :: i <= k < n ==> front[k] == passes[k];
          assert i > 0 ==> front[i - 1] == passes[i - 1];
          assert TrackedSince(passes, i);
        } else {
          assert n > 0 ==> front[n - 1] == passes[n - 1];
          assert TrackedSince(passes, n);
        }
      }
    }
  }

  /** The bot leaves exactly when, over passes spanning at least ten seconds, every one of them saw
      it in a channel with no human; and it starts one worker, once. */
  lemma {:induction false} LeavesExactly(passes: seq<Pass>)
    requires Ordered(passes)
    ensures Run(passes).leavePending <==> exists i, j :: GraceOver(passes, i, j)
    ensures Run(passes).workers == if Run(passes).leavePending then 1 else 0
  {
    if passes != [] {
      var n := |passes| - 1;
      var front := passes[..n];
      LeavesExactly(front);
      Tracking(front);
      if Run(front).leavePending {
        var i: nat, j: nat :| GraceOver(front, i, j);
        assert forall k :: i <= k <= j ==> front[k] == passes[k];
        assert GraceOver(passes, i, j);
      } else {
        NotYet(passes, n);
      }
    }
  }

  lemma NotYet(passes: seq<Pass>, n: nat)
    requires Ordered(passes) && n == |passes| - 1 && !Run(passes[..n]).leavePending
    requires forall i, j :: !GraceOver(passes[..n], i, j)
    ensures Run(passes).leavePending <==> exists i, j :: GraceOver(passes, i, j)
  {
    var front := passes[..n];
    if Run(passes).leavePending {
      Tracking(front);
      var t: nat :| TrackedSince(front, t);
      assert forall k :: t <= k < n ==> front[k] == passes[k];
      assert GraceOver(passes, t, n);
    }
    forall i: nat, j: nat | GraceOver(passes, i, j) ensures Run(passes).leavePending {
      GraceFires(passes, n, i, j);
    }
  }

  /** The first pass that completes the grace period is the one that fires. */
  lemma GraceFires(passes: seq<Pass>, n: nat, i: nat, j: nat)
    requires Ordered(passes) && n == |passes| - 1 && !Run(passes[..n]).leavePending
    requires GraceOver(passes, i, j) && !GraceOver(passes[..n], i, j)
    ensures Run(passes).leavePending
  {
    var front := passes[..n];
    assert forall k :: 0 <= k < n ==> front[k] == passes[k];
    assert j == n && i < n && Empty(front[n - 1]);
    Tracking(front);
    var t: nat :| TrackedSince(front, t);
    assert t > 0 ==> !Empty(passes[t - 1]);
    assert t <= i && passes[t].now <= passes[i].now;
  }

  /** With passes at most `p` apart and the channel observably empty from time `e`, the leave is
      pending by e + 10 s + 2p. */
  lemma LeavesInTime(passes: seq<Pass>, e: nat, p: nat) returns (j: nat)
    requires Ordered(passes) && passes != [] && passes[0].now <= e + p
    requires forall k :: 0 < k < |passes| ==> passes[k].now <= passes[k - 1].now + p
    requires forall k :: 0 <= k < |passes| && passes[k].now >= e ==> Empty(passes[k])
    requires passes[|passes| - 1].now >= e + p + EMPTY_CHANNEL_GRACE
    ensures j < |passes| && passes[j].now <= e + EMPTY_CHANNEL_GRACE + 2 * p
    ensures Run(passes[..j + 1]).leavePending
  {
    var i := FirstAtOrAfter(passes, e);
    j := FirstAtOrAfter(passes, passes[i].now + EMPTY_CHANNEL_GRACE);
    var q := passes[..j + 1];
    assert forall k :: 0 <= k <= j ==> q[k] == passes[k];
    assert i <= j;
    assert GraceOver(q, i, j);
    LeavesExactly(q);
  }

  /** The first pass at or after a time. */
  lemma FirstAtOrAfter(passes: seq<Pass>, t: nat) returns (i: nat)
    requires passes != [] && passes[|passes| - 1].now >= t
    ensures i < |passes| && passes[i].now >= t && (i > 0 ==> passes[i - 1].now < t)
  {
    i := 0;
    while passes[i].now < t
      invariant i < |passes| && (i > 0 ==> passes[i - 1].now < t)
      decreases |passes| - i
    {
      i := i + 1;
    }
  }

  // ---------------------------------------------------------------- what a pending leave says of the channel

  lemma {:induction false} PrefixFeasible(s: V.State, ts: seq<V.Step>, n: nat)
    requires V.Feasible(s, ts) && n <= |ts|
    ensures V.Feasible(s, ts[..n])
    decreases n
  {
    if n > 0 {
      PrefixFeasible(V.Apply(s, ts[0]), ts[1..], n - 1);
      assert ts[..n][0] == ts[0] && ts[..n][1..] == ts[1..][..n - 1];
    }
  }

  /** The index of the guild after the first `n` steps of a run. */
  function IndexAt(ts: seq<V.Step>, n: nat): V.State
    requires n <= |ts|
  {
    V.Final(V.FRESH, ts[..n])
  }

  /** Pass `k` observed the index as it was after `at[k]` steps of the run. */
  ghost predicate Observes(passes: seq<Pass>, ts: seq<V.Step>, at: seq<nat>, bot: V.User) {
    && |at| == |passes|
    && forall k :: 0 <= k < |at| ==>
         at[k] <= |ts| && passes[k].obs == VoiceTracker.Observed(IndexAt(ts, at[k]).idx, IndexAt(ts, at[k]).seeded, bot)
  }

  /** Whenever the index was up to date for a user at such a pass, that user was not with the bot. */
  ghost predicate Deserted(s: V.State, realBots: iset<V.User>, bot: V.User) {
    forall u :: VoiceTracker.UpToDate(s, realBots, bot, u) ==> !V.ReallyWithBot(s, realBots, bot, u)
  }

  /** The bot leaves only after a span of at least ten seconds at all of whose passes nobody was really
      with it, as far as the index was up to date. */
  lemma PendingMeansEmpty(passes: seq<Pass>, ts: seq<V.Step>, at: seq<nat>, realBots: iset<V.User>, bot: V.User)
      returns (i: nat, j: nat)
    requires Ordered(passes) && Run(passes).leavePending
    requires V.Feasible(V.FRESH, ts) && Observes(passes, ts, at, bot)
    ensures i <= j < |passes| && passes[j].now - passes[i].now >= EMPTY_CHANNEL_GRACE
    ensures forall k :: i <= k <= j ==> Deserted(IndexAt(ts, at[k]), realBots, bot)
  {
    LeavesExactly(passes);
    i, j :| GraceOver(passes, i, j);
    forall k | i <= k <= j ensures Deserted(IndexAt(ts, at[k]), realBots, bot) {
      var s := IndexAt(ts, at[k]);
      PrefixFeasible(V.FRESH, ts, at[k]);
      V.RunKeepsInv(V.FRESH, ts[..at[k]]);
      assert Empty(passes[k]);
      forall u | VoiceTracker.UpToDate(s, realBots, bot, u) ensures !V.ReallyWithBot(s, realBots, bot, u) {
        VoiceTracker.EmptyMeansEmpty(s, realBots, bot, u);
      }
    }
  }

  /** A pass that looks while the bot is alone sees it: over the runs in which the index is exact, with
      nobody in the channel and nobody stale, the observation is an empty one. */
  lemma AloneIsSeen(p: Pass, ts: seq<V.Step>, realBots: iset<V.User>, bot: V.User)
    requires V.Feasible(V.FRESH, ts) && V.CacheAhead(V.FRESH, ts) && V.NoResetInside(V.FRESH, ts) && bot != 0
    requires var s := V.Final(V.FRESH, ts);
      && p.obs == VoiceTracker.Observed(s.idx, s.seeded, bot)
      && s.seeded && s.delivered == |s.log| && V.FlagsExact(s, realBots) && V.Truth(s.log, |s.log|, bot).Some?
      && (forall u :: !V.ReallyWithBot(s, realBots, bot, u) && !V.StaleWithBot(s, realBots, bot, u))
    ensures Empty(p)
  {
    VoiceTracker.ObservedExactly(ts, realBots, bot, {});
  }
}
