/** The voice occupancy index of a guild: an incremental cache, fed by events and seeded once from
    a snapshot that races with them. */
module VoiceIndex {
  import opened Options

  type User = nat
  type Channel = nat  // 0 is "no channel"

  datatype Member = Member(channelId: Channel, isBot: bool)

  /** A voice state update; `isBot` is what the user cache said when it was handled. */
  datatype Event = Event(user: User, channel: Channel, isBot: bool)

  type Index = map<User, Member>

  /** OnVoiceStateUpdate. */
  function ApplyEvent(idx: Index, e: Event): Index {
    if e.channel == 0 then idx - {e.user} else idx[e.user := Member(e.channel, e.isBot)]
  }

  /** What an event makes of its user. */
  function Eff(e: Event): Option<Member> {
    if e.channel == 0 then None else Some(Member(e.channel, e.isBot))
  }

  /** emplace: what is already there came from an event and stays. */
  function MergeInto(idx: Index, snapshot: Index): Index {
    snapshot + idx
  }

  /** The position of the user's last event among the first `n`; -1 if there is none. */
  function LastOf(log: seq<Event>, n: nat, u: User): int
    requires n <= |log|
    ensures -1 <= LastOf(log, n, u) < n
    ensures LastOf(log, n, u) >= 0 ==> log[LastOf(log, n, u)].user == u
    ensures forall i :: LastOf(log, n, u) < i < n ==> log[i].user != u
  {
    if n == 0 then -1 else if log[n - 1].user == u then n - 1 else LastOf(log, n - 1, u)
  }

  /** Where the user really is after the first `n` events. */
  function Truth(log: seq<Event>, n: nat, u: User): Option<Channel>
    requires n <= |log|
  {
    var j := LastOf(log, n, u);
    if j < 0 || log[j].channel == 0 then None else Some(log[j].channel)
  }

  /** A reference to the replay of the event log, from which `Truth` is read off. */
  function Replay(log: seq<Event>): Index {
    if log == [] then map[] else ApplyEvent(Replay(log[..|log| - 1]), log[|log| - 1])
  }

  lemma {:induction false} ReplayIsTruth(log: seq<Event>, u: User)
    ensures var j := LastOf(log, |log|, u); Get(Replay(log), u) == if j < 0 then None else Eff(log[j])
  {
    if log != [] {
      var front := log[..|log| - 1];
      ReplayIsTruth(front, u);
      LastOfPrefix(log, |log| - 1, |log| - 1, u);
    }
  }

  lemma {:induction false} LastOfPrefix(log: seq<Event>, m: nat, n: nat, u: User)
    requires n <= m <= |log|
    ensures LastOf(log[..m], n, u) == LastOf(log, n, u)
  {
    if n > 0 {
      LastOfPrefix(log, m, n - 1, u);
    }
  }

  /** The snapshot taken from the library's cache, which has applied the first `k` events. */
  ghost predicate SnapshotOf(snapshot: Index, log: seq<Event>, k: nat) {
    && k <= |log|
    && (forall u :: u in snapshot <==> Truth(log, k, u).Some?)
    && (forall u :: u in snapshot ==> snapshot[u].channelId == Truth(log, k, u).value)
  }

  // ---------------------------------------------------------------- the system for one guild

  datatype Copy = Copy(at: nat, snapshot: Index)

  /** `resetAt` and `mergedAt` record how many events had been delivered at the last reset and merge. */
  datatype State = State(
    log: seq<Event>, delivered: nat, idx: Index, seeded: bool,
    pending: Option<Copy>, copied: Copy, resetAt: nat, mergedAt: nat)

  datatype Step =
    | Emit(e: Event)      // something happens in the guild
    | Deliver             // the next event reaches OnVoiceStateUpdate
    | Snapshot(c: Copy)   // EnsureVoiceSeeded copies the cache, holding no lock
    | Merge               // ... and merges the copy
    | Reset               // ResetVoiceTracking

  const FRESH := State([], 0, map[], false, None, Copy(0, map[]), 0, 0)

  ghost predicate Possible(s: State, t: Step) {
    match t
    case Emit(_) => true
    case Deliver => s.delivered < |s.log|
    case Snapshot(c) => !s.seeded && s.pending.None? && SnapshotOf(c.snapshot, s.log, c.at)
    case Merge => s.pending.Some?
    case Reset => true
  }

  function Apply(s: State, t: Step): State {
    match t
    case Emit(e) => s.(log := s.log + [e])
    case Deliver =>
      if s.delivered < |s.log| then
        s.(idx := ApplyEvent(s.idx, s.log[s.delivered]), delivered := s.delivered + 1)
      else s
    case Snapshot(c) => s.(pending := Some(c))
    case Merge =>
      if s.pending.Some? then
        s.(idx := MergeInto(s.idx, s.pending.value.snapshot), seeded := true, pending := None,
           copied := s.pending.value, mergedAt := s.delivered)
      else s
    case Reset => s.(idx := map[], seeded := false, resetAt := s.delivered)
  }

  ghost predicate Feasible(s: State, ts: seq<Step>)
    decreases |ts|
  {
    ts == [] || (Possible(s, ts[0]) && Feasible(Apply(s, ts[0]), ts[1..]))
  }

  function Final(s: State, ts: seq<Step>): State
    decreases |ts|
  {
    if ts == [] then s else Final(Apply(s, ts[0]), ts[1..])
  }

  // ---------------------------------------------------------------- the index in closed form

  /** The user's entry from the events delivered since the last reset. */
  function FromEvents(s: State, n: nat, u: User): Option<Member>
    requires n <= |s.log|
  {
    var j := LastOf(s.log, n, u);
    if j >= s.resetAt then Eff(s.log[j]) else None
  }

  function Expected(s: State, u: User): Option<Member>
    requires s.delivered <= |s.log| && s.mergedAt <= |s.log|
  {
    if !s.seeded then FromEvents(s, s.delivered, u)
    else
      var j := LastOf(s.log, s.delivered, u);
      if j >= s.mergedAt then Eff(s.log[j])
      else
        var before := FromEvents(s, s.mergedAt, u);
        if before.Some? then before else Get(s.copied.snapshot, u)
  }

  ghost predicate Inv(s: State) {
    && s.delivered <= |s.log| && s.resetAt <= s.delivered && s.mergedAt <= |s.log|
    && (s.seeded ==> s.resetAt <= s.mergedAt <= s.delivered && SnapshotOf(s.copied.snapshot, s.log, s.copied.at))
    && (s.pending.Some? ==> !s.seeded && SnapshotOf(s.pending.value.snapshot, s.log, s.pending.value.at))
    && (forall u :: Get(s.idx, u) == Expected(s, u))
  }

  lemma {:induction false} LastOfGrows(log: seq<Event>, e: Event, n: nat, u: User)
    requires n <= |log|
    ensures LastOf(log + [e], n, u) == LastOf(log, n, u)
  {
    LastOfPrefix(log + [e], |log|, n, u);
    assert (log + [e])[..|log|] == log;
  }

  lemma SnapshotStays(snapshot: Index, log: seq<Event>, e: Event, k: nat)
    requires SnapshotOf(snapshot, log, k)
    ensures SnapshotOf(snapshot, log + [e], k)
  {
    forall u ensures Truth(log + [e], k, u) == Truth(log, k, u) {
      LastOfGrows(log, e, k, u);
    }
  }

  lemma StepKeepsInv(s: State, t: Step)
    requires Inv(s) && Possible(s, t)
    ensures Inv(Apply(s, t))
  {
    if t.Emit? {
      EmitKeeps(s, t.e);
    } else {
      var s' := Apply(s, t);
      forall u ensures Get(s'.idx, u) == Expected(s', u) {
        assert Get(s.idx, u) == Expected(s, u);
      }
    }
  }

  lemma EmitKeeps(s: State, e: Event)
    requires Inv(s)
    ensures Inv(Apply(s, Emit(e)))
  {
    var s' := Apply(s, Emit(e));
    if s.seeded {
      SnapshotStays(s.copied.snapshot, s.log, e, s.copied.at);
    }
    if s.pending.Some? {
      SnapshotStays(s.pending.value.snapshot, s.log, e, s.pending.value.at);
    }
    forall u ensures Get(s'.idx, u) == Expected(s', u) {
      LastOfGrows(s.log, e, s.delivered, u);
      LastOfGrows(s.log, e, s.mergedAt, u);
    }
  }

  lemma {:induction false} RunKeepsInv(s: State, ts: seq<Step>)
    requires Inv(s) && Feasible(s, ts)
    ensures Inv(Final(s, ts))
    decreases |ts|
  {
    if ts != [] {
      StepKeepsInv(s, ts[0]);
      RunKeepsInv(Apply(s, ts[0]), ts[1..]);
    }
  }

  // ---------------------------------------------------------------- agreement

  /** The user's last event arrived between the snapshot's and the reset's, so that neither holds it. */
  predicate FellBetween(s: State, u: User) {
    s.copied.at <= LastOf(s.log, |s.log|, u) < s.resetAt
  }

  predicate LeftBeforeMerge(s: State, u: User) {
    s.copied.at <= LastOf(s.log, |s.log|, u) < s.mergedAt
  }

  /** The index has lost the user: neither holds their last event, and the snapshot says otherwise. */
  predicate Lost(s: State, u: User) {
    var actual, snap := Truth(s.log, |s.log|, u), Get(s.copied.snapshot, u);
    FellBetween(s, u) && actual.Some? && (snap.None? || snap.value.channelId != actual.value)
  }

  /** Once seeded with all events delivered: a user really in voice is tracked at exactly their channel,
      unless the index has lost them; and a user not in voice is tracked exactly if they left between the
      snapshot and its merge. */
  lemma AgreesExactly(s: State, u: User)
    requires Inv(s) && s.seeded && s.delivered == |s.log|
    ensures var actual := Truth(s.log, |s.log|, u); var snap := Get(s.copied.snapshot, u);
      && (actual.Some? ==> ((u in s.idx && s.idx[u].channelId == actual.value) <==> !Lost(s, u)))
      && (actual.None? ==> (u in s.idx <==> LeftBeforeMerge(s, u) && snap.Some?))
  {
    assert Get(s.idx, u) == Expected(s, u);
    var j := LastOf(s.log, |s.log|, u);
    var k := s.copied.at;
    if j < s.mergedAt {
      LastStays(s.log, s.mergedAt, u);
    }
    if j < k {
      LastStays(s.log, k, u);
    }
    assert u in s.copied.snapshot <==> Truth(s.log, k, u).Some?;
  }

  lemma {:induction false} LastStays(log: seq<Event>, n: nat, u: User)
    requires n <= |log| && LastOf(log, |log|, u) < n
    ensures LastOf(log, n, u) == LastOf(log, |log|, u)
  {
    var j := LastOf(log, |log|, u);
    var i := LastOf(log, n, u);
    assert j >= 0 ==> log[j].user == u;
    assert i >= 0 ==> log[i].user == u;
  }

  /** No reset of the run falls between a snapshot's copy and its merge. */
  predicate NoResetInside(s: State, ts: seq<Step>)
    decreases |ts|
  {
    ts == [] || (!(ts[0].Reset? && s.pending.Some?) && NoResetInside(Apply(s, ts[0]), ts[1..]))
  }

  /** Whenever the cache is copied, it has applied every event delivered before. */
  predicate CacheAhead(s: State, ts: seq<Step>)
    decreases |ts|
  {
    ts == [] || ((ts[0].Snapshot? ==> s.delivered <= ts[0].c.at) && CacheAhead(Apply(s, ts[0]), ts[1..]))
  }

  /** The snapshot at hand was copied with everything applied that had been delivered at the last reset. */
  predicate CopiedAfterReset(s: State) {
    (s.pending.Some? ==> s.resetAt <= s.pending.value.at) && (s.seeded ==> s.resetAt <= s.copied.at)
  }

  lemma {:induction false} NoResetKeepsFresh(s: State, ts: seq<Step>)
    requires Inv(s) && Feasible(s, ts) && CacheAhead(s, ts) && NoResetInside(s, ts) && CopiedAfterReset(s)
    ensures CopiedAfterReset(Final(s, ts))
    decreases |ts|
  {
    if ts != [] {
      StepKeepsInv(s, ts[0]);
      hide Expected, SnapshotOf;
      NoResetKeepsFresh(Apply(s, ts[0]), ts[1..]);
    }
  }

  /** When the last snapshot had applied all that had been delivered at the last reset, everyone is tracked
      exactly. */
  lemma TrackedIfFresh(ts: seq<Step>, u: User)
    requires Feasible(FRESH, ts)
    requires var s := Final(FRESH, ts); s.seeded && s.delivered == |s.log| && s.resetAt <= s.copied.at
    ensures var s := Final(FRESH, ts); var actual := Truth(s.log, |s.log|, u);
      && (actual.Some? ==> u in s.idx && s.idx[u].channelId == actual.value)
      && (actual.None? ==> (u in s.idx <==> LeftBeforeMerge(s, u) && u in s.copied.snapshot))
  {
    RunKeepsInv(FRESH, ts);
    AgreesExactly(Final(FRESH, ts), u);
  }

  /** So it is with a cache that is never behind and no reset between a snapshot and its merge, over any
      interleaving of everything else. */
  lemma TrackedExactly(ts: seq<Step>, u: User)
    requires Feasible(FRESH, ts) && CacheAhead(FRESH, ts) && NoResetInside(FRESH, ts)
    requires var s := Final(FRESH, ts); s.seeded && s.delivered == |s.log|
    ensures var s := Final(FRESH, ts); var actual := Truth(s.log, |s.log|, u);
      && (actual.Some? ==> u in s.idx && s.idx[u].channelId == actual.value)
      && (actual.None? ==> (u in s.idx <==> LeftBeforeMerge(s, u) && u in s.copied.snapshot))
  {
    NoResetKeepsFresh(FRESH, ts);
    TrackedIfFresh(ts, u);
  }

  /** A reset between a snapshot and its merge can lose a user for good. */
  lemma ResetCanLose(u: User, c: Channel)
    requires c != 0
    ensures var s := Final(FRESH, LostRun(u, c));
      Feasible(FRESH, LostRun(u, c)) && s.seeded && s.delivered == |s.log|
      && Truth(s.log, |s.log|, u) == Some(c) && u !in s.idx
  {
    var ts := LostRun(u, c);
    var s1 := Apply(FRESH, ts[0]);
    var s2 := Apply(s1, ts[1]);
    var s3 := Apply(s2, ts[2]);
    var s4 := Apply(s3, ts[3]);
    var s5 := Apply(s4, ts[4]);
    assert ts[1..][1..] == ts[2..] && ts[2..][1..] == ts[3..] && ts[3..][1..] == ts[4..] && ts[4..][1..] == [];
    assert Feasible(s4, ts[4..]) && Final(s4, ts[4..]) == s5;
    assert Feasible(s3, ts[3..]) && Final(s3, ts[3..]) == s5;
    assert Feasible(s2, ts[2..]) && Final(s2, ts[2..]) == s5;
    assert Feasible(s1, ts[1..]) && Final(s1, ts[1..]) == s5;
  }

  /** The copy is taken, the user joins and the event is delivered, a reset wipes it, the copy is merged. */
  function LostRun(u: User, c: Channel): seq<Step> {
    [Snapshot(Copy(0, map[])), Emit(Event(u, c, false)), Deliver, Reset, Merge]
  }

  // ---------------------------------------------------------------- humans in the bot's channel

  function Humans(idx: Index, bot: User): set<User> {
    if bot !in idx then {}
    else set u | u in idx && u != bot && !idx[u].isBot && idx[u].channelId == idx[bot].channelId
  }

  ghost predicate ReallyWithBot(s: State, realBots: iset<User>, bot: User, u: User) {
    u != bot && u !in realBots && Truth(s.log, |s.log|, u).Some?
    && Truth(s.log, |s.log|, u) == Truth(s.log, |s.log|, bot)
  }

  /** Whoever was marked as a bot is one; users missing from the cache count as human. */
  ghost predicate FlagsSound(s: State, realBots: iset<User>) {
    && (forall i :: 0 <= i < |s.log| && s.log[i].isBot ==> s.log[i].user in realBots)
    && (forall u :: u in s.copied.snapshot && s.copied.snapshot[u].isBot ==> u in realBots)
  }

  /** With the bot present, all people really with it that the index has not lost are counted. */
  lemma HumansCovered(s: State, realBots: iset<User>, bot: User, humans: set<User>)
    requires Inv(s) && s.seeded && s.delivered == |s.log| && FlagsSound(s, realBots)
    requires Truth(s.log, |s.log|, bot).Some? && !Lost(s, bot)
    requires forall u :: u in humans ==> ReallyWithBot(s, realBots, bot, u) && !Lost(s, u)
    ensures humans <= Humans(s.idx, bot) && |humans| <= |Humans(s.idx, bot)|
  {
    AgreesExactly(s, bot);
    forall u | u in humans ensures u in Humans(s.idx, bot) {
      AgreesExactly(s, u);
      assert Get(s.idx, u) == Expected(s, u);
    }
    SubsetSize(humans, Humans(s.idx, bot));
  }

  /** With the bot present, the human count is never below the truth, over every run with a cache that is
      never behind and no reset between a snapshot and its merge. */
  lemma HumansNotUndercounted(ts: seq<Step>, realBots: iset<User>, bot: User, humans: set<User>)
    requires Feasible(FRESH, ts) && CacheAhead(FRESH, ts) && NoResetInside(FRESH, ts)
    requires var s := Final(FRESH, ts);
      && s.seeded && s.delivered == |s.log| && FlagsSound(s, realBots) && Truth(s.log, |s.log|, bot).Some?
      && forall u :: u in humans ==> ReallyWithBot(s, realBots, bot, u)
    ensures var s := Final(FRESH, ts);
      humans <= Humans(s.idx, bot) && |humans| <= |Humans(s.idx, bot)|
  {
    RunKeepsInv(FRESH, ts);
    NoResetKeepsFresh(FRESH, ts);
    HumansCovered(Final(FRESH, ts), realBots, bot, humans);
  }

  /** Events and snapshot mark exactly the bots. */
  ghost predicate FlagsExact(s: State, realBots: iset<User>) {
    && (forall i :: 0 <= i < |s.log| && s.log[i].channel != 0 ==> (s.log[i].isBot <==> s.log[i].user in realBots))
    && (forall u :: u in s.copied.snapshot ==> (s.copied.snapshot[u].isBot <==> u in realBots))
  }

  /** One who left between the snapshot's copy and its merge, and is taken to be in the snapshot's channel. */
  ghost predicate StaleWithBot(s: State, realBots: iset<User>, bot: User, u: User) {
    && u != bot && u !in realBots && Truth(s.log, |s.log|, u).None? && LeftBeforeMerge(s, u)
    && u in s.copied.snapshot && Truth(s.log, |s.log|, bot) == Some(s.copied.snapshot[u].channelId)
  }

  /** What the index says of a user. */
  lemma EntryExactly(s: State, realBots: iset<User>, u: User)
    requires Inv(s) && s.seeded && s.delivered == |s.log| && s.resetAt <= s.copied.at && FlagsExact(s, realBots)
    ensures var actual := Truth(s.log, |s.log|, u);
      && (actual.Some? ==> u in s.idx && s.idx[u].channelId == actual.value)
      && (actual.None? ==> (u in s.idx <==> LeftBeforeMerge(s, u) && u in s.copied.snapshot))
      && (actual.None? && u in s.idx ==> s.idx[u] == s.copied.snapshot[u])
      && (u in s.idx ==> (s.idx[u].isBot <==> u in realBots))
  {
    AgreesExactly(s, u);
    assert Get(s.idx, u) == Expected(s, u);
    var j := LastOf(s.log, |s.log|, u);
    if j < s.mergedAt {
      LastStays(s.log, s.mergedAt, u);
    }
  }

  /** With the bot present the people counted are exactly those really with it and those who left between
      the snapshot's copy and its merge; so without the latter the count is the true one. */
  lemma HumansExactly(ts: seq<Step>, realBots: iset<User>, bot: User, u: User)
    requires Feasible(FRESH, ts) && CacheAhead(FRESH, ts) && NoResetInside(FRESH, ts)
    requires var s := Final(FRESH, ts);
      s.seeded && s.delivered == |s.log| && FlagsExact(s, realBots) && Truth(s.log, |s.log|, bot).Some?
    ensures var s := Final(FRESH, ts);
      u in Humans(s.idx, bot) <==> ReallyWithBot(s, realBots, bot, u) || StaleWithBot(s, realBots, bot, u)
  {
    RunKeepsInv(FRESH, ts);
    NoResetKeepsFresh(FRESH, ts);
    var s := Final(FRESH, ts);
    EntryExactly(s, realBots, bot);
    EntryExactly(s, realBots, u);
    hide Feasible, Final, Inv, Truth, LeftBeforeMerge;
  }

  /** The number is right when nobody is stale: so a channel without people is seen to be empty. */
  lemma CountExactly(ts: seq<Step>, realBots: iset<User>, bot: User, people: set<User>)
    requires Feasible(FRESH, ts) && CacheAhead(FRESH, ts) && NoResetInside(FRESH, ts)
    requires var s := Final(FRESH, ts);
      && s.seeded && s.delivered == |s.log| && FlagsExact(s, realBots) && Truth(s.log, |s.log|, bot).Some?
      && (forall u :: u in people <==> ReallyWithBot(s, realBots, bot, u))
      && (forall u :: !StaleWithBot(s, realBots, bot, u))
    ensures Humans(Final(FRESH, ts).idx, bot) == people
  {
    hide Feasible, Final, FlagsExact, Humans, ReallyWithBot, StaleWithBot, Truth;
    forall u ensures u in Humans(Final(FRESH, ts).idx, bot) <==> u in people {
      HumansExactly(ts, realBots, bot, u);
    }
  }

  lemma {:induction false} SubsetSize(a: set<User>, b: set<User>)
    requires a <= b
    ensures |a| <= |b|
  {
    if x :| x in a {
      SubsetSize(a - {x}, b - {x});
    }
  }
}
