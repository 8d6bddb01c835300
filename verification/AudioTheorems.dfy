/** What the invariant means for every run: safety of the audio threads, the exact deadlock
    condition, and the response to a stop request. */
module AudioTheorems {
  import opened Options
  import opened AudioLifecycle
  import opened AudioSafety

  // ---------------------------------------------------------------- safety

  /** Program points from which the audio thread dereferences its GuildInfo pointer. */
  predicate UsesPtr(pc: Pc) {
    match pc
    case Probe | FrameStop | FrameSkip | WaitCheck | TrySend | Paced | Drain | RepeatCheck | Silence => true
    case Await(sec) => sec.PickList?
    case In(sec) => sec.PickList?
    case _ => false
  }

  ghost predicate OneThreadEach(s: State) {
    forall t, u :: LiveAudio(s, t) && LiveAudio(s, u) && s.actors[t].guild == s.actors[u].guild ==> t == u
  }

  ghost predicate PointersLive(s: State) {
    && (forall t :: LiveAudio(s, t) && UsesPtr(s.actors[t].pc) ==>
          HasInfo(s, s.actors[t].guild) && s.actors[t].ptr == s.infos[s.actors[t].guild])
    && (forall a :: Active(s, a) && KeepsRemovePtr(s.actors[a].pc) ==>
          HasInfo(s, s.actors[a].guild) && s.actors[a].ptr == s.infos[s.actors[a].guild])
  }

  /** Disconnecting, erasing and replacing happen only with no audio thread of the guild alive,
      and no destructor ever joins. */
  ghost predicate StoppedFirst(s: State) {
    && (forall a, t :: Active(s, a) && Lifecycle(s.actors[a]) && AfterStop(s.actors[a].pc) && LiveAudio(s, t)
          ==> s.actors[t].guild != s.actors[a].guild)
    && (forall a :: a in s.actors ==> !s.actors[a].pc.DtorJoin?)
  }

  lemma InvIsSafe(s: State)
    requires Inv(s)
    ensures OneThreadEach(s) && PointersLive(s) && StoppedFirst(s)
  {
    forall t, u | LiveAudio(s, t) && LiveAudio(s, u) && s.actors[t].guild == s.actors[u].guild ensures t == u {
      OneThread(s, t, u);
    }
    forall a | a in s.actors
      ensures !s.actors[a].pc.DtorJoin?
      ensures KeepsRemovePtr(s.actors[a].pc) ==>
                HasInfo(s, s.actors[a].guild) && s.actors[a].ptr == s.infos[s.actors[a].guild]
      ensures Active(s, a) && s.actors[a].kind.Audio? && UsesPtr(s.actors[a].pc) ==>
                HasInfo(s, s.actors[a].guild) && s.actors[a].ptr == s.infos[s.actors[a].guild]
      ensures Lifecycle(s.actors[a]) && AfterStop(s.actors[a].pc) ==> NoThread(s, s.actors[a].guild)
    {
      assert ActorOk(s, a);
    }
  }

  lemma OneThread(s: State, t: Aid, u: Aid)
    requires Inv(s) && LiveAudio(s, t) && LiveAudio(s, u) && s.actors[t].guild == s.actors[u].guild
    ensures t == u
  {
    assert ActorOk(s, t) && ActorOk(s, u);
    assert ThreadOk(s, t) && ThreadOk(s, u);
    if s.heap[s.infos[s.actors[t].guild]].handle.None? {
      var i :| Joiner(s, i, t);
      var j :| Joiner(s, j, u);
      assert ActorOk(s, i) && ActorOk(s, j);
    }
  }

  /** Safety over whole runs, for any number of guilds, actors and steps. */
  lemma LifecycleSafety(ls: seq<Label>)
    requires Legal(INIT, ls)
    ensures Feasible(INIT, ls)
    ensures OneThreadEach(Final(INIT, ls)) && PointersLive(Final(INIT, ls)) && StoppedFirst(Final(INIT, ls))
  {
    RunKeepsInv(INIT, ls);
    InvIsSafe(Final(INIT, ls));
  }

  /** Who holds a queue mutex holds guildInfosMutex too, or is a remove. */
  lemma QueueHolder(me: Actor, o: ObjId)
    requires List(o) in Held(me)
    ensures GuildInfos in Held(me) || (KeepsRemovePtr(me.pc) && me.ptr == o)
    ensures me.pc != In(Erase) && me.pc != In(Emplace)
  {
  }

  lemma OwnerOf(s: State, l: Lock) returns (b: Aid)
    requires LocksOk(s) && l in s.owner
    ensures b == s.owner[l] && b in s.actors && l in Held(s.actors[b])
  {
    b := s.owner[l];
  }

  lemma HoldersAgree(s: State, a: Aid, b: Aid, l: Lock)
    requires LocksOk(s) && a in s.actors && b in s.actors && l in Held(s.actors[a]) && l in Held(s.actors[b])
    ensures a == b
  {
    assert l in s.owner && s.owner[l] == a;
  }

  /** A remove that keeps a pointer works on an object other than the one a join or leave works on. */
  lemma RemoveElsewhere(s: State, a: Aid, b: Aid)
    requires Inv(s) && a in s.actors && RoleAt(s.actors[a].pc).LifecycleRole?
    requires b in s.actors && KeepsRemovePtr(s.actors[b].pc)
    ensures HasInfo(s, s.actors[b].guild) && s.infos[s.actors[b].guild] == s.actors[b].ptr
    ensures s.actors[a].guild in s.infos ==> s.actors[b].ptr != s.infos[s.actors[a].guild]
  {
    assert ActorOk(s, a) && ActorOk(s, b);
    assert Active(s, a) && Active(s, b) && a != b;
  }

  lemma NobodyHolds(s: State, a: Aid, b: Aid)
    requires Inv(s) && a in s.actors && (s.actors[a].pc == In(Erase) || s.actors[a].pc == In(Emplace))
    requires s.actors[a].guild in s.infos && b in s.actors
    ensures List(s.infos[s.actors[a].guild]) !in Held(s.actors[b])
  {
    var o := s.infos[s.actors[a].guild];
    if List(o) in Held(s.actors[b]) {
      QueueHolder(s.actors[b], o);
      if KeepsRemovePtr(s.actors[b].pc) {
        RemoveElsewhere(s, a, b);
      } else {
        HoldersAgree(s, a, b, GuildInfos);
      }
    }
  }

  /** An object is never erased while someone holds its queue mutex. */
  lemma EraseFindsQueueFree(s: State, a: Aid)
    requires Inv(s) && a in s.actors && (s.actors[a].pc == In(Erase) || s.actors[a].pc == In(Emplace))
    requires s.actors[a].guild in s.infos
    ensures List(s.infos[s.actors[a].guild]) !in s.owner
  {
    var l := List(s.infos[s.actors[a].guild]);
    if l in s.owner {
      var b := OwnerOf(s, l);
      hide Inv, Held;
      NobodyHolds(s, a, b);
    }
  }

  // ---------------------------------------------------------------- deadlock

  /** The order in which mutexes are requested. */
  function Level(l: Lock): nat {
    match l
    case GuildInfos | Voice => 1
    case List(_) => 2
    case LastMessages => 3
  }

  predicate WaitsFor(s: State, a: Aid, b: Aid) {
    && a in s.actors && b in s.actors
    && match s.actors[a].pc
       case Await(sec) =>
         var l := LockOf(sec, s.actors[a].ptr);
         l in s.owner && s.owner[l] == b
       case Joining(t) => t == b && !Finished(s, b)
       case DtorJoin(t, _) => t == b && !Finished(s, b)
       case _ => false
  }

  predicate Nested(s: State, a: Aid) {
    a in s.actors && s.actors[a].pc == Await(NestedStart)
  }

  /** How far along the lock order an actor is blocked: a join first, a runnable actor last. */
  function Depth(me: Actor): nat
    ensures Depth(me) <= 4
  {
    match me.pc
    case Joining(_) | DtorJoin(_, _) => 0
    case Await(sec) => Level(LockOf(sec, me.ptr))
    case _ => 4
  }

  /** Locks are requested in increasing order, except by the nested start. */
  lemma LockOrder(me: Actor, l: Lock)
    requires me.pc.Await? && !me.pc.sec.NestedStart? && l in Held(me)
    ensures Level(l) < Level(LockOf(me.pc.sec, me.ptr))
  {
  }

  lemma WaitsClimb(s: State, a: Aid, b: Aid)
    requires Inv(s) && WaitsFor(s, a, b) && !Nested(s, b)
    ensures Depth(s.actors[a]) < Depth(s.actors[b])
  {
    assert ActorOk(s, a) && ActorOk(s, b);
    var me, you := s.actors[a], s.actors[b];
    if me.pc.Await? {
      var l := LockOf(me.pc.sec, me.ptr);
      assert l in Held(you);
      if you.pc.Await? {
        LockOrder(you, l);
      }
    }
  }

  /** A chain of actors each waiting for the next. */
  ghost predicate Chain(s: State, p: seq<Aid>) {
    forall i :: 0 <= i < |p| - 1 ==> WaitsFor(s, p[i], p[i + 1])
  }

  ghost predicate Cycle(s: State, p: seq<Aid>) {
    |p| >= 2 && p[0] == p[|p| - 1] && Chain(s, p)
  }

  lemma {:induction false} ChainClimbs(s: State, p: seq<Aid>, k: nat)
    requires Inv(s) && Chain(s, p) && 0 < k < |p| && forall a :: !Nested(s, a)
    ensures p[0] in s.actors && p[k] in s.actors && Depth(s.actors[p[0]]) < Depth(s.actors[p[k]])
  {
    assert WaitsFor(s, p[k - 1], p[k]);
    WaitsClimb(s, p[k - 1], p[k]);
    if k > 1 {
      ChainClimbs(s, p, k - 1);
    }
  }

  /** The wait-for graph, joins included, has a cycle exactly when an omakase callback has called
      StartAudioThread with guildInfosMutex held. */
  lemma DeadlockExactly(s: State)
    requires Inv(s)
    ensures (exists p :: Cycle(s, p)) <==> (exists a :: Nested(s, a))
  {
    if a :| Nested(s, a) {
      assert GuildInfos in Held(s.actors[a]);
      assert WaitsFor(s, a, a);
      assert Cycle(s, [a, a]);
    } else if p :| Cycle(s, p) {
      ChainClimbs(s, p, |p| - 1);
    }
  }

  /** Whom a blocked actor waits for; it is further along the lock order. */
  lemma Blocker(s: State, a: Aid) returns (b: Aid)
    requires Inv(s) && Active(s, a) && !Enabled(s, a) && forall c :: !Nested(s, c)
    ensures WaitsFor(s, a, b) && Active(s, b) && Depth(s.actors[a]) < Depth(s.actors[b])
  {
    assert ActorOk(s, a);
    var me := s.actors[a];
    if me.pc.Await? {
      b := OwnerOf(s, LockOf(me.pc.sec, me.ptr));
    } else {
      b := me.pc.t;
    }
    assert WaitsFor(s, a, b);
    WaitsClimb(s, a, b);
    hide Inv, ActorOk;
  }

  /** Without one, whoever is blocked waits, directly or not, for an actor that can step. */
  lemma {:induction false} SomeoneRuns(s: State, a: Aid) returns (p: seq<Aid>)
    requires Inv(s) && Active(s, a) && forall b :: !Nested(s, b)
    ensures |p| > 0 && p[0] == a && Chain(s, p) && Enabled(s, p[|p| - 1])
    decreases 4 - Depth(s.actors[a])
  {
    hide Inv, WaitsFor, Enabled, Depth;
    if Enabled(s, a) {
      return [a];
    }
    var b := Blocker(s, a);
    var q := SomeoneRuns(s, b);
    p := [a] + q;
    assert forall i :: 0 < i < |p| - 1 ==> p[i] == q[i - 1] && p[i + 1] == q[i];
  }

  /** The guard of the failing branch: an omakase callback that finds a GuildInfo whose audio
      thread is not joinable. */
  predicate OmakaseWouldNest(s: State, a: Aid) {
    && a in s.actors && s.actors[a].pc == In(Omakase)
    && HasInfo(s, s.actors[a].guild) && s.heap[s.infos[s.actors[a].guild]].handle.None?
  }

  /** A step enters the nested start exactly when the guard holds. */
  lemma NestedOnlyByGuard(s: State, l: Label, a: Aid)
    requires Inv(s) && Possible(s, l) && !Nested(s, a)
    ensures Nested(Apply(s, l), a) <==> l.Run? && l.a == a && OmakaseWouldNest(s, a)
  {
    if l.Run? {
      assert ActorOk(s, l.a);
      if l.a == a {
        NestedStepOnlyByGuard(s, a, l.c);
      } else {
        StepMovesOne(s, l.a, l.c, a);
      }
    }
  }

  lemma EraseMovesOne(s: State, a: Aid, emplacing: bool)
    requires a in s.actors
    ensures EraseStep(s, a, emplacing).actors == s.actors[a := EraseStep(s, a, emplacing).actors[a]]
    ensures AfterErase(s, a, emplacing).actors == s.actors[a := AfterErase(s, a, emplacing).actors[a]]
    ensures !Nested(EraseStep(s, a, emplacing), a)
  {
  }

  lemma TableStepsMoveOne(s: State, a: Aid)
    requires a in s.actors
    ensures StopStep(s, a).actors == s.actors[a := StopStep(s, a).actors[a]]
    ensures MarkStep(s, a).actors == s.actors[a := MarkStep(s, a).actors[a]]
    ensures EnqueueStep(s, a).actors == s.actors[a := EnqueueStep(s, a).actors[a]]
    ensures !Nested(StopStep(s, a), a) && !Nested(MarkStep(s, a), a) && !Nested(EnqueueStep(s, a), a)
  {
  }

  /** Where the nested start is entered from. */
  lemma NextNested(s: State, me: Actor, sec: Section, c: nat)
    ensures SectionNext(s, me, sec, c).pc == Await(NestedStart) <==>
              sec.Omakase? && HasInfo(s, me.guild) && s.heap[s.infos[me.guild]].handle.None?
  {
  }

  lemma SectionMovesOne(s: State, a: Aid, sec: Section, c: nat)
    requires a in s.actors && !sec.Start?
    ensures SectionStep(s, a, sec, c).actors == s.actors[a := SectionStep(s, a, sec, c).actors[a]]
  {
    hide SectionNext, MarkStep, StopStep, EraseStep, AfterErase, EnqueueStep, Held, Reown;
    EraseMovesOne(s, a, sec.Emplace?);
    TableStepsMoveOne(s, a);
  }

  lemma SectionNested(s: State, a: Aid, sec: Section, c: nat)
    requires a in s.actors && s.actors[a].pc == In(sec) && !sec.Start?
    ensures Nested(SectionStep(s, a, sec, c), a) <==> OmakaseWouldNest(s, a)
  {
    hide SectionNext, MarkStep, StopStep, EraseStep, AfterErase, EnqueueStep, Held, Reown, HasInfo;
    if OnTable(sec) {
      EraseMovesOne(s, a, sec.Emplace?);
      TableStepsMoveOne(s, a);
    } else {
      NextNested(s, s.actors[a], sec, c);
    }
  }

  /** A step leaves every other existing actor alone; a new one is an audio thread at its start. */
  lemma StepMovesOne(s: State, a: Aid, c: nat, b: Aid)
    requires Enabled(s, a) && b != a
    ensures b in s.actors && b != s.nextAid ==> b in Exec(s, a, c).actors && Exec(s, a, c).actors[b] == s.actors[b]
    ensures b !in s.actors && b in Exec(s, a, c).actors ==> Exec(s, a, c).actors[b].pc == Await(Look)
  {
    var pc := s.actors[a].pc;
    if pc == In(Start) {
      assert Exec(s, a, c) == StartStep(s, a);
    } else if pc.In? {
      SectionMovesOne(s, a, pc.sec, c);
    } else if pc.DtorJoin? {
      EraseMovesOne(s, a, pc.emplacing);
    } else {
      assert Exec(s, a, c) == Become(s, a, LocalNext(s, s.actors[a], c));
    }
  }

  lemma NestedStepOnlyByGuard(s: State, a: Aid, c: nat)
    requires Inv(s) && Enabled(s, a)
    ensures Nested(Exec(s, a, c), a) <==> OmakaseWouldNest(s, a)
  {
    var pc := s.actors[a].pc;
    assert ActorOk(s, a);
    if pc == In(Start) {
      assert Exec(s, a, c) == StartStep(s, a);
    } else if pc.In? {
      SectionNested(s, a, pc.sec, c);
    } else {
      assert Exec(s, a, c) == Become(s, a, LocalNext(s, s.actors[a], c));
    }
  }

  function Solo(n: nat): seq<Label> {
    if n == 0 then [] else [Run(0, 0)] + Solo(n - 1)
  }

  lemma SoloStep(s: State, n: nat)
    requires n > 0 && Enabled(s, 0) && Legal(Exec(s, 0, 0), Solo(n - 1))
    ensures Legal(s, Solo(n)) && Feasible(s, Solo(n)) && Feasible(Exec(s, 0, 0), Solo(n - 1))
    ensures Final(s, Solo(n)) == Final(Exec(s, 0, 0), Solo(n - 1))
  {
    LegalIsFeasible(Exec(s, 0, 0), Solo(n - 1));
    assert Solo(n)[1..] == Solo(n - 1);
  }

  /** A state in which actor 0, an omakase callback, is alone and holds just the locks it needs. */
  predicate AloneAt(s: State, pc: Pc) {
    && 0 in s.actors && s.actors[0].kind.OmakaseCmd? && s.actors[0].pc == pc
    && s.owner == map l | l in Held(s.actors[0]) :: 0
  }

  predicate Threadless(s: State) {
    0 in s.actors && HasInfo(s, s.actors[0].guild) && s.heap[s.infos[s.actors[0].guild]].handle.None?
  }

  lemma AloneBecomes(s: State, me: Actor)
    requires 0 in s.actors && AloneAt(s, s.actors[0].pc) && me.kind.OmakaseCmd?
    ensures AloneAt(Become(s, 0, me), me.pc)
  {
  }

  lemma AloneEnters(s: State, sec: Section)
    requires AloneAt(s, Await(sec)) && LockOf(sec, s.actors[0].ptr) !in Outer(sec, s.actors[0].ptr)
    ensures Enabled(s, 0) && AloneAt(Exec(s, 0, 0), In(sec)) && (Threadless(s) ==> Threadless(Exec(s, 0, 0)))
    ensures Exec(s, 0, 0) == Become(s, 0, s.actors[0].(pc := In(sec)))
  {
    AloneBecomes(s, s.actors[0].(pc := In(sec)));
  }

  lemma AloneLeaves(s: State, sec: Section, pc: Pc)
    requires AloneAt(s, In(sec)) && Threadless(s)
    requires (sec.EnqueueList? && pc == Await(Omakase)) || (sec.Omakase? && pc == Await(NestedStart))
    ensures Enabled(s, 0) && AloneAt(Exec(s, 0, 0), pc) && Threadless(Exec(s, 0, 0))
  {
    AloneBecomes(s, s.actors[0].(pc := pc));
    assert Exec(s, 0, 0) == Become(s, 0, CommandNext(s, s.actors[0], sec, 0));
  }

  lemma AloneEnqueues(s: State)
    requires AloneAt(s, In(Enqueue)) && s.infos == map[]
    ensures Enabled(s, 0) && AloneAt(Exec(s, 0, 0), Await(EnqueueList)) && Threadless(Exec(s, 0, 0))
  {
    var me := s.actors[0];
    var s1 := EmplaceInfo(s, me.guild);
    AloneBecomes(s1, me.(pc := Await(EnqueueList), ptr := s1.infos[me.guild]));
    assert Exec(s, 0, 0) == EnqueueStep(s, 0);
  }

  lemma AloneNests(s: State)
    requires AloneAt(s, Await(EnqueueList)) && Threadless(s)
    ensures Legal(s, Solo(4)) && Feasible(s, Solo(4)) && Nested(Final(s, Solo(4)), 0)
  {
    AloneEnters(s, EnqueueList);
    var s3 := Exec(s, 0, 0);
    AloneLeaves(s3, EnqueueList, Await(Omakase));
    var s4 := Exec(s3, 0, 0);
    AloneEnters(s4, Omakase);
    var s5 := Exec(s4, 0, 0);
    AloneLeaves(s5, Omakase, Await(NestedStart));
    SoloStep(s5, 1);
    SoloStep(s4, 2);
    SoloStep(s3, 3);
    SoloStep(s, 4);
  }

  lemma AloneRuns(s: State)
    requires AloneAt(s, Await(Enqueue)) && s.infos == map[]
    ensures Legal(s, Solo(6)) && Feasible(s, Solo(6)) && Nested(Final(s, Solo(6)), 0)
  {
    AloneEnters(s, Enqueue);
    var s1 := Exec(s, 0, 0);
    AloneEnqueues(s1);
    AloneNests(Exec(s1, 0, 0));
    SoloStep(s1, 5);
    SoloStep(s, 6);
  }

  /** The run of a single omakase command whose author never joined: it creates a GuildInfo without
      a thread and then waits for itself. */
  lemma OmakaseCanNest(g: Guild, run: seq<Label>)
    requires run == [Spawn(OmakaseCmd, g)] + Solo(6)
    ensures Legal(INIT, run) && Feasible(INIT, run) && Nested(Final(INIT, run), 0)
  {
    var s := Apply(INIT, run[0]);
    assert NoOverlap(INIT, run[0]) && run[1..] == Solo(6);
    assert AloneAt(s, Await(Enqueue)) && s.infos == map[];
    AloneRuns(s);
  }

  lemma NestedHolds(s: State, a: Aid)
    requires Inv(s) && Nested(s, a)
    ensures GuildInfos in s.owner && s.owner[GuildInfos] == a && !Enabled(s, a)
  {
    assert GuildInfos in Held(s.actors[a]);
  }

  lemma NestedStays(s: State, l: Label, a: Aid)
    requires Inv(s) && Possible(s, l) && Nested(s, a)
    ensures Nested(Apply(s, l), a)
  {
    NestedHolds(s, a);
    assert a < s.nextAid;
    hide Inv, Exec, Enabled;
    if l.Run? {
      StepMovesOne(s, l.a, l.c, a);
    }
  }

  /** A nested start is final: the callback keeps guildInfosMutex and never moves again. */
  lemma {:induction false} NestedForever(s: State, ls: seq<Label>, a: Aid)
    requires Inv(s) && Nested(s, a) && Legal(s, ls)
    ensures Feasible(s, ls) && Nested(Final(s, ls), a)
    ensures GuildInfos in Final(s, ls).owner && Final(s, ls).owner[GuildInfos] == a
    decreases |ls|
  {
    hide Exec, Inv, Held, NoOverlap, Nested, Possible, Apply;
    if ls != [] {
      StepKeepsInv(s, ls[0]);
      NestedStays(s, ls[0], a);
      NestedForever(Apply(s, ls[0]), ls[1..], a);
    } else {
      NestedHolds(s, a);
    }
  }

  // ---------------------------------------------------------------- deadlock over whole runs

  /** Some step of the run performs the check of an omakase callback with the guard true. */
  predicate Triggers(s: State, ls: seq<Label>)
    requires Feasible(s, ls)
    decreases |ls|
  {
    ls != [] && ((ls[0].Run? && OmakaseWouldNest(s, ls[0].a)) || Triggers(Apply(s, ls[0]), ls[1..]))
  }

  ghost predicate SomeNested(s: State) {
    exists a :: Nested(s, a)
  }

  lemma NestedAfterStep(s: State, l: Label)
    requires Inv(s) && Possible(s, l) && NoOverlap(s, l)
    ensures SomeNested(Apply(s, l)) <==> SomeNested(s) || (l.Run? && OmakaseWouldNest(s, l.a))
  {
    hide Inv, NoOverlap, Apply, OmakaseWouldNest;
    if a :| Nested(s, a) {
      NestedStays(s, l, a);
    } else if l.Run? {
      NestedOnlyByGuard(s, l, l.a);
    }
    if a :| Nested(Apply(s, l), a) && !SomeNested(s) {
      NestedOnlyByGuard(s, l, a);
    }
  }

  lemma {:induction false} NestedIffTriggered(s: State, ls: seq<Label>)
    requires Inv(s) && Legal(s, ls)
    ensures Feasible(s, ls) && (SomeNested(Final(s, ls)) <==> SomeNested(s) || Triggers(s, ls))
    decreases |ls|
  {
    hide Inv, NoOverlap, Apply, Possible, OmakaseWouldNest, SomeNested;
    if ls != [] {
      StepKeepsInv(s, ls[0]);
      NestedAfterStep(s, ls[0]);
      NestedIffTriggered(Apply(s, ls[0]), ls[1..]);
    }
  }

  /** Over every run without overlaps: it ends in a deadlock exactly when in some step of it an omakase
      callback found a GuildInfo whose audio thread was not joinable. */
  lemma DeadlockFreeRuns(ls: seq<Label>)
    requires Legal(INIT, ls)
    ensures Feasible(INIT, ls)
    ensures (exists p :: Cycle(Final(INIT, ls), p)) <==> (exists a :: Nested(Final(INIT, ls), a))
    ensures (exists p :: Cycle(Final(INIT, ls), p)) <==> Triggers(INIT, ls)
  {
    RunKeepsInv(INIT, ls);
    DeadlockExactly(Final(INIT, ls));
    NestedIffTriggered(INIT, ls);
    assert !SomeNested(INIT);
  }
}
