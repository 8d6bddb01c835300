/** What the life cycle brings about: a join starts an audio thread, the thread stays and plays until a
    join or leave of its guild tells it to stop, a leave removes the object and leaves silence behind,
    and every command comes to its end. */
module AudioLiveness {
  import opened Options
  import opened AudioLifecycle
  import opened AudioSafety
  import opened AudioTheorems
  import opened AudioStop

  // ---------------------------------------------------------------- what the life-cycle sections do

  /** The guild's object has the handle of `t`, its only live audio thread, and its flag is down. */
  ghost predicate Running(s: State, t: Aid, g: Guild) {
    && LiveAudio(s, t) && s.actors[t].guild == g
    && (forall u :: LiveAudio(s, u) && s.actors[u].guild == g ==> u == t)
    && HasInfo(s, g) && s.heap[s.infos[g]] == Info(false, Some(t))
  }

  /** StartAudioThread starts a thread whenever the guild has an object. */
  lemma StartLaunches(s: State, a: Aid, c: nat)
    requires Inv(s) && a in s.actors && s.actors[a].pc == In(Start) && HasInfo(s, s.actors[a].guild)
    ensures Enabled(s, a) && s.nextAid !in s.actors && Running(Exec(s, a, c), s.nextAid, s.actors[a].guild)
    ensures Exec(s, a, c).actors[s.nextAid] == Actor(Audio, s.actors[a].guild, Await(Look), NULL, 0)
    ensures Exec(s, a, c).infos == s.infos
  {
    assert ActorOk(s, a) && NoThread(s, s.actors[a].guild);
    assert Exec(s, a, c) == StartStep(s, a);
    hide ActorsOk, LocksOk, Exclusive, ActorOk, Held, Reown;
  }

  /** The critical section of a stop: the flag is up, the handle taken, and if there was one the caller
      is about to join that thread. */
  lemma StopTakes(s: State, a: Aid, c: nat)
    requires a in s.actors && s.actors[a].pc == In(Stop) && HasInfo(s, s.actors[a].guild)
    ensures var g := s.actors[a].guild; var s' := Exec(s, a, c); var handle := s.heap[s.infos[g]].handle;
      && s'.infos == s.infos && s'.heap == s.heap[s.infos[g] := Info(true, None)]
      && a in s'.actors && s'.actors[a].pc == if handle.Some? then Joining(handle.value) else Disconnect
  {
    assert Exec(s, a, c) == StopStep(s, a);
    hide Held, Reown;
  }

  /** LeaveVoice raises the flag at once. */
  lemma MarkRaises(s: State, a: Aid, c: nat)
    requires a in s.actors && s.actors[a].pc == In(Mark) && HasInfo(s, s.actors[a].guild)
    ensures var g := s.actors[a].guild; var s' := Exec(s, a, c);
      && s'.infos == s.infos && s'.heap == s.heap[s.infos[g] := s.heap[s.infos[g]].(stop := true)]
  {
    assert Exec(s, a, c) == MarkStep(s, a);
    hide Held, Reown;
  }

  /** The erase of a leave or of a join removes the object; the replacement in a join leaves a new one
      without a thread and without a stop request. */
  lemma EraseRemoves(s: State, a: Aid, c: nat)
    requires Inv(s) && a in s.actors && (s.actors[a].pc == In(Erase) || s.actors[a].pc == In(Emplace))
    ensures var g := s.actors[a].guild; var s' := Exec(s, a, c);
      && (g in s.infos ==> s.infos[g] !in s'.heap)
      && (s.actors[a].pc == In(Erase) ==> g !in s'.infos)
      && (s.actors[a].pc == In(Emplace) ==>
            g in s'.infos && s'.infos[g] == s.nextObj && s'.heap[s.nextObj] == Info(false, None)
            && s'.actors[a].pc == Await(Start))
  {
    var emplacing := s.actors[a].pc == In(Emplace);
    assert Active(s, a) && Exec(s, a, c) == EraseStep(s, a, emplacing);
    EraseGoesThrough(s, a, emplacing);
    hide EraseStep, AfterErase, ActorsOk, LocksOk, Exclusive, Held, Reown;
  }

  // ---------------------------------------------------------------- what a step makes of its actor

  /** Where the sections that may change the table lead. */
  predicate TablePc(sec: Section, pc: Pc) {
    match sec
    case Mark => pc == Await(Stop)
    case Stop => pc.Joining? || pc.Disconnect?
    case Erase => pc == Await(Reset)
    case Emplace => pc == Await(Start)
    case Start => pc == Await(Reply)
    case _ => pc == Await(EnqueueList)
  }

  predicate SameActor(s: State, s': State, a: Aid) {
    a in s.actors && a in s'.actors
    && s'.actors[a].kind == s.actors[a].kind && s'.actors[a].guild == s.actors[a].guild
  }

  lemma TableActor(s: State, a: Aid)
    requires a in s.actors && a != s.nextAid
    ensures SameActor(s, MarkStep(s, a), a) && TablePc(Mark, MarkStep(s, a).actors[a].pc)
    ensures SameActor(s, StopStep(s, a), a) && TablePc(Stop, StopStep(s, a).actors[a].pc)
    ensures SameActor(s, StartStep(s, a), a) && TablePc(Start, StartStep(s, a).actors[a].pc)
    ensures SameActor(s, EnqueueStep(s, a), a) && TablePc(Enqueue, EnqueueStep(s, a).actors[a].pc)
  {
    StopActor(s, a);
    StartActor(s, a);
    hide StopStep, StartStep, Held, Reown;
  }

  lemma StopActor(s: State, a: Aid)
    requires a in s.actors
    ensures SameActor(s, StopStep(s, a), a) && TablePc(Stop, StopStep(s, a).actors[a].pc)
  {
    hide Held, Reown;
  }

  lemma StartActor(s: State, a: Aid)
    requires a in s.actors && a != s.nextAid
    ensures SameActor(s, StartStep(s, a), a) && TablePc(Start, StartStep(s, a).actors[a].pc)
  {
    hide Held, Reown;
  }

  lemma EraseActor(s: State, a: Aid)
    requires Inv(s) && a in s.actors && (s.actors[a].pc == In(Erase) || s.actors[a].pc == In(Emplace))
    ensures var sec := s.actors[a].pc.sec; var s' := EraseStep(s, a, sec.Emplace?);
      SameActor(s, s', a) && TablePc(sec, s'.actors[a].pc)
  {
    EraseGoesThrough(s, a, s.actors[a].pc.sec.Emplace?);
    hide Inv, EraseStep, AfterErase, Held, Reown;
  }

  lemma TableStepIs(s: State, a: Aid, c: nat)
    requires a in s.actors
    ensures SectionStep(s, a, Mark, c) == MarkStep(s, a) && SectionStep(s, a, Stop, c) == StopStep(s, a)
    ensures SectionStep(s, a, Erase, c) == EraseStep(s, a, false)
    ensures SectionStep(s, a, Emplace, c) == EraseStep(s, a, true)
    ensures SectionStep(s, a, Start, c) == StartStep(s, a) && SectionStep(s, a, Enqueue, c) == EnqueueStep(s, a)
  {
    hide MarkStep, StopStep, EraseStep, StartStep, EnqueueStep, SectionNext, Become;
  }

  lemma TableSection(s: State, a: Aid, c: nat)
    requires Inv(s) && a in s.actors && s.actors[a].pc.In? && OnTable(s.actors[a].pc.sec)
    ensures var s' := SectionStep(s, a, s.actors[a].pc.sec, c);
      SameActor(s, s', a) && TablePc(s.actors[a].pc.sec, s'.actors[a].pc)
  {
    var sec := s.actors[a].pc.sec;
    assert a < s.nextAid;
    hide Inv, MarkStep, StopStep, EraseStep, AfterErase, StartStep, EnqueueStep, SectionStep, SameActor, TablePc;
    TableStepIs(s, a, c);
    if sec.Erase? || sec.Emplace? {
      EraseActor(s, a);
    } else {
      TableActor(s, a);
    }
  }

  lemma NextSame(s: State, me: Actor, sec: Section, c: nat)
    ensures SectionNext(s, me, sec, c).kind == me.kind && SectionNext(s, me, sec, c).guild == me.guild
    ensures LocalNext(s, me, c).kind == me.kind && LocalNext(s, me, c).guild == me.guild
  {
    hide HasInfo, StopSeen;
  }

  /** What a step makes of the actor that performs it. */
  lemma StepOf(s: State, a: Aid, c: nat)
    requires Inv(s) && Enabled(s, a)
    ensures var me, s' := s.actors[a], Exec(s, a, c);
      && SameActor(s, s', a)
      && (me.pc.In? && OnTable(me.pc.sec) ==> TablePc(me.pc.sec, s'.actors[a].pc))
      && (me.pc.In? && !OnTable(me.pc.sec) ==> s'.actors[a] == SectionNext(s, me, me.pc.sec, c))
      && (!me.pc.In? ==> !me.pc.Exited? && s'.actors[a] == LocalNext(s, me, c))
  {
    var me := s.actors[a];
    assert ActorOk(s, a) && !me.pc.DtorJoin?;
    hide Inv, ActorOk, SectionNext, LocalNext, TablePc, OnTable, Held, Reown;
    if me.pc.In? && OnTable(me.pc.sec) {
      TableSection(s, a, c);
      hide SectionStep;
    } else if me.pc.In? {
      OffTable(s, a, me.pc.sec, c);
      NextSame(s, me, me.pc.sec, c);
      hide SectionStep;
    } else {
      NextSame(s, me, Reply, c);
    }
  }

  lemma OffTable(s: State, a: Aid, sec: Section, c: nat)
    requires a in s.actors && !OnTable(sec)
    ensures SectionStep(s, a, sec, c) == Become(s, a, SectionNext(s, s.actors[a], sec, c))
  {
    hide SectionNext, Become;
  }

  // ---------------------------------------------------------------- the thread stays and plays

  /** No join or leave of the guild is under way, but for its last message. */
  ghost predicate Calm(s: State, g: Guild) {
    forall a :: Active(s, a) && Lifecycle(s.actors[a]) && s.actors[a].guild == g ==>
      s.actors[a].pc == Await(Reply) || s.actors[a].pc == In(Reply)
  }

  predicate Disturbs(l: Label, g: Guild) {
    l.Spawn? && l.g == g && (l.kind.JoinCmd? || l.kind.LeaveCmd?)
  }

  /** Guild `g` keeps its object with all its fields. */
  predicate InfoSurvives(s: State, s': State, g: Guild) {
    g in s.infos && HasInfo(s, g) && HasInfo(s', g) && s'.infos[g] == s.infos[g]
    && s'.heap[s.infos[g]] == s.heap[s.infos[g]]
  }

  lemma SectionKeepsInfo(s: State, a: Aid, sec: Section, c: nat, g: Guild)
    requires a in s.actors && TableOk(s) && HasInfo(s, g)
    requires OnTable(sec) && !sec.Enqueue? ==> s.actors[a].guild != g
    ensures InfoSurvives(s, SectionStep(s, a, sec, c), g)
  {
    if sec.Enqueue? {
      EnqueueKeepsInfo(s, a, g);
    } else if OnTable(sec) {
      OthersKeepInfo(s, a, sec.Emplace?, g);
    }
    hide SectionNext, MarkStep, StopStep, EraseStep, StartStep, EnqueueStep, Held, Reown, TableOk;
  }

  lemma EnqueueKeepsInfo(s: State, a: Aid, g: Guild)
    requires a in s.actors && TableOk(s) && HasInfo(s, g)
    ensures InfoSurvives(s, EnqueueStep(s, a), g)
  {
    assert s.infos[g] != s.nextObj;
    hide Held, Reown;
  }

  lemma OthersKeepInfo(s: State, a: Aid, emplacing: bool, g: Guild)
    requires a in s.actors && TableOk(s) && HasInfo(s, g) && s.actors[a].guild != g
    ensures InfoSurvives(s, MarkStep(s, a), g) && InfoSurvives(s, StopStep(s, a), g)
    ensures InfoSurvives(s, StartStep(s, a), g) && InfoSurvives(s, EraseStep(s, a, emplacing), g)
  {
    if s.actors[a].guild in s.infos {
      assert s.infos[s.actors[a].guild] != s.infos[g];
    }
    assert s.infos[g] != s.nextObj;
    hide TableOk, Held, Reown;
    FlagStepsKeepInfo(s, a, g);
    EraseKeepsInfo(s, a, emplacing, g);
    hide MarkStep, StopStep, StartStep, EraseStep, AfterErase, InfoSurvives;
  }

  lemma FlagStepsKeepInfo(s: State, a: Aid, g: Guild)
    requires a in s.actors && HasInfo(s, g) && s.actors[a].guild != g
    requires s.actors[a].guild in s.infos ==> s.infos[s.actors[a].guild] != s.infos[g]
    ensures InfoSurvives(s, MarkStep(s, a), g) && InfoSurvives(s, StopStep(s, a), g)
    ensures InfoSurvives(s, StartStep(s, a), g)
  {
    hide Held, Reown;
  }

  lemma EraseKeepsInfo(s: State, a: Aid, emplacing: bool, g: Guild)
    requires a in s.actors && HasInfo(s, g) && s.actors[a].guild != g && s.infos[g] != s.nextObj
    requires s.actors[a].guild in s.infos ==> s.infos[s.actors[a].guild] != s.infos[g]
    ensures InfoSurvives(s, EraseStep(s, a, emplacing), g)
  {
    hide Held, Reown;
  }

  lemma StepKeepsInfo(s: State, a: Aid, c: nat, g: Guild)
    requires Inv(s) && Enabled(s, a) && HasInfo(s, g)
    requires Lifecycle(s.actors[a]) && s.actors[a].guild == g ==> s.actors[a].pc.In? ==> !OnTable(s.actors[a].pc.sec)
    ensures InfoSurvives(s, Exec(s, a, c), g)
  {
    var pc := s.actors[a].pc;
    assert ActorOk(s, a) && !pc.DtorJoin? && Active(s, a);
    hide ActorOk, ActorsOk, LocksOk, Exclusive, TableOk;
    if pc.In? {
      SectionKeepsInfo(s, a, pc.sec, c, g);
    }
    hide SectionStep, LocalNext;
  }

  lemma AudioExits(s: State, me: Actor, sec: Section, c: nat)
    ensures AudioNext(s, me, sec, c).pc.Exited? ==> !HasInfo(s, me.guild) || s.heap[s.infos[me.guild]].stop
  {
  }

  lemma LocalStays(s: State, me: Actor, c: nat)
    requires !me.pc.Exited?
    ensures !LocalNext(s, me, c).pc.Exited?
  {
  }

  /** The thread leaves its loop only when its flag is up. */
  lemma ExitsOnlyWhenTold(s: State, t: Aid, c: nat)
    requires Inv(s) && LiveAudio(s, t) && Enabled(s, t)
    ensures t in Exec(s, t, c).actors
    ensures Exec(s, t, c).actors[t].pc.Exited? ==> Stopping(s, t)
  {
    assert ActorOk(s, t) && ThreadOk(s, t);
    assert RoleAt(s.actors[t].pc).AudioRole? && HasInfo(s, s.actors[t].guild);
    AudioExec(s, t, c);
    var me := s.actors[t];
    if me.pc.In? {
      AudioExits(s, me, me.pc.sec, c);
      assert AudioNext(s, me, me.pc.sec, c).pc.Exited? ==> s.heap[s.infos[me.guild]].stop;
    } else {
      LocalStays(s, me, c);
    }
    assert Exec(s, t, c).actors[t].pc.Exited? ==> s.heap[s.infos[me.guild]].stop;
  }

  lemma StepKeepsCalm(s: State, l: Label, g: Guild)
    requires Inv(s) && Possible(s, l) && Calm(s, g) && !Disturbs(l, g)
    ensures Calm(Apply(s, l), g)
  {
    var s' := Apply(s, l);
    forall b | Active(s', b) && Lifecycle(s'.actors[b]) && s'.actors[b].guild == g
      ensures s'.actors[b].pc == Await(Reply) || s'.actors[b].pc == In(Reply)
    {
      if l.Run? {
        CalmActor(s, l.a, l.c, g, b);
      }
    }
  }

  lemma CalmActor(s: State, a: Aid, c: nat, g: Guild, b: Aid)
    requires Inv(s) && Enabled(s, a) && Calm(s, g)
    requires Active(Exec(s, a, c), b) && Lifecycle(Exec(s, a, c).actors[b]) && Exec(s, a, c).actors[b].guild == g
    ensures Exec(s, a, c).actors[b].pc == Await(Reply) || Exec(s, a, c).actors[b].pc == In(Reply)
  {
    if b != a {
      NewIsAudio(s, a, c, b);
      hide Inv, Exec, Enabled;
    } else {
      StepOf(s, a, c);
      assert Active(s, a);
      hide Inv, Exec;
    }
  }

  /** A step touches no other actor, and adds at most an audio thread. */
  lemma NewIsAudio(s: State, a: Aid, c: nat, b: Aid)
    requires Inv(s) && Enabled(s, a) && b != a && b in Exec(s, a, c).actors
    ensures b in s.actors ==> Exec(s, a, c).actors[b] == s.actors[b]
    ensures b !in s.actors ==>
      Exec(s, a, c).actors[b] == Actor(Audio, s.actors[a].guild, Await(Look), NULL, 0) && s.actors[a].pc == In(Start)
  {
    var pc := s.actors[a].pc;
    assert TableOk(s);
    hide Held, Reown, Inv;
    if pc == In(Start) {
      assert Exec(s, a, c) == StartStep(s, a);
    } else if pc.In? {
      SectionMovesOne(s, a, pc.sec, c);
      hide SectionStep;
    } else if pc.DtorJoin? {
      EraseMovesOne(s, a, pc.emplacing);
    } else {
      assert Exec(s, a, c) == Become(s, a, LocalNext(s, s.actors[a], c));
      hide LocalNext;
    }
  }

  lemma StepKeepsRunning(s: State, l: Label, t: Aid, g: Guild)
    requires Inv(s) && Possible(s, l) && NoOverlap(s, l) && Calm(s, g) && Running(s, t, g) && !Disturbs(l, g)
    ensures Running(Apply(s, l), t, g)
  {
    var s' := Apply(s, l);
    StepKeepsInv(s, l);
    assert t < s.nextAid;
    if l.Run? {
      assert Active(s, l.a);
      StepKeepsInfo(s, l.a, l.c, g);
      if l.a == t {
        StepOf(s, t, l.c);
        ExitsOnlyWhenTold(s, t, l.c);
      } else {
        StepMovesOne(s, l.a, l.c, t);
      }
    }
    hide Exec, NoOverlap, Calm;
    assert LiveAudio(s', t) && s'.actors[t].guild == g;
    forall u | LiveAudio(s', u) && s'.actors[u].guild == g ensures u == t {
      OneThread(s', u, t);
    }
  }

  ghost predicate Undisturbed(ls: seq<Label>, g: Guild) {
    forall i :: 0 <= i < |ls| ==> !Disturbs(ls[i], g)
  }

  /** Whatever other guilds and the queue commands do: until a join or leave of its own guild begins, a
      running audio thread goes on running, with its handle in the table and its flag down. */
  lemma {:induction false} StaysRunning(s: State, ls: seq<Label>, t: Aid, g: Guild)
    requires Inv(s) && Legal(s, ls) && Calm(s, g) && Running(s, t, g) && Undisturbed(ls, g)
    ensures Feasible(s, ls) && Running(Final(s, ls), t, g)
    decreases |ls|
  {
    hide Inv, NoOverlap, Calm, Running, Apply, Possible;
    if ls != [] {
      assert !Disturbs(ls[0], g);
      StepKeepsInv(s, ls[0]);
      StepKeepsRunning(s, ls[0], t, g);
      StepKeepsCalm(s, ls[0], g);
      StaysRunning(Apply(s, ls[0]), ls[1..], t, g);
    }
  }

  // ---------------------------------------------------------------- frames can be sent

  /** The thread is at the top of its frame loop, and its flag is down. */
  predicate InFrameLoop(s: State, t: Aid) {
    && t in s.actors && s.actors[t].kind.Audio? && s.actors[t].pc == FrameStop && !StopSeen(s, s.actors[t].ptr)
  }

  /** The five steps of one frame: flag, skip, wait, send, pause. */
  function FrameRun(t: Aid): seq<Label> {
    [Run(t, 0), Run(t, 2), Run(t, 1), Run(t, 0), Run(t, 0)]
  }

  function FramesRun(t: Aid, n: nat): seq<Label> {
    if n == 0 then [] else FrameRun(t) + FramesRun(t, n - 1)
  }

  lemma LocalStep(s: State, t: Aid, c: nat, ls: seq<Label>)
    requires t in s.actors && !s.actors[t].pc.In? && !s.actors[t].pc.Await? && !s.actors[t].pc.Exited?
    requires !s.actors[t].pc.Joining? && !s.actors[t].pc.DtorJoin?
    requires Legal(Become(s, t, LocalNext(s, s.actors[t], c)), ls)
    ensures Enabled(s, t) && Exec(s, t, c) == Become(s, t, LocalNext(s, s.actors[t], c))
    ensures Legal(s, [Run(t, c)] + ls) && Feasible(s, [Run(t, c)] + ls) && Feasible(Exec(s, t, c), ls)
    ensures Final(s, [Run(t, c)] + ls) == Final(Exec(s, t, c), ls)
  {
    LegalIsFeasible(Exec(s, t, c), ls);
    assert ([Run(t, c)] + ls)[1..] == ls;
  }

  /** Where the five steps lead while the flag is down. */
  lemma FrameMoves(s: State, me: Actor)
    requires !StopSeen(s, me.ptr)
    ensures LocalNext(s, me.(pc := FrameStop), 0) == me.(pc := FrameSkip)
    ensures LocalNext(s, me.(pc := FrameSkip), 2) == me.(pc := WaitCheck)
    ensures LocalNext(s, me.(pc := WaitCheck), 1) == me.(pc := TrySend)
    ensures LocalNext(s, me.(pc := TrySend), 0) == me.(pc := Paced, sent := me.sent + 1)
    ensures LocalNext(s, me.(pc := Paced), 0) == me.(pc := FrameStop)
  {
  }

  lemma BecomeFrame(s: State, t: Aid, me: Actor)
    requires t in s.actors
    ensures var s' := Become(s, t, me); s'.actors == s.actors[t := me] && s'.heap == s.heap && s'.infos == s.infos
  {
  }

  /** One frame, and then whatever can follow. */
  lemma SendsOne(s: State, t: Aid, ls: seq<Label>) returns (s': State)
    requires InFrameLoop(s, t)
    ensures InFrameLoop(s', t) && s'.actors[t] == s.actors[t].(sent := s.actors[t].sent + 1)
    ensures s'.infos == s.infos && s'.heap == s.heap
    ensures Legal(s', ls) ==>
      Legal(s, FrameRun(t) + ls) && Feasible(s, FrameRun(t) + ls) && Feasible(s', ls)
      && Final(s, FrameRun(t) + ls) == Final(s', ls)
  {
    hide Become, Legal, Feasible, Final, Exec, Enabled, LocalNext;
    var me := s.actors[t];
    var more := me.(sent := me.sent + 1);
    var s1 := Become(s, t, me.(pc := FrameSkip));
    BecomeFrame(s, t, me.(pc := FrameSkip));
    var s2 := Become(s1, t, me.(pc := WaitCheck));
    BecomeFrame(s1, t, me.(pc := WaitCheck));
    var s3 := Become(s2, t, me.(pc := TrySend));
    BecomeFrame(s2, t, me.(pc := TrySend));
    var s4 := Become(s3, t, more.(pc := Paced));
    BecomeFrame(s3, t, more.(pc := Paced));
    s' := Become(s4, t, more.(pc := FrameStop));
    BecomeFrame(s4, t, more.(pc := FrameStop));
    FrameMoves(s, me);
    FrameMoves(s1, me);
    FrameMoves(s2, me);
    FrameMoves(s3, me);
    FrameMoves(s4, more);
    if Legal(s', ls) {
      LocalStep(s4, t, 0, ls);
      var l4 := [Run(t, 0)] + ls;
      LocalStep(s3, t, 0, l4);
      var l3 := [Run(t, 0)] + l4;
      LocalStep(s2, t, 1, l3);
      var l2 := [Run(t, 1)] + l3;
      LocalStep(s1, t, 2, l2);
      var l1 := [Run(t, 2)] + l2;
      LocalStep(s, t, 0, l1);
      assert [Run(t, 0)] + l1 == FrameRun(t) + ls;
    }
  }

  /** A thread whose flag is down can send any number of further frames by its own steps alone. */
  lemma {:induction false} SendsMany(s: State, t: Aid, n: nat)
    requires InFrameLoop(s, t)
    ensures Legal(s, FramesRun(t, n)) && Feasible(s, FramesRun(t, n))
    ensures var s' := Final(s, FramesRun(t, n));
      InFrameLoop(s', t) && s'.actors[t] == s.actors[t].(sent := s.actors[t].sent + n)
      && s'.heap == s.heap && s'.infos == s.infos
    decreases n
  {
    if n > 0 {
      var s' := SendsOne(s, t, FramesRun(t, n - 1));
      SendsMany(s', t, n - 1);
    }
  }

  // ---------------------------------------------------------------- a run of one join that plays

  /** Actor 0 is a join of `g` at `pc`, alone but for an audio thread that may have been started. */
  predicate JoinAt(s: State, g: Guild, pc: Pc) {
    && 0 in s.actors && s.actors[0] == Actor(JoinCmd, g, pc, NULL, 0)
    && s.owner == map l | l in Held(s.actors[0]) :: 0
  }

  lemma JoinEnters(s: State, g: Guild, sec: Section)
    requires JoinAt(s, g, Await(sec)) && RoleIn(sec).LifecycleRole?
    ensures Enabled(s, 0)
    ensures var s' := Exec(s, 0, 0);
      && JoinAt(s', g, In(sec)) && s'.infos == s.infos && s'.heap == s.heap
      && s'.nextAid == s.nextAid && s'.nextObj == s.nextObj && s'.actors.Keys == s.actors.Keys
  {
  }

  /** The steps of a join up to its start, when the guild has no object. */
  lemma JoinMoves(s: State, g: Guild, pc: Pc, pc': Pc)
    requires JoinAt(s, g, pc) && g !in s.infos
    requires (pc == In(JoinLook) && pc' == Await(Reset)) || (pc == In(Reset) && pc' == Connect)
          || (pc == Connect && pc' == Await(Emplace))
    ensures Enabled(s, 0)
    ensures var s' := Exec(s, 0, 0);
      && JoinAt(s', g, pc') && s'.infos == s.infos && s'.heap == s.heap
      && s'.nextAid == s.nextAid && s'.nextObj == s.nextObj && s'.actors.Keys == s.actors.Keys
  {
  }

  lemma JoinEmplaces(s: State, g: Guild)
    requires JoinAt(s, g, In(Emplace)) && g !in s.infos
    ensures Enabled(s, 0)
    ensures var s' := Exec(s, 0, 0);
      && JoinAt(s', g, Await(Start)) && HasInfo(s', g) && s'.heap[s'.infos[g]] == Info(false, None)
      && s'.nextAid == s.nextAid && s'.actors.Keys == s.actors.Keys
  {
    assert Exec(s, 0, 0) == EraseStep(s, 0, true);
  }

  lemma JoinStarts(s: State, g: Guild)
    requires JoinAt(s, g, In(Start)) && HasInfo(s, g) && s.heap[s.infos[g]].handle.None? && s.nextAid == 1
    ensures Enabled(s, 0)
    ensures var s' := Exec(s, 0, 0);
      && s'.owner == map[] && HasInfo(s', g) && !s'.heap[s'.infos[g]].stop
      && 1 in s'.actors && s'.actors[1] == Actor(Audio, g, Await(Look), NULL, 0)
  {
    assert Exec(s, 0, 0) == StartStep(s, 0);
  }

  lemma RunStep(s: State, a: Aid, c: nat, ls: seq<Label>)
    requires Enabled(s, a) && Legal(Exec(s, a, c), ls)
    ensures Legal(s, [Run(a, c)] + ls) && Feasible(s, [Run(a, c)] + ls) && Feasible(Exec(s, a, c), ls)
    ensures Final(s, [Run(a, c)] + ls) == Final(Exec(s, a, c), ls)
  {
    LegalIsFeasible(Exec(s, a, c), ls);
    assert ([Run(a, c)] + ls)[1..] == ls;
  }

  /** The new thread finds its object, the connection safe and a song to play. */
  function OpenRun(t: Aid): seq<Label> {
    [Run(t, 0), Run(t, 0), Run(t, 1), Run(t, 0), Run(t, 1)]
  }

  /** Thread 1 at `pc`, no mutex taken but its own, its object there with the flag down. */
  predicate ThreadAt(s: State, g: Guild, pc: Pc) {
    && 1 in s.actors && s.actors[1].kind.Audio? && s.actors[1].guild == g && s.actors[1].pc == pc
    && s.actors[1].sent == 0 && HasInfo(s, g) && !s.heap[s.infos[g]].stop
    && s.owner == map l | l in Held(s.actors[1]) :: 1
  }

  lemma ThreadMoves(s: State, g: Guild, pc: Pc, pc': Pc, c: nat)
    requires ThreadAt(s, g, pc)
    requires (pc == Await(Look) && pc' == In(Look)) || (pc == In(Look) && pc' == Probe)
          || (pc == Probe && pc' == Await(Pick) && c == 1) || (pc == Await(Pick) && pc' == In(Pick))
          || (pc == In(Pick) && pc' == FrameStop && c == 1)
    ensures Enabled(s, 1) && ThreadAt(Exec(s, 1, c), g, pc')
    ensures pc' == FrameStop ==> Exec(s, 1, c).actors[1].ptr == Exec(s, 1, c).infos[g]
  {
  }

  /** From the start of its thread a guild can hear any number of frames. */
  lemma ThreadPlays(s: State, g: Guild, n: nat)
    requires ThreadAt(s, g, Await(Look))
    ensures Legal(s, OpenRun(1) + FramesRun(1, n)) && Feasible(s, OpenRun(1) + FramesRun(1, n))
    ensures var s' := Final(s, OpenRun(1) + FramesRun(1, n));
      1 in s'.actors && s'.actors[1].kind.Audio? && s'.actors[1].guild == g && s'.actors[1].pc == FrameStop
      && s'.actors[1].sent == n && HasInfo(s', g) && !s'.heap[s'.infos[g]].stop
  {
    hide Exec, Enabled, Legal, Feasible, Final, Held;
    ThreadMoves(s, g, Await(Look), In(Look), 0);
    var s1 := Exec(s, 1, 0);
    ThreadMoves(s1, g, In(Look), Probe, 0);
    var s2 := Exec(s1, 1, 0);
    ThreadMoves(s2, g, Probe, Await(Pick), 1);
    var s3 := Exec(s2, 1, 1);
    ThreadMoves(s3, g, Await(Pick), In(Pick), 0);
    var s4 := Exec(s3, 1, 0);
    ThreadMoves(s4, g, In(Pick), FrameStop, 1);
    var s5 := Exec(s4, 1, 1);
    SendsMany(s5, 1, n);
    var l5 := FramesRun(1, n);
    RunStep(s4, 1, 1, l5);
    var l4 := [Run(1, 1)] + l5;
    RunStep(s3, 1, 0, l4);
    var l3 := [Run(1, 0)] + l4;
    RunStep(s2, 1, 1, l3);
    var l2 := [Run(1, 1)] + l3;
    RunStep(s1, 1, 0, l2);
    var l1 := [Run(1, 0)] + l2;
    RunStep(s, 1, 0, l1);
    assert [Run(1, 0)] + l1 == OpenRun(1) + FramesRun(1, n);
  }

  lemma SoloThen(s: State, n: nat, ls: seq<Label>)
    requires n > 0 && Enabled(s, 0) && Legal(Exec(s, 0, 0), Solo(n - 1) + ls)
    ensures Legal(s, Solo(n) + ls) && Feasible(s, Solo(n) + ls) && Feasible(Exec(s, 0, 0), Solo(n - 1) + ls)
    ensures Final(s, Solo(n) + ls) == Final(Exec(s, 0, 0), Solo(n - 1) + ls)
  {
    hide Exec, Enabled, Legal, Feasible, Final;
    RunStep(s, 0, 0, Solo(n - 1) + ls);
    assert Solo(n) == [Run(0, 0)] + Solo(n - 1);
    hide Solo;
    assert Solo(n) + ls == [Run(0, 0)] + (Solo(n - 1) + ls);
  }

  /** A join from its connection on, and then whatever can follow. */
  lemma JoinConnects(s: State, g: Guild, ls: seq<Label>) returns (s': State)
    requires JoinAt(s, g, Connect) && g !in s.infos && s.nextAid == 1
    ensures ThreadAt(s', g, Await(Look))
    ensures Legal(s', ls) ==>
      Legal(s, Solo(5) + ls) && Feasible(s, Solo(5) + ls) && Feasible(s', ls) && Final(s, Solo(5) + ls) == Final(s', ls)
  {
    hide Exec, Enabled, Legal, Feasible, Final, Solo;
    JoinMoves(s, g, Connect, Await(Emplace));
    var s1 := Exec(s, 0, 0);
    JoinEnters(s1, g, Emplace);
    var s2 := Exec(s1, 0, 0);
    JoinEmplaces(s2, g);
    var s3 := Exec(s2, 0, 0);
    JoinEnters(s3, g, Start);
    var s4 := Exec(s3, 0, 0);
    JoinStarts(s4, g);
    s' := Exec(s4, 0, 0);
    hide JoinAt, HasInfo;
    if Legal(s', ls) {
      SoloNone(ls);
      SoloThen(s4, 1, ls);
      SoloThen(s3, 2, ls);
      SoloThen(s2, 3, ls);
      SoloThen(s1, 4, ls);
      SoloThen(s, 5, ls);
    }
  }

  lemma SoloNone(ls: seq<Label>)
    ensures Solo(0) + ls == ls
  {
  }

  /** The same from its first step. */
  lemma JoinGoes(s: State, g: Guild, ls: seq<Label>) returns (s': State)
    requires JoinAt(s, g, Await(JoinLook)) && g !in s.infos && s.nextAid == 1
    ensures ThreadAt(s', g, Await(Look))
    ensures Legal(s', ls) ==>
      Legal(s, Solo(9) + ls) && Feasible(s, Solo(9) + ls) && Feasible(s', ls) && Final(s, Solo(9) + ls) == Final(s', ls)
  {
    hide Exec, Enabled, Legal, Feasible, Final, Solo;
    JoinEnters(s, g, JoinLook);
    var s1 := Exec(s, 0, 0);
    JoinMoves(s1, g, In(JoinLook), Await(Reset));
    var s2 := Exec(s1, 0, 0);
    JoinEnters(s2, g, Reset);
    var s3 := Exec(s2, 0, 0);
    JoinMoves(s3, g, In(Reset), Connect);
    s' := JoinConnects(Exec(s3, 0, 0), g, ls);
    if Legal(s', ls) {
      SoloThen(s3, 6, ls);
      SoloThen(s2, 7, ls);
      SoloThen(s1, 8, ls);
      SoloThen(s, 9, ls);
    }
  }

  lemma InvRuns(s: State, g: Guild, t: Aid)
    requires Inv(s) && LiveAudio(s, t) && s.actors[t].guild == g && HasInfo(s, g) && !s.heap[s.infos[g]].stop
    ensures Running(s, t, g)
  {
    assert ActorOk(s, t) && ThreadOk(s, t);
    forall u | LiveAudio(s, u) && s.actors[u].guild == g ensures u == t {
      OneThread(s, u, t);
    }
  }

  /** The run of a single join: it ends with an audio thread of the guild that has sent `n` frames. */
  lemma JoinPlays(g: Guild, n: nat, run: seq<Label>)
    requires run == [Spawn(JoinCmd, g)] + (Solo(9) + (OpenRun(1) + FramesRun(1, n)))
    ensures Legal(INIT, run) && Feasible(INIT, run)
    ensures var s := Final(INIT, run); LiveAudio(s, 1) && Running(s, 1, g) && s.actors[1].sent == n
  {
    var ls := OpenRun(1) + FramesRun(1, n);
    var s := Apply(INIT, run[0]);
    assert NoOverlap(INIT, run[0]) && run[1..] == Solo(9) + ls;
    assert JoinAt(s, g, Await(JoinLook));
    var s1 := JoinGoes(s, g, ls);
    ThreadPlays(s1, g, n);
    hide Legal, Apply, Solo, FramesRun, OpenRun;
    RunKeepsInv(INIT, run);
    InvRuns(Final(INIT, run), g, 1);
  }

  // ---------------------------------------------------------------- silence after a leave

  /** The program points of a leave: it never connects, replaces or starts. */
  predicate LeavePc(pc: Pc) {
    match pc
    case Await(sec) => sec.Mark? || sec.Stop? || sec.Erase? || sec.Reset? || sec.Reply?
    case In(sec) => sec.Mark? || sec.Stop? || sec.Erase? || sec.Reset? || sec.Reply?
    case Joining(_) | Disconnect | Exited => true
    case _ => false
  }

  ghost predicate LeavesOk(s: State) {
    forall a :: a in s.actors && s.actors[a].kind.LeaveCmd? ==> LeavePc(s.actors[a].pc)
  }

  lemma LeaveMoves(s: State, a: Aid, c: nat)
    requires Inv(s) && Enabled(s, a) && s.actors[a].kind.LeaveCmd? && LeavePc(s.actors[a].pc)
    ensures a in Exec(s, a, c).actors && LeavePc(Exec(s, a, c).actors[a].pc)
  {
    StepOf(s, a, c);
    hide Inv, Exec, HasInfo;
  }

  lemma StepKeepsLeaves(s: State, l: Label)
    requires Inv(s) && Possible(s, l) && LeavesOk(s)
    ensures LeavesOk(Apply(s, l))
  {
    if l.Run? {
      var s' := Exec(s, l.a, l.c);
      forall b | b in s'.actors && s'.actors[b].kind.LeaveCmd? ensures LeavePc(s'.actors[b].pc) {
        if b == l.a {
          StepOf(s, b, l.c);
          LeaveMoves(s, b, l.c);
        } else {
          NewIsAudio(s, l.a, l.c, b);
        }
      }
    }
  }

  /** No join of the guild is under way, and it has no live thread. */
  ghost predicate Silent(s: State, g: Guild) {
    && (forall a :: Active(s, a) && s.actors[a].kind.JoinCmd? ==> s.actors[a].guild != g)
    && (forall t :: LiveAudio(s, t) ==> s.actors[t].guild != g)
  }

  lemma StepKeepsSilent(s: State, l: Label, g: Guild)
    requires Inv(s) && LeavesOk(s) && Possible(s, l) && Silent(s, g) && !(l.Spawn? && l.kind.JoinCmd? && l.g == g)
    ensures Silent(Apply(s, l), g)
  {
    var s' := Apply(s, l);
    forall b | Active(s', b) && (s'.actors[b].kind.JoinCmd? || s'.actors[b].kind.Audio?)
      ensures s'.actors[b].guild != g
    {
      if l.Run? && l.a == b {
        StepOf(s, b, l.c);
      } else if l.Run? {
        NewIsAudio(s, l.a, l.c, b);
        assert ActorOk(s, l.a);
      }
      hide Inv, Exec;
    }
  }

  /** A guild without a thread stays without one, whatever happens, until a join of it begins: so it is
      after the StopAudioThread of a leave. */
  lemma {:induction false} StaysSilent(s: State, ls: seq<Label>, g: Guild)
    requires Inv(s) && LeavesOk(s) && Legal(s, ls) && Silent(s, g)
    requires forall i :: 0 <= i < |ls| ==> !(ls[i].Spawn? && ls[i].kind.JoinCmd? && ls[i].g == g)
    ensures Feasible(s, ls) && Silent(Final(s, ls), g)
    decreases |ls|
  {
    hide Inv, NoOverlap, Silent, LeavesOk, Apply, Possible;
    if ls != [] {
      StepKeepsInv(s, ls[0]);
      StepKeepsLeaves(s, ls[0]);
      StepKeepsSilent(s, ls[0], g);
      StaysSilent(Apply(s, ls[0]), ls[1..], g);
    }
  }

  /** Once a leave is past its StopAudioThread, its guild is silent. */
  lemma LeaveSilences(s: State, a: Aid)
    requires Inv(s) && Active(s, a) && s.actors[a].kind.LeaveCmd? && AfterStop(s.actors[a].pc)
    ensures Silent(s, s.actors[a].guild)
  {
    assert ActorOk(s, a);
  }

  // ---------------------------------------------------------------- no join or leave skips a step

  /** Where a join or leave can come from. */
  lemma LifecycleOrder(s: State, a: Aid, c: nat)
    requires Inv(s) && Enabled(s, a) && Lifecycle(s.actors[a])
    requires s.actors[a].kind.LeaveCmd? ==> LeavePc(s.actors[a].pc)
    ensures a in Exec(s, a, c).actors
    ensures var me, to := s.actors[a], Exec(s, a, c).actors[a].pc;
      && (to.Exited? ==> me.pc == In(Reply))
      && (to == Await(Reply) ==>
            if me.kind.JoinCmd? then me.pc == In(Start) || (me.pc == Connect && c != 0) else me.pc == In(Reset))
      && (to == Await(Start) ==> me.pc == In(Emplace))
      && (to == Await(Emplace) ==> me.pc == Connect)
      && (to == Connect ==> me.pc == In(Reset))
      && (to == Await(Reset) ==> me.pc == In(Erase) || (me.pc == In(JoinLook) && me.guild !in s.infos))
      && (to == Await(Erase) ==> me.pc == Disconnect)
      && (to == Disconnect ==> me.pc == In(Stop) || me.pc.Joining?)
  {
    assert ActorOk(s, a);
    StepOf(s, a, c);
    hide Inv, ActorOk, Exec, Enabled;
  }

  /** Whoever is about to start an audio thread has an object to start it for. */
  ghost predicate StartsOk(s: State) {
    forall a :: a in s.actors && (s.actors[a].pc == Await(Start) || s.actors[a].pc == In(Start)) ==>
      HasInfo(s, s.actors[a].guild)
  }

  lemma StepKeepsStarts(s: State, l: Label)
    requires Inv(s) && Possible(s, l) && StartsOk(s)
    ensures StartsOk(Apply(s, l))
  {
    if l.Run? {
      var s' := Exec(s, l.a, l.c);
      forall b | b in s'.actors && (s'.actors[b].pc == Await(Start) || s'.actors[b].pc == In(Start))
        ensures HasInfo(s', s'.actors[b].guild)
      {
        if b == l.a {
          OwnStart(s, b, l.c);
        } else {
          OtherStart(s, l.a, l.c, b);
        }
      }
    }
  }

  lemma OwnStart(s: State, a: Aid, c: nat)
    requires Inv(s) && Enabled(s, a) && StartsOk(s) && a in Exec(s, a, c).actors
    requires var pc := Exec(s, a, c).actors[a].pc; pc == Await(Start) || pc == In(Start)
    ensures HasInfo(Exec(s, a, c), Exec(s, a, c).actors[a].guild)
  {
    ComesToStart(s, a, c);
    if s.actors[a].pc == In(Emplace) {
      EraseRemoves(s, a, c);
    } else {
      StepKeepsInfo(s, a, c, s.actors[a].guild);
    }
    hide Inv, Exec;
  }

  lemma ComesToStart(s: State, a: Aid, c: nat)
    requires Inv(s) && Enabled(s, a)
    requires a in Exec(s, a, c).actors
    requires var pc := Exec(s, a, c).actors[a].pc; pc == Await(Start) || pc == In(Start)
    ensures s.actors[a].pc == In(Emplace) || s.actors[a].pc == Await(Start)
    ensures Exec(s, a, c).actors[a].guild == s.actors[a].guild
  {
    StepOf(s, a, c);
    hide Inv, Exec, Enabled, SectionNext, LocalNext;
    var me := s.actors[a];
    if me.pc.In? {
      SectionNotStart(s, me, me.pc.sec, c);
    } else {
      LocalNotStart(s, me, c);
    }
  }

  lemma SectionNotStart(s: State, me: Actor, sec: Section, c: nat)
    ensures SectionNext(s, me, sec, c).pc != Await(Start) && SectionNext(s, me, sec, c).pc != In(Start)
  {
    hide HasInfo;
  }

  lemma LocalNotStart(s: State, me: Actor, c: nat)
    requires !me.pc.In?
    ensures LocalNext(s, me, c).pc != Await(Start) && (LocalNext(s, me, c).pc == In(Start) ==> me.pc == Await(Start))
  {
    hide StopSeen;
  }

  lemma OtherStart(s: State, a: Aid, c: nat, b: Aid)
    requires Inv(s) && Enabled(s, a) && StartsOk(s) && a != b && b in Exec(s, a, c).actors
    requires var pc := Exec(s, a, c).actors[b].pc; pc == Await(Start) || pc == In(Start)
    ensures HasInfo(Exec(s, a, c), Exec(s, a, c).actors[b].guild)
  {
    NewIsAudio(s, a, c, b);
    assert ActorOk(s, b) && Lifecycle(s.actors[b]) && Active(s, a) && Active(s, b);
    StepKeepsInfo(s, a, c, s.actors[b].guild);
    hide Inv, Exec;
  }

  lemma {:induction false} RunKeepsStarts(s: State, ls: seq<Label>)
    requires Inv(s) && Legal(s, ls) && StartsOk(s) && LeavesOk(s)
    ensures Feasible(s, ls) && Inv(Final(s, ls)) && StartsOk(Final(s, ls)) && LeavesOk(Final(s, ls))
    decreases |ls|
  {
    hide Inv, NoOverlap, StartsOk, LeavesOk, Apply, Possible;
    if ls != [] {
      StepKeepsInv(s, ls[0]);
      StepKeepsStarts(s, ls[0]);
      StepKeepsLeaves(s, ls[0]);
      RunKeepsStarts(Apply(s, ls[0]), ls[1..]);
    }
  }

  /** Over every run: a join that comes to its StartAudioThread starts the one audio thread of its guild. */
  lemma JoinsStart(ls: seq<Label>, a: Aid, c: nat)
    requires Legal(INIT, ls)
    requires Feasible(INIT, ls) && a in Final(INIT, ls).actors && Final(INIT, ls).actors[a].pc == In(Start)
    ensures var s := Final(INIT, ls);
      Enabled(s, a) && s.nextAid !in s.actors && Running(Exec(s, a, c), s.nextAid, s.actors[a].guild)
  {
    RunKeepsStarts(INIT, ls);
    hide Legal, Inv;
    StartLaunches(Final(INIT, ls), a, c);
  }

  /** Over every run: nothing of a leave's guild is left to play once it is past its StopAudioThread. */
  lemma LeavesSilence(ls: seq<Label>, a: Aid, more: seq<Label>)
    requires Legal(INIT, ls) && Feasible(INIT, ls) && Legal(Final(INIT, ls), more)
    requires var s := Final(INIT, ls);
      Active(s, a) && s.actors[a].kind.LeaveCmd? && AfterStop(s.actors[a].pc)
    requires var g := Final(INIT, ls).actors[a].guild;
      forall i :: 0 <= i < |more| ==> !(more[i].Spawn? && more[i].kind.JoinCmd? && more[i].g == g)
    ensures var s := Final(INIT, ls); Feasible(s, more) && Silent(Final(s, more), s.actors[a].guild)
  {
    RunKeepsStarts(INIT, ls);
    var s := Final(INIT, ls);
    LeaveSilences(s, a);
    StaysSilent(s, more, s.actors[a].guild);
  }

  // ---------------------------------------------------------------- every command ends

  /** The commands that go from section to section; the timer's pass over the guilds is a loop. */
  predicate Finite(me: Actor) {
    !me.kind.Audio? && !me.kind.TimerCmd?
    && match me.pc
       case Await(sec) => SectionRank(sec) > 0
       case In(sec) => SectionRank(sec) > 0
       case _ => true
  }

  /** How far a section is from the end of its command; 0 in a thread or a timer pass. */
  function SectionRank(sec: Section): nat {
    match sec
    case Reply | FlagReply | ShowReply | RemoveReply | VoiceEvent => 1
    case Start | ShowList | RemoveList | Touch | Flag => 2
    case Emplace | Show | Remove | NestedStart => 3
    case Omakase => 4
    case Reset | EnqueueList => 5
    case Erase | Enqueue => 6
    case Stop => 8
    case Mark | JoinLook => 9
    case _ => 0
  }

  function CommandRank(pc: Pc): nat {
    match pc
    case Await(sec) => 4 * SectionRank(sec) + 2
    case In(sec) => 4 * SectionRank(sec) + 1
    case DtorJoin(_, emplacing) => if emplacing then 12 else 24
    case Connect => 18
    case Disconnect => 28
    case Joining(_) => 30
    case _ => 0
  }

  lemma CommandNextEnds(s: State, me: Actor, sec: Section, c: nat)
    requires me.pc == In(sec) && Finite(me) && !OnTable(sec)
    requires Fits(me.kind, RoleIn(sec))
    ensures Finite(SectionNext(s, me, sec, c)) && CommandRank(SectionNext(s, me, sec, c).pc) < CommandRank(me.pc)
  {
    hide HasInfo;
  }

  lemma TableEnds(me: Actor, me': Actor)
    requires me.pc.In? && OnTable(me.pc.sec) && Finite(me) && me'.kind == me.kind && TablePc(me.pc.sec, me'.pc)
    ensures Finite(me') && CommandRank(me'.pc) < CommandRank(me.pc)
  {
  }

  /** A step outside every critical section. */
  lemma LocalEnds(s: State, me: Actor, c: nat)
    requires !me.pc.In? && !me.pc.Exited? && Finite(me) && Fits(me.kind, RoleAt(me.pc))
    ensures Finite(LocalNext(s, me, c)) && CommandRank(LocalNext(s, me, c).pc) < CommandRank(me.pc)
  {
    hide StopSeen;
  }

  /** Each step of a command brings it nearer to its end. */
  lemma CommandProgress(s: State, a: Aid, c: nat)
    requires Inv(s) && Enabled(s, a) && Finite(s.actors[a])
    ensures a in Exec(s, a, c).actors && Finite(Exec(s, a, c).actors[a])
    ensures CommandRank(Exec(s, a, c).actors[a].pc) < CommandRank(s.actors[a].pc)
  {
    var me := s.actors[a];
    assert ActorOk(s, a) && Fits(me.kind, RoleAt(me.pc));
    StepOf(s, a, c);
    hide Inv, ActorOk, Exec, SectionNext, LocalNext, Finite, CommandRank, TablePc;
    if me.pc.In? && OnTable(me.pc.sec) {
      TableEnds(me, Exec(s, a, c).actors[a]);
    } else if me.pc.In? {
      CommandNextEnds(s, me, me.pc.sec, c);
    } else if !me.pc.In? {
      LocalEnds(s, me, c);
    }
  }

  /** A command takes at most 38 steps of its own, over every run. */
  lemma {:induction false} CommandEnds(s: State, ls: seq<Label>, a: Aid)
    requires Inv(s) && Legal(s, ls) && a in s.actors && Finite(s.actors[a])
    ensures Feasible(s, ls) && a in Final(s, ls).actors && Finite(Final(s, ls).actors[a])
    ensures OwnSteps(ls, a) + CommandRank(Final(s, ls).actors[a].pc) <= CommandRank(s.actors[a].pc) <= 38
    decreases |ls|
  {
    if ls != [] {
      var s' := Apply(s, ls[0]);
      StepKeepsInv(s, ls[0]);
      assert a < s.nextAid;
      hide Inv, NoOverlap, Finite, CommandRank, Exec;
      if ls[0].Run? && ls[0].a == a {
        CommandProgress(s, a, ls[0].c);
      } else if ls[0].Run? {
        StepMovesOne(s, ls[0].a, ls[0].c, a);
      }
      CommandEnds(s', ls[1..], a);
    }
    RankBound(s.actors[a].pc);
  }

  lemma RankBound(pc: Pc)
    ensures CommandRank(pc) <= 38
  {
  }
}
