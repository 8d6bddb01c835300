/** How an audio thread answers a stop request: the flag stays up, at most one more frame is sent,
    and a bounded number of the thread's own steps remain. */
module AudioStop {
  import opened Options
  import opened AudioLifecycle
  import opened AudioSafety
  import opened AudioTheorems

  ghost predicate Stopping(s: State, t: Aid) {
    && LiveAudio(s, t) && HasInfo(s, s.actors[t].guild)
    && s.heap[s.infos[s.actors[t].guild]].stop
  }

  /** Steps left once the flag is up. */
  function Rank(pc: Pc): nat {
    match pc
    case In(sec) =>
      (match sec case Look | Pick => 1 case PickList => 8 case Skip => 7 case Clear => 3 case _ => 0)
    case Await(sec) =>
      (match sec case Look | Pick => 2 case PickList => 9 case Skip => 8 case Clear => 4 case _ => 0)
    case Probe | Silence => 3
    case RepeatCheck => 5
    case Drain => 6
    case FrameStop => 7
    case WaitCheck | Paced => 8
    case TrySend | FrameSkip => 9
    case _ => 0
  }

  /** Whether the thread is past its last look at the flag before a send. */
  function Committed(pc: Pc): nat {
    if pc.TrySend? then 1 else 0
  }

  lemma StopProgress(s: State, t: Aid, c: nat)
    requires Inv(s) && Stopping(s, t) && Enabled(s, t)
    ensures t in Exec(s, t, c).actors && Exec(s, t, c).actors[t].kind.Audio?
    ensures Nearer(s.actors[t], Exec(s, t, c).actors[t])
  {
    hide Exec, Become, AudioNext, LocalNext, Inv, Stopping, Nearer, Enabled;
    ThreadStopping(s, t);
    AudioExec(s, t, c);
    var me := s.actors[t];
    if me.pc.In? {
      SectionProgress(s, me, me.pc.sec, c);
    } else {
      LocalProgress(s, me, c);
    }
  }

  /** What an audio thread's step comes to. */
  lemma AudioExec(s: State, t: Aid, c: nat)
    requires Enabled(s, t) && s.actors[t].kind.Audio? && RoleAt(s.actors[t].pc).AudioRole?
    ensures var me, s' := s.actors[t], Exec(s, t, c);
      && s'.infos == s.infos && s'.heap == s.heap && t in s'.actors && s'.actors[t].kind.Audio?
      && s'.actors[t] == (if me.pc.In? then AudioNext(s, me, me.pc.sec, c) else LocalNext(s, me, c))
      && s'.actors[t].guild == me.guild
  {
    hide Held, Reown, HasInfo, StopSeen, Enabled;
  }

  lemma ThreadStopping(s: State, t: Aid)
    requires Inv(s) && Stopping(s, t)
    ensures t in s.actors && s.actors[t].kind.Audio? && RoleAt(s.actors[t].pc).AudioRole?
    ensures HasInfo(s, s.actors[t].guild) && s.heap[s.infos[s.actors[t].guild]].stop
    ensures UsesPtr(s.actors[t].pc) ==> StopSeen(s, s.actors[t].ptr)
  {
    assert ActorOk(s, t) && ThreadOk(s, t);
  }

  /** One step towards the exit. */
  predicate Nearer(me: Actor, me': Actor) {
    && Rank(me'.pc) < Rank(me.pc) && (Rank(me'.pc) == 0 <==> me'.pc.Exited?)
    && me'.sent + Committed(me'.pc) <= me.sent + Committed(me.pc)
  }

  lemma SectionProgress(s: State, me: Actor, sec: Section, c: nat)
    requires me.pc == In(sec) && RoleIn(sec).AudioRole? && HasInfo(s, me.guild) && s.heap[s.infos[me.guild]].stop
    ensures Nearer(me, AudioNext(s, me, sec, c))
  {
  }

  lemma LocalProgress(s: State, me: Actor, c: nat)
    requires RoleAt(me.pc).AudioRole? && !me.pc.In?
    requires UsesPtr(me.pc) ==> StopSeen(s, me.ptr)
    ensures Nearer(me, LocalNext(s, me, c))
  {
  }

  /** The entry and flags of guild `g` change only in the life-cycle sections of its own join or leave. */
  lemma SectionKeepsStop(s: State, a: Aid, sec: Section, c: nat, g: Guild)
    requires a in s.actors && TableOk(s) && HasInfo(s, g) && s.heap[s.infos[g]].stop
    requires (sec.Start? || sec.Erase? || sec.Emplace?) ==> s.actors[a].guild != g
    ensures StopSurvives(s, SectionStep(s, a, sec, c), g)
  {
    if sec.Erase? || sec.Emplace? {
      EraseKeepsStop(s, a, sec.Emplace?, g);
    } else if sec.Start? {
      StartKeepsStop(s, a, g);
    } else if sec.Mark? || sec.Stop? || sec.Enqueue? {
      TableStepsKeepStop(s, a, g);
    }
    hide SectionNext, MarkStep, StopStep, EraseStep, StartStep, EnqueueStep, Held, Reown, TableOk;
  }

  /** Guild `g` keeps its object, and the object its raised flag. */
  predicate StopSurvives(s: State, s': State, g: Guild) {
    g in s.infos && HasInfo(s', g) && s'.infos[g] == s.infos[g] && s'.heap[s.infos[g]].stop
  }

  lemma TableStepsKeepStop(s: State, a: Aid, g: Guild)
    requires a in s.actors && TableOk(s) && HasInfo(s, g) && s.heap[s.infos[g]].stop
    ensures StopSurvives(s, MarkStep(s, a), g) && StopSurvives(s, StopStep(s, a), g)
    ensures StopSurvives(s, EnqueueStep(s, a), g)
  {
    assert s.infos[g] != s.nextObj;
    hide Held, Reown;
  }

  lemma StartKeepsStop(s: State, a: Aid, g: Guild)
    requires a in s.actors && TableOk(s) && HasInfo(s, g) && s.heap[s.infos[g]].stop && s.actors[a].guild != g
    ensures StopSurvives(s, StartStep(s, a), g)
  {
    if s.actors[a].guild in s.infos {
      assert s.infos[s.actors[a].guild] != s.infos[g];
    }
    hide Held, Reown;
  }

  lemma EraseKeepsStop(s: State, a: Aid, emplacing: bool, g: Guild)
    requires a in s.actors && TableOk(s) && HasInfo(s, g) && s.heap[s.infos[g]].stop && s.actors[a].guild != g
    ensures StopSurvives(s, EraseStep(s, a, emplacing), g)
  {
    if s.actors[a].guild in s.infos {
      assert s.infos[s.actors[a].guild] != s.infos[g];
    }
    assert s.infos[g] != s.nextObj;
  }

  /** Nor do steps outside critical sections touch it, or those of anyone else. */
  lemma StepKeepsStop(s: State, a: Aid, c: nat, g: Guild)
    requires Inv(s) && Enabled(s, a) && HasInfo(s, g) && s.heap[s.infos[g]].stop
    requires Lifecycle(s.actors[a]) && AfterStop(s.actors[a].pc) ==> s.actors[a].guild != g
    ensures StopSurvives(s, Exec(s, a, c), g)
  {
    var pc := s.actors[a].pc;
    assert ActorOk(s, a) && !pc.DtorJoin?;
    hide ActorOk, ActorsOk, LocksOk, Exclusive, TableOk;
    if pc.In? {
      SectionKeepsStop(s, a, pc.sec, c, g);
    }
    hide SectionStep, LocalNext;
  }

  /** Once raised, the flag stays up until the thread has exited. */
  lemma StopStays(s: State, l: Label, t: Aid)
    requires Inv(s) && Possible(s, l) && NoOverlap(s, l) && Stopping(s, t)
    ensures t in Apply(s, l).actors
    ensures Stopping(Apply(s, l), t) || (l.Run? && l.a == t && Apply(s, l).actors[t].pc.Exited?)
  {
    ThreadStopping(s, t);
    assert t < s.nextAid;
    hide Exec, NoOverlap;
    if l.Run? && l.a == t {
      AudioExec(s, t, l.c);
    } else if l.Run? {
      StepMovesOne(s, l.a, l.c, t);
      OthersNotAfterStop(s, l.a, t);
      hide Inv;
      StepKeepsStop(s, l.a, l.c, s.actors[t].guild);
    }
  }

  /** While a thread lives, no join or leave of its guild is past its StopAudioThread. */
  lemma OthersNotAfterStop(s: State, a: Aid, t: Aid)
    requires Inv(s) && a in s.actors && LiveAudio(s, t)
    ensures Lifecycle(s.actors[a]) && AfterStop(s.actors[a].pc) ==> s.actors[a].guild != s.actors[t].guild
  {
    assert ActorOk(s, a);
  }

  function OwnSteps(ls: seq<Label>, t: Aid): nat {
    if ls == [] then 0 else (if ls[0].Run? && ls[0].a == t then 1 else 0) + OwnSteps(ls[1..], t)
  }

  /** An audio thread that has been told to stop, or has exited since. */
  ghost predicate Told(s: State, t: Aid) {
    t in s.actors && s.actors[t].kind.Audio? && (Stopping(s, t) || s.actors[t].pc.Exited?)
  }

  lemma ToldStep(s: State, l: Label, t: Aid)
    requires Inv(s) && Possible(s, l) && NoOverlap(s, l) && Told(s, t)
    ensures var s' := Apply(s, l);
            && Told(s', t)
            && (if l.Run? && l.a == t then Nearer(s.actors[t], s'.actors[t]) else s'.actors[t] == s.actors[t])
  {
    assert t < s.nextAid;
    hide Inv, NoOverlap, Rank, Exec;
    if l.Run? && l.a != t {
      StepMovesOne(s, l.a, l.c, t);
    }
    if !s.actors[t].pc.Exited? {
      StopStays(s, l, t);
      if l.Run? && l.a == t {
        StopProgress(s, t, l.c);
      }
    }
  }

  /** Over any continuation of a run: at most nine steps of its own and one frame remain to the
      thread, and the flag is up until it has exited. */
  lemma {:induction false} StopResponse(s: State, ls: seq<Label>, t: Aid)
    requires Inv(s) && Legal(s, ls) && Told(s, t)
    ensures Feasible(s, ls) && Told(Final(s, ls), t)
    ensures OwnSteps(ls, t) + Rank(Final(s, ls).actors[t].pc) <= Rank(s.actors[t].pc) <= 9
    ensures Final(s, ls).actors[t].sent <= s.actors[t].sent + Committed(s.actors[t].pc) <= s.actors[t].sent + 1
    ensures OwnSteps(ls, t) == Rank(s.actors[t].pc) ==> Final(s, ls).actors[t].pc.Exited?
    decreases |ls|
  {
    hide Exec, Inv, NoOverlap, Rank, Told;
    TellsRank(s, t);
    if ls != [] {
      StepKeepsInv(s, ls[0]);
      ToldStep(s, ls[0], t);
      TellsRank(Apply(s, ls[0]), t);
      StopResponse(Apply(s, ls[0]), ls[1..], t);
    }
  }

  lemma TellsRank(s: State, t: Aid)
    requires Inv(s) && Told(s, t)
    ensures t in s.actors && Rank(s.actors[t].pc) <= 9 && (Rank(s.actors[t].pc) == 0 <==> s.actors[t].pc.Exited?)
  {
    assert ActorOk(s, t);
  }
}
