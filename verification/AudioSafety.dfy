/** The inductive invariant of the guild table, and what it gives: one audio thread a guild, no
    dangling GuildInfo pointer, and no erase or disconnect under a running thread. */
module AudioSafety {
  import opened Options
  import opened AudioLifecycle

  // ---------------------------------------------------------------- the invariant

  datatype Role = AudioRole | LifecycleRole | ReplyRole | RemoveRole | CommandRole | NoRole | DoneRole

  /** Whose program point this is. */
  function RoleAt(pc: Pc): Role {
    match pc
    case Await(sec) => RoleIn(sec)
    case In(sec) => RoleIn(sec)
    case Joining(_) | Disconnect | Connect => LifecycleRole
    case DtorJoin(_, _) => NoRole
    case Exited => DoneRole
    case _ => AudioRole
  }

  function RoleIn(sec: Section): Role {
    match sec
    case Look | Pick | PickList | Skip | Clear => AudioRole
    case JoinLook | Mark | Stop | Erase | Reset | Emplace | Start => LifecycleRole
    case Reply => ReplyRole
    case Remove | RemoveList | RemoveReply => RemoveRole
    case _ => CommandRole
  }

  predicate Fits(k: Kind, r: Role) {
    match r
    case AudioRole => k.Audio?
    case LifecycleRole => k.JoinCmd? || k.LeaveCmd?
    case ReplyRole => k.JoinCmd? || k.LeaveCmd? || k.AckCmd?
    case RemoveRole => k.RemoveCmd?
    case CommandRole => !k.Audio? && !k.JoinCmd? && !k.LeaveCmd?
    case NoRole => false
    case DoneRole => true
  }

  /** Program points of a join or leave between the end of StopAudioThread and StartAudioThread. */
  predicate AfterStop(pc: Pc) {
    match pc
    case Disconnect | Connect => true
    case Await(sec) => sec.Erase? || sec.Reset? || sec.Emplace? || sec.Start?
    case In(sec) => sec.Erase? || sec.Reset? || sec.Emplace? || sec.Start?
    case _ => false
  }

  predicate KeepsRemovePtr(pc: Pc) {
    match pc
    case Await(sec) => sec.RemoveList? || sec.RemoveReply?
    case In(sec) => sec.RemoveList? || sec.RemoveReply?
    case _ => false
  }

  predicate LiveAudio(s: State, t: Aid) {
    Active(s, t) && s.actors[t].kind.Audio?
  }

  predicate Joiner(s: State, b: Aid, t: Aid) {
    b in s.actors && t in s.actors && s.actors[b].pc == Joining(t) && s.actors[b].guild == s.actors[t].guild
  }

  ghost predicate NoThread(s: State, g: Guild) {
    && (forall t :: LiveAudio(s, t) ==> s.actors[t].guild != g)
    && (HasInfo(s, g) ==> s.heap[s.infos[g]].handle.None?)
  }

  /** A live audio thread points at the object now in the table, which holds its handle or whose
      handle a StopAudioThread in progress has taken. */
  ghost predicate ThreadOk(s: State, t: Aid)
    requires t in s.actors
  {
    var me := s.actors[t];
    && HasInfo(s, me.guild)
    && (me.ptr == s.infos[me.guild] || (me.ptr == NULL && (me.pc == Await(Look) || me.pc == In(Look))))
    && (s.heap[s.infos[me.guild]].handle == Some(t)
        || (s.heap[s.infos[me.guild]].stop && exists b :: Joiner(s, b, t)))
  }

  predicate JoinOk(s: State, b: Aid, t: Aid)
    requires b in s.actors
  {
    var me := s.actors[b];
    && t in s.actors && s.actors[t].kind.Audio? && s.actors[t].guild == me.guild
    && HasInfo(s, me.guild) && s.heap[s.infos[me.guild]] == Info(true, None)
  }

  ghost predicate ActorOk(s: State, a: Aid)
    requires a in s.actors
  {
    var me := s.actors[a];
    && Fits(me.kind, RoleAt(me.pc))
    && (LiveAudio(s, a) ==> ThreadOk(s, a))
    && (me.pc.Joining? ==> JoinOk(s, a, me.pc.t))
    && (Lifecycle(me) && AfterStop(me.pc) ==> NoThread(s, me.guild))
    && (KeepsRemovePtr(me.pc) ==> HasInfo(s, me.guild) && s.infos[me.guild] == me.ptr)
  }

  predicate HandleOk(s: State, o: ObjId, t: Aid) {
    && t in s.actors && s.actors[t].kind.Audio?
    && s.actors[t].guild in s.infos && s.infos[s.actors[t].guild] == o
  }

  ghost predicate TableOk(s: State) {
    && (forall g :: g in s.infos ==> s.infos[g] in s.heap && s.infos[g] != NULL)
    && (forall g, h :: g in s.infos && h in s.infos && s.infos[g] == s.infos[h] ==> g == h)
    && (forall o :: o in s.heap ==>
          o < s.nextObj && (s.heap[o].handle.Some? ==> HandleOk(s, o, s.heap[o].handle.value)))
    && s.nextObj != NULL
    && (forall a :: a in s.actors ==> a < s.nextAid)
  }

  ghost predicate Exclusive(s: State) {
    forall a, b | Active(s, a) && Active(s, b) && a != b && Lifecycle(s.actors[a])
      && (Lifecycle(s.actors[b]) || s.actors[b].kind.RemoveCmd?) :: s.actors[a].guild != s.actors[b].guild
  }

  /** A mutex is owned by exactly the actor whose program point holds it. */
  ghost predicate LocksOk(s: State) {
    && (forall l :: l in s.owner ==> s.owner[l] in s.actors && l in Held(s.actors[s.owner[l]]))
    && (forall a, l :: a in s.actors && l in Held(s.actors[a]) ==> l in s.owner && s.owner[l] == a)
  }

  ghost predicate ActorsOk(s: State) {
    forall a :: a in s.actors ==> ActorOk(s, a)
  }

  ghost predicate Inv(s: State) {
    TableOk(s) && ActorsOk(s) && Exclusive(s) && LocksOk(s)
  }

  // ---------------------------------------------------------------- locks

  lemma BecomeKeepsLocks(s: State, a: Aid, me: Actor)
    requires LocksOk(s) && a in s.actors
    requires forall l :: l in Held(me) ==> l in Held(s.actors[a]) || l !in s.owner
    ensures LocksOk(Become(s, a, me))
  {
  }

  /** Leaving a section and moving outside one never adds a lock. */
  lemma NextDropsLocks(s: State, me: Actor, sec: Section, c: nat)
    requires me.pc == In(sec) && !OnTable(sec)
    ensures Held(SectionNext(s, me, sec, c)) <= Held(me)
  {
    hide HasInfo;
  }

  lemma LocalAddsOne(s: State, a: Aid, c: nat)
    requires Enabled(s, a) && !s.actors[a].pc.In? && !s.actors[a].pc.DtorJoin?
    ensures forall l :: l in Held(LocalNext(s, s.actors[a], c)) ==> l in Held(s.actors[a]) || l !in s.owner
  {
  }

  /** A change of the table followed by a change of one actor that adds no lock. */
  lemma TableStepKeepsLocks(s: State, s1: State, a: Aid, me: Actor)
    requires LocksOk(s) && a in s.actors && s1.actors == s.actors && s1.owner == s.owner
    requires Held(me) <= Held(s.actors[a])
    ensures LocksOk(Become(s1, a, me))
  {
    assert LocksOk(s1);
    BecomeKeepsLocks(s1, a, me);
  }

  lemma EraseStepKeepsLocks(s: State, a: Aid, emplacing: bool)
    requires LocksOk(s) && a in s.actors && GuildInfos in Held(s.actors[a])
    ensures LocksOk(EraseStep(s, a, emplacing)) && LocksOk(AfterErase(s, a, emplacing))
  {
    var me := s.actors[a];
    var g := me.guild;
    TableStepKeepsLocks(s, EraseInfo(s, g), a, me.(pc := Await(Reset)));
    TableStepKeepsLocks(s, EmplaceInfo(EraseInfo(s, g), g), a, me.(pc := Await(Start)));
    if HasInfo(s, g) && s.heap[s.infos[g]].handle.Some? {
      var info := s.heap[s.infos[g]];
      TableStepKeepsLocks(s, SetInfo(s, g, info.(stop := true)), a,
                          me.(pc := DtorJoin(info.handle.value, emplacing)));
    }
  }

  lemma StopKeepsLocks(s: State, a: Aid)
    requires LocksOk(s) && a in s.actors
    ensures LocksOk(StopStep(s, a)) && LocksOk(MarkStep(s, a))
  {
    var me := s.actors[a];
    var g := me.guild;
    TableStepKeepsLocks(s, s, a, me.(pc := Disconnect));
    TableStepKeepsLocks(s, s, a, me.(pc := Await(Stop)));
    if HasInfo(s, g) {
      var s1 := SetInfo(s, g, Info(true, None));
      TableStepKeepsLocks(s, s1, a, me.(pc := Disconnect));
      TableStepKeepsLocks(s, SetInfo(s, g, s.heap[s.infos[g]].(stop := true)), a, me.(pc := Await(Stop)));
      if s.heap[s.infos[g]].handle.Some? {
        TableStepKeepsLocks(s, s1, a, me.(pc := Joining(s.heap[s.infos[g]].handle.value)));
      }
    }
  }

  lemma EnqueueKeepsLocks(s: State, a: Aid)
    requires LocksOk(s) && a in s.actors && s.actors[a].pc == In(Enqueue)
    ensures LocksOk(EnqueueStep(s, a))
  {
    var me := s.actors[a];
    var s1 := EmplaceInfo(s, me.guild);
    TableStepKeepsLocks(s, s1, a, me.(pc := Await(EnqueueList), ptr := s1.infos[me.guild]));
  }

  lemma SectionKeepsLocks(s: State, a: Aid, sec: Section, c: nat)
    requires LocksOk(s) && Enabled(s, a) && s.actors[a].pc == In(sec) && s.nextAid !in s.actors
    ensures LocksOk(SectionStep(s, a, sec, c))
  {
    hide LocksOk, MarkStep, StopStep, EraseStep, StartStep, EnqueueStep, SectionNext;
    if sec.Mark? || sec.Stop? {
      StopKeepsLocks(s, a);
    } else if sec.Erase? || sec.Emplace? {
      assert GuildInfos in Held(s.actors[a]);
      EraseStepKeepsLocks(s, a, sec.Emplace?);
    } else if sec.Start? {
      StartKeepsLocks(s, a);
    } else if sec.Enqueue? {
      EnqueueKeepsLocks(s, a);
    } else {
      NextDropsLocks(s, s.actors[a], sec, c);
      BecomeKeepsLocks(s, a, SectionNext(s, s.actors[a], sec, c));
    }
  }

  lemma StepKeepsLocks(s: State, a: Aid, c: nat)
    requires LocksOk(s) && Enabled(s, a) && s.nextAid !in s.actors
    ensures LocksOk(Exec(s, a, c))
  {
    var me := s.actors[a];
    match me.pc {
      case In(sec) => SectionKeepsLocks(s, a, sec, c);
      case DtorJoin(_, emplacing) => EraseStepKeepsLocks(s, a, emplacing);
      case _ =>
        LocalAddsOne(s, a, c);
        BecomeKeepsLocks(s, a, LocalNext(s, me, c));
    }
  }

  lemma SpawnKeepsLocks(s: State, kind: Kind, g: Guild)
    requires LocksOk(s) && s.nextAid !in s.actors
    ensures LocksOk(SpawnActor(s, kind, g))
  {
    assert Held(Actor(kind, g, Begin(kind), NULL, 0)) == {};
  }

  lemma StartKeepsLocks(s: State, a: Aid)
    requires LocksOk(s) && Enabled(s, a) && s.actors[a].pc == In(Start) && s.nextAid !in s.actors
    ensures LocksOk(StartStep(s, a))
  {
    var g := s.actors[a].guild;
    var me := s.actors[a].(pc := Await(Reply));
    if !HasInfo(s, g) || s.heap[s.infos[g]].handle.Some? {
      BecomeKeepsLocks(s, a, me);
    } else {
      var s1 := SetInfo(s, g, Info(false, Some(s.nextAid)));
      assert LocksOk(s1);
      SpawnKeepsLocks(s1, Audio, g);
      BecomeKeepsLocks(SpawnActor(s1, Audio, g), a, me);
    }
  }

  // ---------------------------------------------------------------- preservation

  /** The heap after a change that leaves every handle alone and only raises stop flags. */
  predicate SameHandles(h: map<ObjId, Info>, h': map<ObjId, Info>) {
    && h.Keys == h'.Keys
    && forall o :: o in h ==> h[o].handle == h'[o].handle && (h[o].stop ==> h'[o].stop)
  }

  /** A program point `a` may move to without touching the table beyond stop flags. */
  ghost predicate MoveOk(s: State, a: Aid, me: Actor) {
    && Active(s, a)
    && me.kind == s.actors[a].kind && me.guild == s.actors[a].guild && Fits(me.kind, RoleAt(me.pc))
    && (me.kind.Audio? && !me.pc.Exited? ==>
          HasInfo(s, me.guild)
          && (me.ptr == s.infos[me.guild] || (me.ptr == NULL && (me.pc == Await(Look) || me.pc == In(Look)))))
    && !me.pc.Joining?
    && (s.actors[a].pc.Joining? ==> Finished(s, s.actors[a].pc.t))
    && (Lifecycle(me) && AfterStop(me.pc) ==> NoThread(s, me.guild))
    && (KeepsRemovePtr(me.pc) ==> HasInfo(s, me.guild) && s.infos[me.guild] == me.ptr)
  }

  lemma MoveKeepsActor(s: State, h: map<ObjId, Info>, a: Aid, me: Actor, b: Aid)
    requires ActorsOk(s) && MoveOk(s, a, me) && SameHandles(s.heap, h) && b in s.actors
    ensures ActorOk(Become(s.(heap := h), a, me), b)
  {
    var s' := Become(s.(heap := h), a, me);
    assert ActorOk(s, b) && ActorOk(s, a);
    if LiveAudio(s', b) {
      assert LiveAudio(s, b) && ThreadOk(s, b);
      if s.heap[s.infos[s.actors[b].guild]].handle != Some(b) {
        var j :| Joiner(s, j, b);
        assert j != a;
        assert Joiner(s', j, b);
      }
    }
  }

  /** A step that changes one actor and at most raises stop flags. */
  lemma MoveKeeps(s: State, h: map<ObjId, Info>, a: Aid, me: Actor)
    requires TableOk(s) && ActorsOk(s) && Exclusive(s) && MoveOk(s, a, me) && SameHandles(s.heap, h)
    ensures TableOk(Become(s.(heap := h), a, me))
    ensures ActorsOk(Become(s.(heap := h), a, me))
    ensures Exclusive(Become(s.(heap := h), a, me))
  {
    var s' := Become(s.(heap := h), a, me);
    assert TableOk(s') by {
      forall o | o in s'.heap && s'.heap[o].handle.Some? ensures HandleOk(s', o, s'.heap[o].handle.value) {
        assert HandleOk(s, o, s.heap[o].handle.value);
      }
    }
    forall b | b in s'.actors ensures ActorOk(s', b) {
      MoveKeepsActor(s, h, a, me, b);
    }
  }

  ghost predicate Core(s: State) {
    TableOk(s) && ActorsOk(s) && Exclusive(s)
  }

  lemma MoveKeepsCore(s: State, a: Aid, me: Actor)
    requires Core(s) && MoveOk(s, a, me)
    ensures Core(Become(s, a, me))
  {
    MoveKeeps(s, s.heap, a, me);
    assert s.(heap := s.heap) == s;
  }

  lemma AudioMoveOk(s: State, a: Aid, sec: Section, c: nat)
    requires Core(s) && Active(s, a) && s.actors[a].pc == In(sec) && RoleIn(sec).AudioRole?
    ensures MoveOk(s, a, AudioNext(s, s.actors[a], sec, c))
  {
    assert ActorOk(s, a) && LiveAudio(s, a);
    assert ThreadOk(s, a) && Fits(s.actors[a].kind, RoleAt(s.actors[a].pc));
    hide Core, ActorOk, ThreadOk, Inv;
  }

  lemma VoiceMoveOk(s: State, a: Aid, sec: Section, c: nat)
    requires Core(s) && Active(s, a) && s.actors[a].pc == In(sec) && RoleIn(sec).CommandRole?
    ensures MoveOk(s, a, VoiceNext(s.actors[a], sec, c))
  {
    hide ActorsOk, MoveOk;
    PlainMoveOk(s, a, VoiceNext(s.actors[a], sec, c));
  }

  /** Moves of actors other than audio threads, joins, leaves and removes need nothing of the table. */
  lemma PlainMoveOk(s: State, a: Aid, me: Actor)
    requires ActorsOk(s) && Active(s, a) && RoleAt(s.actors[a].pc).CommandRole?
    requires me.kind == s.actors[a].kind && me.guild == s.actors[a].guild
    requires RoleAt(me.pc).CommandRole? || RoleAt(me.pc).DoneRole?
    ensures MoveOk(s, a, me)
  {
    assert ActorOk(s, a);
    assert !AfterStop(me.pc) && !KeepsRemovePtr(me.pc);
  }

  lemma CommandMoveOk(s: State, a: Aid, sec: Section, c: nat)
    requires Core(s) && Active(s, a) && s.actors[a].pc == In(sec) && RoleIn(sec).CommandRole? && !sec.Enqueue?
    ensures MoveOk(s, a, CommandNext(s, s.actors[a], sec, c))
  {
    hide ActorsOk, MoveOk, TableOk, Exclusive, HasInfo;
    PlainMoveOk(s, a, CommandNext(s, s.actors[a], sec, c));
  }

  lemma RemoveMoveOk(s: State, a: Aid, sec: Section, c: nat)
    requires Core(s) && Active(s, a) && s.actors[a].pc == In(sec) && RoleIn(sec).RemoveRole?
    ensures MoveOk(s, a, CommandNext(s, s.actors[a], sec, c))
  {
    var me := s.actors[a];
    assert ActorOk(s, a);
    assert me.kind.RemoveCmd? && (me.guild in s.infos ==> HasInfo(s, me.guild));
    assert KeepsRemovePtr(me.pc) ==> me.guild in s.infos && s.infos[me.guild] == me.ptr;
    hide Core, ActorOk, HasInfo;
    RemoveNext(s, me, sec, c);
  }

  lemma RemoveNext(s: State, me: Actor, sec: Section, c: nat)
    requires me.pc == In(sec) && RoleIn(sec).RemoveRole? && me.kind.RemoveCmd?
    requires KeepsRemovePtr(me.pc) ==> me.guild in s.infos && s.infos[me.guild] == me.ptr
    ensures var me' := CommandNext(s, me, sec, c);
      && me'.kind == me.kind && me'.guild == me.guild && Fits(me.kind, RoleAt(me'.pc)) && !me'.pc.Joining?
      && (KeepsRemovePtr(me'.pc) ==> me.guild in s.infos && s.infos[me.guild] == me'.ptr)
  {
    hide HasInfo;
  }

  lemma LocalMoveOk(s: State, a: Aid, c: nat)
    requires Core(s) && Enabled(s, a) && !s.actors[a].pc.In? && !s.actors[a].pc.Joining?
    ensures MoveOk(s, a, LocalNext(s, s.actors[a], c))
  {
    assert ActorOk(s, a);
  }

  /** Guild `h` looks the same in both states: its entry, its object and its actors. */
  ghost predicate SameView(s: State, s': State, h: Guild) {
    && (h in s.infos <==> h in s'.infos)
    && (HasInfo(s, h) ==> HasInfo(s', h) && s.infos[h] == s'.infos[h] && s.heap[s.infos[h]] == s'.heap[s.infos[h]])
    && (HasInfo(s', h) ==> HasInfo(s, h))
    && (forall b :: b in s.actors && s.actors[b].guild == h ==> b in s'.actors && s.actors[b] == s'.actors[b])
    && (forall b :: b in s'.actors && s'.actors[b].guild == h ==> b in s.actors)
  }

  lemma ViewKeepsActor(s: State, s': State, b: Aid)
    requires b in s.actors && SameView(s, s', s.actors[b].guild) && ActorOk(s, b)
    requires forall c :: c in s'.actors && c in s.actors ==> s.actors[c].guild == s'.actors[c].guild
    ensures ActorOk(s', b)
  {
    var me := s.actors[b];
    if LiveAudio(s', b) {
      assert LiveAudio(s, b) && ThreadOk(s, b);
      if s.heap[s.infos[me.guild]].handle != Some(b) {
        var j :| Joiner(s, j, b);
        assert Joiner(s', j, b);
      }
    }
    if Lifecycle(me) && AfterStop(me.pc) {
      assert NoThread(s, me.guild);
      assert forall t :: LiveAudio(s', t) && s'.actors[t].guild == me.guild ==> LiveAudio(s, t);
    }
  }

  lemma HandlesKept(s: State, s': State, g: Guild)
    requires TableOk(s)
    requires forall b :: b in s.actors ==> b in s'.actors
    requires forall b :: b in s.actors ==>
      s'.actors[b].kind == s.actors[b].kind && s'.actors[b].guild == s.actors[b].guild
    requires forall h :: h != g && h in s.infos ==> h in s'.infos && s'.infos[h] == s.infos[h]
    ensures forall o | o in s.heap && s.heap[o].handle.Some? && (g !in s.infos || s.infos[g] != o) ::
              HandleOk(s', o, s.heap[o].handle.value)
  {
    forall o | o in s.heap && s.heap[o].handle.Some? && (g !in s.infos || s.infos[g] != o)
      ensures HandleOk(s', o, s.heap[o].handle.value)
    {
      assert HandleOk(s, o, s.heap[o].handle.value);
    }
  }

  /** EnsureGuildInfo, and the emplace of a join: a new object without a thread. */
  lemma EmplaceKeeps(s: State, g: Guild)
    requires Core(s)
    ensures Core(EmplaceInfo(s, g))
  {
    if g !in s.infos {
      EmplaceKeepsTable(s, g);
      forall b | b in s.actors ensures ActorOk(EmplaceInfo(s, g), b) {
        EmplaceKeepsActor(s, g, b);
      }
      hide ActorOk, TableOk, Exclusive;
    }
  }

  lemma EmplaceKeepsTable(s: State, g: Guild)
    requires TableOk(s) && Exclusive(s) && g !in s.infos
    ensures TableOk(EmplaceInfo(s, g)) && Exclusive(EmplaceInfo(s, g))
  {
    HandlesKept(s, EmplaceInfo(s, g), g);
    assert forall h :: h in s.infos ==> s.infos[h] in s.heap && s.infos[h] < s.nextObj;
  }

  lemma EmplaceKeepsActor(s: State, g: Guild, b: Aid)
    requires Core(s) && g !in s.infos && b in s.actors
    ensures ActorOk(EmplaceInfo(s, g), b)
  {
    assert ActorOk(s, b);
    assert forall h :: h in s.infos ==> s.infos[h] in s.heap && s.infos[h] < s.nextObj;
    if s.actors[b].guild != g {
      ViewKeepsActor(s, EmplaceInfo(s, g), b);
    }
  }

  lemma ExclusiveKept(s: State, s': State)
    requires Exclusive(s)
    requires forall b :: Active(s', b) ==>
      Active(s, b) && s'.actors[b].kind == s.actors[b].kind && s'.actors[b].guild == s.actors[b].guild
    ensures Exclusive(s')
  {
  }

  /** Erasing an object whose thread is gone. */
  lemma EraseKeeps(s: State, a: Aid, me: Actor)
    requires Core(s) && Active(s, a) && Lifecycle(s.actors[a]) && AfterStop(s.actors[a].pc)
    requires me.kind == s.actors[a].kind && me.guild == s.actors[a].guild && Fits(me.kind, RoleAt(me.pc))
    requires AfterStop(me.pc) && !KeepsRemovePtr(me.pc)
    ensures Core(Become(EraseInfo(s, me.guild), a, me))
  {
    var g := me.guild;
    var s' := Become(EraseInfo(s, g), a, me);
    assert ActorOk(s, a) && NoThread(s, g);
    EraseKeepsTable(s, a, me);
    forall b | b in s'.actors ensures ActorOk(s', b) {
      if s.actors[b].guild != g {
        EraseKeepsOther(s, a, me, b);
      } else if b != a {
        EraseKeepsActor(s, a, me, b);
      }
    }
  }

  lemma EraseKeepsOther(s: State, a: Aid, me: Actor, b: Aid)
    requires Core(s) && Active(s, a) && me.guild == s.actors[a].guild && b in s.actors && s.actors[b].guild != me.guild
    ensures ActorOk(Become(EraseInfo(s, me.guild), a, me), b)
  {
    var g := me.guild;
    assert ActorOk(s, b);
    assert forall h :: h in s.infos && h != g && g in s.infos ==> s.infos[h] != s.infos[g];
    ViewKeepsActor(s, Become(EraseInfo(s, g), a, me), b);
  }

  lemma EraseKeepsTable(s: State, a: Aid, me: Actor)
    requires TableOk(s) && Exclusive(s) && Active(s, a)
    requires me.kind == s.actors[a].kind && me.guild == s.actors[a].guild
    ensures TableOk(Become(EraseInfo(s, me.guild), a, me)) && Exclusive(Become(EraseInfo(s, me.guild), a, me))
  {
    assert forall h :: h in s.infos && h != me.guild && me.guild in s.infos ==> s.infos[h] != s.infos[me.guild];
    HandlesKept(s, Become(EraseInfo(s, me.guild), a, me), me.guild);
    ExclusiveKept(s, Become(EraseInfo(s, me.guild), a, me));
    hide Exclusive, Held, Reown;
  }

  lemma EraseKeepsActor(s: State, a: Aid, me: Actor, b: Aid)
    requires Core(s) && Active(s, a) && Lifecycle(s.actors[a]) && AfterStop(s.actors[a].pc)
    requires me.kind == s.actors[a].kind && me.guild == s.actors[a].guild
    requires AfterStop(me.pc) && b in s.actors && b != a && s.actors[b].guild == me.guild
    ensures ActorOk(Become(EraseInfo(s, me.guild), a, me), b)
  {
    assert ActorOk(s, a) && ActorOk(s, b) && NoThread(s, me.guild);
    assert Active(s, b) ==> !Lifecycle(s.actors[b]) && !s.actors[b].kind.RemoveCmd? && !LiveAudio(s, b);
  }

  /** The destructor inside the erase finds no joinable thread, so the erase goes straight through. */
  lemma EraseStepKeeps(s: State, a: Aid, emplacing: bool)
    requires Core(s) && Active(s, a)
    requires s.actors[a].pc == In(if emplacing then Emplace else Erase)
    ensures Core(EraseStep(s, a, emplacing))
    ensures EraseStep(s, a, emplacing) == AfterErase(s, a, emplacing)
  {
    var me := s.actors[a];
    EraseGoesThrough(s, a, emplacing);
    hide Core, EraseStep, AfterErase, Become, EraseInfo, EmplaceInfo;
    if emplacing {
      EraseKeeps(s, a, me.(pc := Await(Start)));
      EmplaceKeeps(Become(EraseInfo(s, me.guild), a, me.(pc := Await(Start))), me.guild);
    } else {
      EraseKeeps(s, a, me.(pc := Await(Reset)));
    }
  }

  lemma EraseGoesThrough(s: State, a: Aid, emplacing: bool)
    requires Core(s) && Active(s, a)
    requires s.actors[a].pc == In(if emplacing then Emplace else Erase)
    ensures EraseStep(s, a, emplacing) == AfterErase(s, a, emplacing) && Lifecycle(s.actors[a])
    ensures var me := s.actors[a]; var s1 := EraseInfo(s, me.guild);
      AfterErase(s, a, emplacing) ==
      if emplacing then EmplaceInfo(Become(s1, a, me.(pc := Await(Start))), me.guild)
      else Become(s1, a, me.(pc := Await(Reset)))
  {
    assert ActorOk(s, a) && NoThread(s, s.actors[a].guild);
    hide Core, ActorOk, NoThread, Held, Reown;
  }

  /** Nothing changes for the actors of other guilds. */
  lemma SetKeepsOther(s: State, a: Aid, g: Guild, info: Info, me: Actor, b: Aid)
    requires Core(s) && a in s.actors && HasInfo(s, g) && b in s.actors && s.actors[b].guild != g
    requires s.actors[a].guild == g && me.guild == g
    ensures ActorOk(Become(SetInfo(s, g, info), a, me), b)
  {
    assert ActorOk(s, b);
    assert forall h :: h in s.infos && h != g ==> s.infos[h] != s.infos[g];
    ViewKeepsActor(s, Become(SetInfo(s, g, info), a, me), b);
  }

  /** Taking the handle of the guild's thread: the thread is now owned by the joiner. */
  lemma TakeHandleKeeps(s: State, a: Aid, t: Aid)
    requires Core(s) && Active(s, a) && s.actors[a].pc == In(Stop) && HasInfo(s, s.actors[a].guild)
    requires s.heap[s.infos[s.actors[a].guild]].handle == Some(t)
    ensures Core(Goto(SetInfo(s, s.actors[a].guild, Info(true, None)), a, Joining(t)))
  {
    var g := s.actors[a].guild;
    var s' := Goto(SetInfo(s, g, Info(true, None)), a, Joining(t));
    TakeHandleKeepsTable(s, a, t);
    assert ActorOk(s', a) by {
      assert ActorOk(s, a) && HandleOk(s, s.infos[g], t);
    }
    hide Fits, Exclusive, TableOk;
    forall b | b in s'.actors ensures ActorOk(s', b) {
      assert ActorOk(s, b);
      if s.actors[b].guild != g {
        SetKeepsOther(s, a, g, Info(true, None), s.actors[a].(pc := Joining(t)), b);
      } else if b != a {
        TakeHandleKeepsActor(s, a, t, b);
      }
    }
    hide ActorOk;
  }

  lemma TakeHandleKeepsTable(s: State, a: Aid, t: Aid)
    requires Core(s) && Active(s, a) && s.actors[a].pc == In(Stop) && HasInfo(s, s.actors[a].guild)
    requires s.heap[s.infos[s.actors[a].guild]].handle == Some(t)
    ensures var s' := Goto(SetInfo(s, s.actors[a].guild, Info(true, None)), a, Joining(t));
            TableOk(s') && Exclusive(s')
  {
    var g := s.actors[a].guild;
    hide ActorsOk, RoleAt, Held, Reown;
    ExclusiveKept(s, Goto(SetInfo(s, g, Info(true, None)), a, Joining(t)));
    hide Exclusive;
    HandlesKept(s, Goto(SetInfo(s, g, Info(true, None)), a, Joining(t)), g);
  }

  lemma TakeHandleKeepsActor(s: State, a: Aid, t: Aid, b: Aid)
    requires Core(s) && Active(s, a) && s.actors[a].pc == In(Stop) && HasInfo(s, s.actors[a].guild)
    requires s.heap[s.infos[s.actors[a].guild]].handle == Some(t)
    requires b in s.actors && b != a && s.actors[b].guild == s.actors[a].guild
    ensures ActorOk(Goto(SetInfo(s, s.actors[a].guild, Info(true, None)), a, Joining(t)), b)
  {
    var s' := Goto(SetInfo(s, s.actors[a].guild, Info(true, None)), a, Joining(t));
    assert ActorOk(s, a) && ActorOk(s, b);
    assert Active(s, b) ==> !Lifecycle(s.actors[b]);
    if LiveAudio(s', b) {
      assert ThreadOk(s, b);
      assert b == t;
      assert Joiner(s', a, t);
    }
  }

  lemma StopKeeps(s: State, a: Aid)
    requires Core(s) && Active(s, a) && s.actors[a].pc == In(Stop)
    ensures Core(StopStep(s, a))
  {
    var me := s.actors[a];
    var g := me.guild;
    assert ActorOk(s, a);
    if HasInfo(s, g) && s.heap[s.infos[g]].handle.Some? {
      TakeHandleKeeps(s, a, s.heap[s.infos[g]].handle.value);
    } else {
      assert NoThread(s, g) by {
        forall t | LiveAudio(s, t) ensures s.actors[t].guild != g {
          assert ThreadOk(s, t);
        }
      }
      if HasInfo(s, g) {
        MoveKeeps(s, s.heap[s.infos[g] := Info(true, None)], a, me.(pc := Disconnect));
      } else {
        MoveKeepsCore(s, a, me.(pc := Disconnect));
      }
    }
  }

  /** StartAudioThread: the new thread is the only one of its guild. */
  lemma StartKeeps(s: State, a: Aid)
    requires Core(s) && Active(s, a) && s.actors[a].pc == In(Start)
    ensures Core(StartStep(s, a))
  {
    var me := s.actors[a].(pc := Await(Reply));
    StartReady(s, a, me);
    MoveKeepsCore(s, a, me);
    if HasInfo(s, me.guild) {
      LaunchCommutes(s, a, me);
      hide Core, Become, SpawnActor, SetInfo, MoveOk, NoThread;
      LaunchKeeps(Become(s, a, me), me.guild);
    }
  }

  lemma StartReady(s: State, a: Aid, me: Actor)
    requires Core(s) && Active(s, a) && s.actors[a].pc == In(Start) && me == s.actors[a].(pc := Await(Reply))
    ensures MoveOk(s, a, me) && NoThread(s, me.guild) && s.nextAid !in s.actors
    ensures var s1 := Become(s, a, me);
      && HasInfo(s1, me.guild) == HasInfo(s, me.guild) && NoThread(s1, me.guild)
      && s1.nextAid == s.nextAid && s1.nextAid !in s1.actors
      && (forall b :: Active(s1, b) && Lifecycle(s1.actors[b]) ==>
            s1.actors[b].guild != me.guild || (!AfterStop(s1.actors[b].pc) && !s1.actors[b].pc.Joining?))
      && (forall b :: Active(s1, b) && s1.actors[b].pc.Joining? ==> Lifecycle(s1.actors[b]))
  {
    assert ActorOk(s, a);
    hide ThreadOk, JoinOk, Held, Reown;
    forall b | Active(s, b) && s.actors[b].pc.Joining? ensures Lifecycle(s.actors[b]) {
      assert ActorOk(s, b);
    }
  }

  lemma LaunchCommutes(s: State, a: Aid, me: Actor)
    requires a in s.actors && me.guild in s.infos && s.nextAid !in s.actors
    ensures Become(SpawnActor(SetInfo(s, me.guild, Info(false, Some(s.nextAid))), Audio, me.guild), a, me)
         == SpawnActor(SetInfo(Become(s, a, me), me.guild, Info(false, Some(s.nextAid))), Audio, me.guild)
  {
    assert a != s.nextAid;
  }

  lemma LaunchKeeps(s: State, g: Guild)
    requires Core(s) && HasInfo(s, g) && NoThread(s, g) && s.nextAid !in s.actors
    requires forall b :: Active(s, b) && Lifecycle(s.actors[b]) && AfterStop(s.actors[b].pc) ==> s.actors[b].guild != g
    requires forall b :: Active(s, b) && s.actors[b].pc.Joining? ==> s.actors[b].guild != g
    ensures Core(SpawnActor(SetInfo(s, g, Info(false, Some(s.nextAid))), Audio, g))
  {
    var s' := SpawnActor(SetInfo(s, g, Info(false, Some(s.nextAid))), Audio, g);
    LaunchKeepsTable(s, g);
    hide TableOk, Exclusive, ActorOk;
    forall b | b in s'.actors ensures ActorOk(s', b) {
      if b != s.nextAid {
        LaunchKeepsActor(s, g, b);
      }
    }
  }

  lemma LaunchKeepsTable(s: State, g: Guild)
    requires Core(s) && HasInfo(s, g) && s.nextAid !in s.actors
    ensures var s' := SpawnActor(SetInfo(s, g, Info(false, Some(s.nextAid))), Audio, g);
            TableOk(s') && Exclusive(s') && ActorOk(s', s.nextAid)
  {
    hide ActorsOk;
    HandlesKept(s, SpawnActor(SetInfo(s, g, Info(false, Some(s.nextAid))), Audio, g), g);
  }

  lemma LaunchKeepsActor(s: State, g: Guild, b: Aid)
    requires Core(s) && HasInfo(s, g) && NoThread(s, g) && s.nextAid !in s.actors && b in s.actors
    requires Active(s, b) && Lifecycle(s.actors[b]) && AfterStop(s.actors[b].pc) ==> s.actors[b].guild != g
    requires Active(s, b) && s.actors[b].pc.Joining? ==> s.actors[b].guild != g
    ensures ActorOk(SpawnActor(SetInfo(s, g, Info(false, Some(s.nextAid))), Audio, g), b)
  {
    assert ActorOk(s, b);
    if s.actors[b].guild != g {
      assert forall h :: h in s.infos && h != g ==> s.infos[h] != s.infos[g];
      ViewKeepsActor(s, SpawnActor(SetInfo(s, g, Info(false, Some(s.nextAid))), Audio, g), b);
    } else {
      assert Active(s, b) ==> !LiveAudio(s, b) && !s.actors[b].pc.Joining?;
    }
  }

  lemma MarkKeeps(s: State, a: Aid)
    requires Core(s) && Active(s, a) && s.actors[a].pc == In(Mark)
    ensures Core(MarkStep(s, a))
  {
    assert ActorOk(s, a);
    var me := s.actors[a];
    if HasInfo(s, me.guild) {
      MoveKeeps(s, s.heap[s.infos[me.guild] := s.heap[s.infos[me.guild]].(stop := true)], a, me.(pc := Await(Stop)));
    } else {
      MoveKeepsCore(s, a, me.(pc := Await(Stop)));
    }
  }

  lemma LifecycleMoveOk(s: State, a: Aid, sec: Section)
    requires Core(s) && Active(s, a) && s.actors[a].pc == In(sec) && (sec.JoinLook? || sec.Reset? || sec.Reply?)
    ensures MoveOk(s, a, LifecycleNext(s, s.actors[a], sec))
  {
    assert ActorOk(s, a);
    if sec.JoinLook? && s.actors[a].guild !in s.infos {
      forall t | LiveAudio(s, t) ensures s.actors[t].guild != s.actors[a].guild {
        assert ActorOk(s, t);
      }
    }
  }

  lemma EnqueueKeeps(s: State, a: Aid)
    requires Core(s) && Active(s, a) && s.actors[a].pc == In(Enqueue)
    ensures Core(EnqueueStep(s, a))
  {
    var me := s.actors[a];
    var s1 := EmplaceInfo(s, me.guild);
    EmplaceKeeps(s, me.guild);
    assert ActorOk(s1, a);
    MoveKeepsCore(s1, a, me.(pc := Await(EnqueueList), ptr := s1.infos[me.guild]));
  }

  lemma SectionMoveOk(s: State, a: Aid, sec: Section, c: nat)
    requires Core(s) && Active(s, a) && s.actors[a].pc == In(sec) && !OnTable(sec)
    ensures MoveOk(s, a, SectionNext(s, s.actors[a], sec, c))
  {
    hide Core, MoveOk, AudioNext, LifecycleNext, CommandNext, VoiceNext;
    if RoleIn(sec).AudioRole? {
      AudioMoveOk(s, a, sec, c);
    } else if RoleIn(sec).LifecycleRole? || RoleIn(sec).ReplyRole? {
      LifecycleMoveOk(s, a, sec);
    } else if RoleIn(sec).RemoveRole? {
      RemoveMoveOk(s, a, sec, c);
    } else {
      VoiceMoveOk(s, a, sec, c);
      CommandMoveOk(s, a, sec, c);
    }
  }

  lemma SectionKeepsCore(s: State, a: Aid, sec: Section, c: nat)
    requires Core(s) && Active(s, a) && s.actors[a].pc == In(sec)
    ensures Core(SectionStep(s, a, sec, c))
  {
    hide Core, MarkStep, StopStep, EraseStep, AfterErase, StartStep, EnqueueStep, SectionNext;
    if sec.Mark? {
      MarkKeeps(s, a);
    } else if sec.Stop? {
      StopKeeps(s, a);
    } else if sec.Erase? || sec.Emplace? {
      EraseStepKeeps(s, a, sec.Emplace?);
    } else if sec.Start? {
      StartKeeps(s, a);
    } else if sec.Enqueue? {
      EnqueueKeeps(s, a);
    } else {
      SectionMoveOk(s, a, sec, c);
      MoveKeepsCore(s, a, SectionNext(s, s.actors[a], sec, c));
    }
  }

  lemma StepKeepsCore(s: State, a: Aid, c: nat)
    requires Core(s) && Enabled(s, a)
    ensures Core(Exec(s, a, c))
  {
    var me := s.actors[a];
    assert ActorOk(s, a);
    if me.pc.In? {
      SectionKeepsCore(s, a, me.pc.sec, c);
    } else if me.pc.Joining? {
      JoinedNoThread(s, a);
      MoveKeepsCore(s, a, LocalNext(s, me, c));
    } else {
      LocalMoveOk(s, a, c);
      MoveKeepsCore(s, a, LocalNext(s, me, c));
    }
  }

  /** When join() returns, the guild has no live audio thread. */
  lemma JoinedNoThread(s: State, a: Aid)
    requires Core(s) && Enabled(s, a) && s.actors[a].pc.Joining?
    ensures NoThread(s, s.actors[a].guild)
  {
    assert ActorOk(s, a);
    forall t | LiveAudio(s, t) ensures s.actors[t].guild != s.actors[a].guild {
      assert ThreadOk(s, t);
    }
  }

  lemma SpawnKeepsCore(s: State, kind: Kind, g: Guild)
    requires Core(s) && s.nextAid !in s.actors && !kind.Audio? && NoOverlap(s, Spawn(kind, g))
    ensures Core(SpawnActor(s, kind, g))
  {
    var s' := SpawnActor(s, kind, g);
    SpawnKeepsTable(s, kind, g);
    forall b | b in s'.actors ensures ActorOk(s', b) {
      if b != s.nextAid {
        SpawnKeepsActor(s, kind, g, b);
      } else {
        NewActorOk(s, kind, g);
      }
    }
  }

  lemma NewActorOk(s: State, kind: Kind, g: Guild)
    requires !kind.Audio?
    ensures ActorOk(SpawnActor(s, kind, g), s.nextAid)
  {
  }

  lemma SpawnKeepsTable(s: State, kind: Kind, g: Guild)
    requires TableOk(s) && Exclusive(s) && NoOverlap(s, Spawn(kind, g))
    ensures TableOk(SpawnActor(s, kind, g)) && Exclusive(SpawnActor(s, kind, g))
  {
    HandlesKept(s, SpawnActor(s, kind, g), g);
  }

  lemma SpawnKeepsActor(s: State, kind: Kind, g: Guild, b: Aid)
    requires Core(s) && s.nextAid !in s.actors && !kind.Audio? && b in s.actors
    ensures ActorOk(SpawnActor(s, kind, g), b)
  {
    var s' := SpawnActor(s, kind, g);
    assert ActorOk(s, b);
    if LiveAudio(s', b) {
      assert LiveAudio(s, b) && ThreadOk(s, b);
      if s.heap[s.infos[s.actors[b].guild]].handle != Some(b) {
        var j :| Joiner(s, j, b);
        assert Joiner(s', j, b);
      }
    }
  }

  /** Every step of every actor, and every new actor, keeps the invariant. */
  lemma StepKeepsInv(s: State, l: Label)
    requires Inv(s) && Possible(s, l) && NoOverlap(s, l)
    ensures Inv(Apply(s, l))
  {
    match l {
      case Run(a, c) =>
        StepKeepsCore(s, a, c);
        StepKeepsLocks(s, a, c);
      case Spawn(kind, g) =>
        SpawnKeepsCore(s, kind, g);
        SpawnKeepsLocks(s, kind, g);
    }
  }

  lemma {:induction false} RunKeepsInv(s: State, ls: seq<Label>)
    requires Inv(s) && Legal(s, ls)
    ensures Feasible(s, ls) && Inv(Final(s, ls))
    decreases |ls|
  {
    if ls != [] {
      StepKeepsInv(s, ls[0]);
      RunKeepsInv(Apply(s, ls[0]), ls[1..]);
    }
  }
}
