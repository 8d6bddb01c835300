/** The guild table, its mutexes and every thread that touches them, as a step system.

    Each command handler, timer pass, event callback and audio thread is an `Actor` with a
    program counter.  A critical section is entered by one step (`Await` to `In`) and left by
    the step that performs its body.  Steps of different actors interleave freely, for any
    number of guilds and actors. */
module AudioLifecycle {
  import opened Options

  type Guild = nat
  type ObjId = nat   // identity of a GuildInfo object; 0 is the null pointer
  type Aid = nat     // identity of an actor; the value of a std::thread handle

  const NULL: ObjId := 0

  datatype Lock = GuildInfos | List(o: ObjId) | LastMessages | Voice

  /** The fields of a GuildInfo that its life cycle depends on. */
  datatype Info = Info(stop: bool, handle: Option<Aid>)

  datatype Kind =
    | Audio | JoinCmd | LeaveCmd | OmakaseCmd | EnqueueCmd | FlagCmd | ShowCmd | RemoveCmd
    | TouchCmd | VoiceCmd | TimerCmd | AckCmd

  /** Critical sections, named after what their body does. */
  datatype Section =
    | Look | Pick | PickList | Skip | Clear                              // PlayAudioThread
    | JoinLook | Mark | Stop | Erase | Reset | Emplace | Start | Reply   // join and leave
    | Enqueue | EnqueueList | Omakase | NestedStart                      // server callbacks
    | Flag | FlagReply | Show | ShowList | ShowReply                     // queue commands
    | Remove | RemoveList | RemoveReply | Touch
    | VoiceEvent | Pass | Seed | Merge | Observe | Eval                  // occupancy and timer

  datatype Pc =
    | Await(sec: Section)                  // about to lock the section's mutex
    | In(sec: Section)                     // holding it
    | Probe | FrameStop | FrameSkip | WaitCheck | TrySend | Paced | Drain | RepeatCheck | Silence
    | Joining(t: Aid)                      // StopAudioThread, in join()
    | Disconnect | Connect
    | DtorJoin(t: Aid, emplacing: bool)    // ~GuildInfo joining inside an erase
    | Exited

  datatype Actor = Actor(kind: Kind, guild: Guild, pc: Pc, ptr: ObjId, sent: nat)

  datatype State = State(
    infos: map<Guild, ObjId>,
    heap: map<ObjId, Info>,
    actors: map<Aid, Actor>,
    owner: map<Lock, Aid>,
    nextObj: ObjId,
    nextAid: Aid)

  const INIT := State(map[], map[], map[], map[], 1, 0)

  // ---------------------------------------------------------------- locks per program point

  function LockOf(sec: Section, p: ObjId): Lock {
    match sec
    case PickList | EnqueueList | ShowList | RemoveList => List(p)
    case Reply | FlagReply | ShowReply | RemoveReply => LastMessages
    case Reset | VoiceEvent | Seed | Merge | Observe => Voice
    case _ => GuildInfos
  }

  /** Locks already held when the section's own mutex is requested. */
  function Outer(sec: Section, p: ObjId): set<Lock> {
    match sec
    case PickList | EnqueueList | FlagReply | ShowList | NestedStart => {GuildInfos}
    case ShowReply => {GuildInfos, List(p)}
    case RemoveReply => {List(p)}
    case _ => {}
  }

  function Held(a: Actor): set<Lock> {
    match a.pc
    case Await(sec) => Outer(sec, a.ptr)
    case In(sec) => Outer(sec, a.ptr) + {LockOf(sec, a.ptr)}
    case DtorJoin(_, _) => {GuildInfos}
    case _ => {}
  }

  // ---------------------------------------------------------------- steps

  function Begin(kind: Kind): Pc {
    match kind
    case Audio => Await(Look)
    case JoinCmd => Await(JoinLook)
    case LeaveCmd => Await(Mark)
    case OmakaseCmd | EnqueueCmd => Await(Enqueue)
    case FlagCmd => Await(Flag)
    case ShowCmd => Await(Show)
    case RemoveCmd => Await(Remove)
    case TouchCmd => Await(Touch)
    case VoiceCmd => Await(VoiceEvent)
    case TimerCmd => Await(Pass)
    case AckCmd => Await(Reply)
  }

  predicate Finished(s: State, t: Aid) {
    t in s.actors && s.actors[t].pc.Exited?
  }

  predicate Enabled(s: State, a: Aid) {
    && a in s.actors
    && match s.actors[a].pc
       case Exited => false
       case Await(sec) => LockOf(sec, s.actors[a].ptr) !in s.owner
       case Joining(t) => Finished(s, t)
       case DtorJoin(t, _) => Finished(s, t)
       case _ => true
  }

  function Reown(owner: map<Lock, Aid>, a: Aid, held: set<Lock>): map<Lock, Aid> {
    (map l | l in owner && owner[l] != a :: owner[l]) + (map l | l in held :: a)
  }

  /** Actor `a` becomes `me`: the locks its new program point no longer holds are released. */
  function Become(s: State, a: Aid, me: Actor): State {
    s.(actors := s.actors[a := me], owner := Reown(s.owner, a, Held(me)))
  }

  function Goto(s: State, a: Aid, pc: Pc): State
    requires a in s.actors
  {
    Become(s, a, s.actors[a].(pc := pc))
  }

  predicate HasInfo(s: State, g: Guild) {
    g in s.infos && s.infos[g] in s.heap
  }

  predicate StopSeen(s: State, o: ObjId) {
    o in s.heap && s.heap[o].stop
  }

  function SetInfo(s: State, g: Guild, info: Info): State
    requires g in s.infos
  {
    s.(heap := s.heap[s.infos[g] := info])
  }

  function EraseInfo(s: State, g: Guild): State {
    if g in s.infos then s.(infos := s.infos - {g}, heap := s.heap - {s.infos[g]}) else s
  }

  function EmplaceInfo(s: State, g: Guild): State {
    if g in s.infos then s
    else s.(infos := s.infos[g := s.nextObj], heap := s.heap[s.nextObj := Info(false, None)],
            nextObj := s.nextObj + 1)
  }

  function SpawnActor(s: State, kind: Kind, g: Guild): State {
    s.(actors := s.actors[s.nextAid := Actor(kind, g, Begin(kind), NULL, 0)], nextAid := s.nextAid + 1)
  }

  /** What follows the erase in a join (`emplacing`) or in the shared stop path. */
  function AfterErase(s: State, a: Aid, emplacing: bool): State
    requires a in s.actors
  {
    var g := s.actors[a].guild;
    if emplacing then Goto(EmplaceInfo(EraseInfo(s, g), g), a, Await(Start))
    else Goto(EraseInfo(s, g), a, Await(Reset))
  }

  /** guildInfos.erase: the destructor of a GuildInfo whose thread is joinable joins it. */
  function EraseStep(s: State, a: Aid, emplacing: bool): State
    requires a in s.actors
  {
    var g := s.actors[a].guild;
    if HasInfo(s, g) && s.heap[s.infos[g]].handle.Some? then
      var info := s.heap[s.infos[g]];
      Goto(SetInfo(s, g, info.(stop := true)), a, DtorJoin(info.handle.value, emplacing))
    else AfterErase(s, a, emplacing)
  }

  /** StopAudioThread's critical section: raise the flag and move the handle out. */
  function StopStep(s: State, a: Aid): State
    requires a in s.actors
  {
    var g := s.actors[a].guild;
    if !HasInfo(s, g) then Goto(s, a, Disconnect)
    else
      match s.heap[s.infos[g]].handle
      case None => Goto(SetInfo(s, g, Info(true, None)), a, Disconnect)
      case Some(t) => Goto(SetInfo(s, g, Info(true, None)), a, Joining(t))
  }

  /** StartAudioThread's critical section. */
  function StartStep(s: State, a: Aid): State
    requires a in s.actors
  {
    var g := s.actors[a].guild;
    if !HasInfo(s, g) || s.heap[s.infos[g]].handle.Some? then Goto(s, a, Await(Reply))
    else Goto(SpawnActor(SetInfo(s, g, Info(false, Some(s.nextAid))), Audio, g), a, Await(Reply))
  }

  /** LeaveVoice raises the stop flag before it stops the thread. */
  function MarkStep(s: State, a: Aid): State
    requires a in s.actors
  {
    var g := s.actors[a].guild;
    Goto(if HasInfo(s, g) then SetInfo(s, g, s.heap[s.infos[g]].(stop := true)) else s, a, Await(Stop))
  }

  /** EnsureGuildInfo, then the request for the queue's mutex. */
  function EnqueueStep(s: State, a: Aid): State
    requires a in s.actors
  {
    var me := s.actors[a];
    var s' := EmplaceInfo(s, me.guild);
    Become(s', a, me.(pc := Await(EnqueueList), ptr := s'.infos[me.guild]))
  }

  /** The audio thread finds its GuildInfo again; it leaves when there is none or stop is set. */
  function Find(s: State, me: Actor, pc: Pc): Actor {
    if !HasInfo(s, me.guild) || s.heap[s.infos[me.guild]].stop then me.(pc := Exited)
    else me.(pc := pc, ptr := s.infos[me.guild])
  }

  /** After a critical section of PlayAudioThread; `c` resolves what the model does not decide. */
  function AudioNext(s: State, me: Actor, sec: Section, c: nat): Actor {
    match sec
    case Look => Find(s, me, Probe)
    case Pick => Find(s, me, if c == 0 then Await(PickList) else if c == 1 then FrameStop else RepeatCheck)
    case PickList => me.(pc := if c == 0 then Silence else if c == 1 then FrameStop else RepeatCheck)
    case Skip => me.(pc := Drain)
    case _ => me.(pc := Await(Look))
  }

  /** After a critical section of a join or leave that leaves the table alone. */
  function LifecycleNext(s: State, me: Actor, sec: Section): Actor {
    match sec
    case JoinLook => me.(pc := if me.guild in s.infos then Await(Stop) else Await(Reset))
    case Reset => me.(pc := if me.kind.JoinCmd? then Connect else Await(Reply))
    case _ => me.(pc := Exited)
  }

  /** After a critical section of a queue command or server callback. */
  function CommandNext(s: State, me: Actor, sec: Section, c: nat): Actor {
    match sec
    case EnqueueList => me.(pc := if me.kind.OmakaseCmd? then Await(Omakase) else Exited)
    case Omakase =>
      me.(pc := if HasInfo(s, me.guild) && s.heap[s.infos[me.guild]].handle.None? then Await(NestedStart)
                else Await(Show))
    case Flag => me.(pc := Await(FlagReply))
    case Show =>
      if me.guild !in s.infos then me.(pc := Await(FlagReply))
      else me.(pc := Await(ShowList), ptr := s.infos[me.guild])
    case ShowList => me.(pc := Await(ShowReply))
    case Remove =>
      if me.guild !in s.infos then me.(pc := Await(FlagReply))
      else me.(pc := Await(RemoveList), ptr := s.infos[me.guild])
    case RemoveList => me.(pc := Await(RemoveReply))
    case Touch => me.(pc := if c == 0 then Exited else Await(FlagReply))
    case _ => me.(pc := Exited)
  }

  /** After a critical section of the voice event or of a timer pass. */
  function VoiceNext(me: Actor, sec: Section, c: nat): Actor {
    match sec
    case Pass => me.(pc := if c == 0 then Exited else Await(Seed))
    case Seed => me.(pc := if c == 0 then Await(Observe) else Await(Merge))
    case Merge => me.(pc := Await(Observe))
    case Observe => me.(pc := Await(Eval))
    case Eval => me.(pc := if c == 0 then Exited else Await(Seed))
    case _ => me.(pc := Exited)
  }

  /** The critical sections that may change the table or the flags of an object. */
  predicate OnTable(sec: Section) {
    sec.Mark? || sec.Stop? || sec.Erase? || sec.Emplace? || sec.Start? || sec.Enqueue?
  }

  /** After any other critical section. */
  function SectionNext(s: State, me: Actor, sec: Section, c: nat): Actor {
    match sec
    case Look | Pick | PickList | Skip | Clear => AudioNext(s, me, sec, c)
    case JoinLook | Reset | Reply => LifecycleNext(s, me, sec)
    case VoiceEvent | Pass | Seed | Merge | Observe | Eval => VoiceNext(me, sec, c)
    case _ => CommandNext(s, me, sec, c)
  }

  /** The step that performs a critical section's body and leaves it. */
  function SectionStep(s: State, a: Aid, sec: Section, c: nat): State
    requires a in s.actors
  {
    if sec.Mark? then MarkStep(s, a)
    else if sec.Stop? then StopStep(s, a)
    else if sec.Erase? || sec.Emplace? then EraseStep(s, a, sec.Emplace?)
    else if sec.Start? then StartStep(s, a)
    else if sec.Enqueue? then EnqueueStep(s, a)
    else Become(s, a, SectionNext(s, s.actors[a], sec, c))
  }

  /** After a step outside every critical section. */
  function LocalNext(s: State, me: Actor, c: nat): Actor {
    match me.pc
    case Await(sec) => me.(pc := In(sec))
    case Probe => me.(pc := if c == 0 then Await(Look) else Await(Pick))
    case FrameStop => me.(pc := if StopSeen(s, me.ptr) then Drain else FrameSkip)
    case FrameSkip => me.(pc := if c == 0 then Await(Skip) else if c == 1 then Drain else WaitCheck)
    case WaitCheck => me.(pc := if StopSeen(s, me.ptr) || c == 0 then FrameStop else TrySend)
    case TrySend =>
      if c == 0 then me.(pc := Paced, sent := me.sent + 1)
      else me.(pc := if c == 1 then Drain else WaitCheck)
    case Paced => me.(pc := FrameStop)
    case Drain => me.(pc := RepeatCheck)
    case RepeatCheck => me.(pc := if c == 0 then Await(Look) else Await(Clear))
    case Silence => me.(pc := Await(Look))
    case Joining(_) => me.(pc := Disconnect)
    case Disconnect => me.(pc := Await(Erase))
    case Connect => me.(pc := if c == 0 then Await(Emplace) else Await(Reply))
    case _ => me
  }

  /** One step of actor `a`. */
  function Exec(s: State, a: Aid, c: nat): State
    requires Enabled(s, a)
  {
    match s.actors[a].pc
    case In(sec) => SectionStep(s, a, sec, c)
    case DtorJoin(_, emplacing) => AfterErase(s, a, emplacing)
    case _ => Become(s, a, LocalNext(s, s.actors[a], c))
  }

  // ---------------------------------------------------------------- runs

  datatype Label = Run(a: Aid, c: nat) | Spawn(kind: Kind, g: Guild)

  predicate Lifecycle(a: Actor) {
    a.kind.JoinCmd? || a.kind.LeaveCmd?
  }

  predicate Active(s: State, a: Aid) {
    a in s.actors && !s.actors[a].pc.Exited?
  }

  predicate Possible(s: State, l: Label) {
    match l
    case Run(a, _) => Enabled(s, a)
    case Spawn(kind, _) => !kind.Audio?
  }

  /** The stated assumption: a join or leave does not overlap another one, or a remove, of its guild. */
  ghost predicate NoOverlap(s: State, l: Label) {
    match l
    case Run(_, _) => true
    case Spawn(kind, g) =>
      forall a :: Active(s, a) && s.actors[a].guild == g ==>
        && (kind.JoinCmd? || kind.LeaveCmd? ==> !Lifecycle(s.actors[a]) && !s.actors[a].kind.RemoveCmd?)
        && (kind.RemoveCmd? ==> !Lifecycle(s.actors[a]))
  }

  function Apply(s: State, l: Label): State
    requires Possible(s, l)
  {
    match l
    case Run(a, c) => Exec(s, a, c)
    case Spawn(kind, g) => SpawnActor(s, kind, g)
  }

  /** `ls` can be performed from `s`. */
  predicate Feasible(s: State, ls: seq<Label>)
    decreases |ls|
  {
    ls == [] || (Possible(s, ls[0]) && Feasible(Apply(s, ls[0]), ls[1..]))
  }

  /** ... and never starts an overlapping operation. */
  ghost predicate Legal(s: State, ls: seq<Label>)
    decreases |ls|
  {
    ls == [] || (Possible(s, ls[0]) && NoOverlap(s, ls[0]) && Legal(Apply(s, ls[0]), ls[1..]))
  }

  function Final(s: State, ls: seq<Label>): State
    requires Feasible(s, ls)
    decreases |ls|
  {
    if ls == [] then s else Final(Apply(s, ls[0]), ls[1..])
  }

  lemma LegalIsFeasible(s: State, ls: seq<Label>)
    requires Legal(s, ls)
    ensures Feasible(s, ls)
    decreases |ls|
  {
  }
}
