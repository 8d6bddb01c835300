/** ensureDownloaded under the keyed lock: any number of concurrent requests, as a step system, and
    the serial specification it refines. */
module DownloadLock {
  import opened Options

  type Rid = nat      // a call of ensureDownloaded
  type Mid = nat      // a *sync.Mutex of the lock table
  type Path = string

  /** What a file holds: the audio of a video, or what a failed attempt left behind. */
  datatype Audio = Video(url: string) | Litter(owner: Rid)

  /** How the outside world answers one request, should it be asked. */
  datatype Script = Script(mkdirOk: bool, tries: seq<bool>, convertOk: bool, writeOk: bool)

  /** One call: its arguments and the answers it will meet. */
  datatype Job = Job(url: string, path: Path, script: Script)

  const CLIENTS := 3  // android, ios, web

  predicate IsTarget(p: Path) {
    |p| >= 4 && p[|p| - 4..] == ".pcm"
  }

  predicate GoodJob(j: Job) {
    IsTarget(j.path) && |j.script.tries| == CLIENTS
  }

  /** strings.TrimSuffix(targetPath, ".pcm") + ".opus" */
  function OpusPath(p: Path): Path {
    (if IsTarget(p) then p[..|p| - 4] else p) + ".opus"
  }

  lemma OpusPathInjective(p: Path, q: Path)
    requires IsTarget(p) && IsTarget(q) && OpusPath(p) == OpusPath(q)
    ensures p == q
  {
    assert p == p[..|p| - 4] + ".pcm" && q == q[..|q| - 4] + ".pcm";
    assert OpusPath(p)[..|OpusPath(p)| - 5] == p[..|p| - 4];
    assert OpusPath(q)[..|OpusPath(q)| - 5] == q[..|q| - 4];
  }

  // ---------------------------------------------------------------- the concurrent system

  datatype Pc =
    | AwaitTable | InTable | AwaitKey
    | Stat | Mkdir | Try(k: nat) | Convert | Write(pcm: Audio) | RemoveOpus | Unlock
    | Done

  datatype Request = Request(job: Job, pc: Pc, mutex: Mid, turn: nat, ok: bool)

  /** A request that obtained its key lock; the order of these is the serial order. */
  datatype Turn = Turn(r: Rid, job: Job)

  datatype State = State(
    table: Option<Rid>,          // owner of keyedMutex.mu
    locks: map<Path, Mid>,
    owner: map<Mid, Rid>,
    files: map<Path, Audio>,
    scratch: map<Path, Audio>,
    reqs: map<Rid, Request>,
    nextMid: Mid,
    nextRid: Rid,
    order: seq<Turn>,
    written: seq<Path>)          // successful downloads, in order

  function Start(files: map<Path, Audio>): State {
    State(None, map[], map[], files, map[], map[], 0, 0, [], [])
  }

  datatype Label = Call(job: Job) | Go(r: Rid)

  predicate Enabled(s: State, r: Rid) {
    && r in s.reqs
    && match s.reqs[r].pc
       case AwaitTable => s.table.None?
       case AwaitKey => s.reqs[r].mutex !in s.owner
       case Done => false
       case _ => true
  }

  function At(s: State, r: Rid, q: Request): State {
    s.(reqs := s.reqs[r := q])
  }

  /** keyedMutex.Lock between mu.Lock and mu.Unlock. */
  function Lookup(s: State, r: Rid): State
    requires r in s.reqs
  {
    var q := s.reqs[r];
    if q.job.path in s.locks then At(s, r, q.(pc := AwaitKey, mutex := s.locks[q.job.path])).(table := None)
    else At(s, r, q.(pc := AwaitKey, mutex := s.nextMid))
         .(table := None, locks := s.locks[q.job.path := s.nextMid], nextMid := s.nextMid + 1)
  }

  /** What a step inside the key lock changes. */
  datatype Effect = Effect(q: Request, files: map<Path, Audio>, scratch: map<Path, Audio>, written: seq<Path>)

  /** One attempt of yt-dlp; a failed one may leave a partial file. */
  function TryEffect(s: State, q: Request, r: Rid, k: nat): Effect {
    var opus := OpusPath(q.job.path);
    if k >= |q.job.script.tries| then Effect(q.(pc := Unlock, ok := false), s.files, s.scratch, s.written)
    else if q.job.script.tries[k] then
      Effect(q.(pc := Convert), s.files, s.scratch[opus := Video(q.job.url)], s.written)
    else Effect(q.(pc := Try(k + 1)), s.files, s.scratch[opus := Litter(r)], s.written)
  }

  /** The body of ensureDownloaded: stat, then downloadAndConvert. */
  function Body(s: State, q: Request, r: Rid): Effect {
    var opus := OpusPath(q.job.path);
    match q.pc
    case Stat =>
      Effect(if q.job.path in s.files then q.(pc := Unlock, ok := true) else q.(pc := Mkdir),
             s.files, s.scratch, s.written)
    case Mkdir =>
      Effect(if q.job.script.mkdirOk then q.(pc := Try(0)) else q.(pc := Unlock, ok := false),
             s.files, s.scratch, s.written)
    case Try(k) => TryEffect(s, q, r, k)
    case Convert =>  // ffmpeg reads whatever is in the scratch file
      Effect(if q.job.script.convertOk && opus in s.scratch then q.(pc := Write(s.scratch[opus]))
             else q.(pc := RemoveOpus, ok := false),
             s.files, s.scratch, s.written)
    case Write(pcm) =>
      if q.job.script.writeOk then
        Effect(q.(pc := RemoveOpus, ok := true), s.files[q.job.path := pcm], s.scratch, s.written + [q.job.path])
      else Effect(q.(pc := RemoveOpus, ok := false), s.files, s.scratch, s.written)
    case _ => Effect(q.(pc := Unlock), s.files, s.scratch - {opus}, s.written)
  }

  function Inner(s: State, r: Rid, e: Effect): State {
    s.(reqs := s.reqs[r := e.q], files := e.files, scratch := e.scratch, written := e.written)
  }

  function Exec(s: State, r: Rid): State
    requires Enabled(s, r)
  {
    var q := s.reqs[r];
    match q.pc
    case AwaitTable => At(s, r, q.(pc := InTable)).(table := Some(r))
    case InTable => Lookup(s, r)
    case AwaitKey =>
      At(s, r, q.(pc := Stat, turn := |s.order|)).(owner := s.owner[q.mutex := r], order := s.order + [Turn(r, q.job)])
    case Unlock => At(s, r, q.(pc := Done)).(owner := s.owner - {q.mutex})
    case _ => Inner(s, r, Body(s, q, r))
  }

  predicate Possible(s: State, l: Label) {
    match l
    case Call(job) => GoodJob(job)
    case Go(r) => Enabled(s, r)
  }

  function Apply(s: State, l: Label): State
    requires Possible(s, l)
  {
    match l
    case Call(job) => At(s, s.nextRid, Request(job, AwaitTable, 0, 0, false)).(nextRid := s.nextRid + 1)
    case Go(r) => Exec(s, r)
  }

  predicate Feasible(s: State, ls: seq<Label>)
    decreases |ls|
  {
    ls == [] || (Possible(s, ls[0]) && Feasible(Apply(s, ls[0]), ls[1..]))
  }

  function Final(s: State, ls: seq<Label>): State
    requires Feasible(s, ls)
    decreases |ls|
  {
    if ls == [] then s else Final(Apply(s, ls[0]), ls[1..])
  }

  // ---------------------------------------------------------------- the serial specification

  predicate Downloads(j: Job) {
    j.script.mkdirOk && true in j.script.tries && j.script.convertOk && j.script.writeOk
  }

  datatype Serial = Serial(files: map<Path, Audio>, results: map<Rid, bool>)

  /** The calls one after the other: download only what is missing. */
  function RunSerially(files: map<Path, Audio>, order: seq<Turn>): Serial {
    if order == [] then Serial(files, map[])
    else
      var before := RunSerially(files, order[..|order| - 1]);
      var t := order[|order| - 1];
      if t.job.path in before.files then before.(results := before.results[t.r := true])
      else if Downloads(t.job) then
        Serial(before.files[t.job.path := Video(t.job.url)], before.results[t.r := true])
      else before.(results := before.results[t.r := false])
  }
}
