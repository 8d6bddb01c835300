/** Every interleaving of ensureDownloaded calls has the files and results of the serial run in
    key-lock order. */
module DownloadProofs {
  import opened Options
  import opened DownloadLock

  // ---------------------------------------------------------------- one path of the serial run

  /** The file at `p` after the serial run of `order`. */
  function FileAfter(start: Option<Audio>, order: seq<Turn>, p: Path): Option<Audio> {
    if order == [] then start
    else
      var before := FileAfter(start, order[..|order| - 1], p);
      var job := order[|order| - 1].job;
      if job.path == p && before.None? && Downloads(job) then Some(Video(job.url)) else before
  }

  lemma {:induction false} FileAfterIsSerial(files: map<Path, Audio>, order: seq<Turn>, p: Path)
    ensures Get(RunSerially(files, order).files, p) == FileAfter(Get(files, p), order, p)
  {
    if order != [] {
      FileAfterIsSerial(files, order[..|order| - 1], p);
      FileAfterIsSerial(files, order[..|order| - 1], order[|order| - 1].job.path);
    }
  }

  /** Turns of other paths do not matter. */
  lemma {:induction false} OtherTurnsIgnored(start: Option<Audio>, order: seq<Turn>, k: nat, p: Path)
    requires k <= |order| && forall j :: k <= j < |order| ==> order[j].job.path != p
    ensures FileAfter(start, order, p) == FileAfter(start, order[..k], p)
  {
    if k < |order| {
      var front := order[..|order| - 1];
      OtherTurnsIgnored(start, front, k, p);
      assert front[..k] == order[..k];
    } else {
      assert order[..k] == order;
    }
  }

  /** The serial answer of the call at position `k`. */
  predicate SerialOk(files: map<Path, Audio>, order: seq<Turn>, k: nat)
    requires k < |order|
  {
    FileAfter(Get(files, order[k].job.path), order[..k], order[k].job.path).Some? || Downloads(order[k].job)
  }

  ghost predicate Distinct(order: seq<Turn>) {
    forall i, j :: 0 <= i < j < |order| ==> order[i].r != order[j].r
  }

  lemma {:induction false} ResultIsSerial(files: map<Path, Audio>, order: seq<Turn>, k: nat)
    requires k < |order| && Distinct(order)
    ensures order[k].r in RunSerially(files, order).results
    ensures RunSerially(files, order).results[order[k].r] == SerialOk(files, order, k)
  {
    var n := |order| - 1;
    var front := order[..n];
    FileAfterIsSerial(files, front, order[n].job.path);
    if k < n {
      assert front[k] == order[k] && front[..k] == order[..k];
      ResultIsSerial(files, front, k);
    }
  }

  // ---------------------------------------------------------------- the invariant

  predicate KnowsMutex(pc: Pc) {
    !pc.AwaitTable? && !pc.InTable?
  }

  predicate Holding(pc: Pc) {
    KnowsMutex(pc) && !pc.AwaitKey? && !pc.Done?
  }

  /** Before the call's effect on the target file. */
  predicate InProgress(pc: Pc) {
    pc.Stat? || pc.Mkdir? || pc.Try? || pc.Convert? || pc.Write?
  }

  predicate Settled(pc: Pc) {
    pc.RemoveOpus? || pc.Unlock? || pc.Done?
  }

  ghost predicate LocksOk(s: State) {
    && (forall p :: p in s.locks ==> s.locks[p] < s.nextMid)
    && (forall p, q :: p in s.locks && q in s.locks && s.locks[p] == s.locks[q] ==> p == q)
    && (forall r :: r in s.reqs ==> r < s.nextRid && GoodJob(s.reqs[r].job))
    && (forall r :: r in s.reqs && KnowsMutex(s.reqs[r].pc) ==>
          s.reqs[r].job.path in s.locks && s.reqs[r].mutex == s.locks[s.reqs[r].job.path])
    && (forall r :: r in s.reqs && Holding(s.reqs[r].pc) ==>
          s.reqs[r].mutex in s.owner && s.owner[s.reqs[r].mutex] == r)
    && (forall m :: m in s.owner ==>
          s.owner[m] in s.reqs && Holding(s.reqs[s.owner[m]].pc) && s.reqs[s.owner[m]].mutex == m)
    && (forall r :: r in s.reqs ==> (s.reqs[r].pc.InTable? <==> s.table == Some(r)))
    && (s.table.Some? ==> s.table.value in s.reqs)
  }

  /** What the call has been answered so far. */
  predicate ScriptOk(s: State, q: Request, r: Rid) {
    var e := q.job.script;
    match q.pc
    case Try(k) => k <= |e.tries| && e.mkdirOk && true !in e.tries[..k]
    case Convert => e.mkdirOk && true in e.tries && Get(s.scratch, OpusPath(q.job.path)) == Some(Video(q.job.url))
    case Write(pcm) => e.mkdirOk && true in e.tries && e.convertOk && pcm == Video(q.job.url)
    case _ => true
  }

  ghost predicate TurnOk(s: State, f0: map<Path, Audio>, r: Rid)
    requires r in s.reqs
  {
    var q := s.reqs[r];
    && (KnowsMutex(q.pc) && !q.pc.AwaitKey? ==> q.turn < |s.order| && s.order[q.turn] == Turn(r, q.job))
    && (InProgress(q.pc) ==>
          && Get(s.files, q.job.path) == FileAfter(Get(f0, q.job.path), s.order[..q.turn], q.job.path)
          && (!q.pc.Stat? ==> q.job.path !in s.files)
          && forall j :: q.turn < j < |s.order| ==> s.order[j].job.path != q.job.path)
    && (Settled(q.pc) ==> q.ok == SerialOk(f0, s.order, q.turn) && (q.ok ==> q.job.path in s.files))
    && ScriptOk(s, q, r)
  }

  predicate Busy(s: State, r: Rid, p: Path) {
    r in s.reqs && InProgress(s.reqs[r].pc) && s.reqs[r].job.path == p
  }

  ghost predicate FilesOk(s: State, f0: map<Path, Audio>) {
    forall p :: (forall r :: !Busy(s, r, p)) ==> Get(s.files, p) == FileAfter(Get(f0, p), s.order, p)
  }

  ghost predicate OrderOk(s: State) {
    && Distinct(s.order)
    && forall i :: 0 <= i < |s.order| ==>
         var t := s.order[i];
         t.r in s.reqs && t.job == s.reqs[t.r].job && KnowsMutex(s.reqs[t.r].pc) && !s.reqs[t.r].pc.AwaitKey?
  }

  /** No path is downloaded twice, and only paths that were missing are downloaded. */
  ghost predicate WrittenOk(s: State, f0: map<Path, Audio>) {
    && (forall p :: p in f0 ==> p in s.files)
    && (forall i :: 0 <= i < |s.written| ==> s.written[i] in s.files && s.written[i] !in f0)
    && (forall i, j :: 0 <= i < j < |s.written| ==> s.written[i] != s.written[j])
  }

  ghost predicate Inv(s: State, f0: map<Path, Audio>) {
    LocksOk(s) && OrderOk(s) && FilesOk(s, f0) && WrittenOk(s, f0) && forall r :: r in s.reqs ==> TurnOk(s, f0, r)
  }

  /** The key lock excludes: two holders of one path are the same call. */
  lemma HoldersDiffer(s: State, r: Rid, q: Rid)
    requires LocksOk(s) && r in s.reqs && q in s.reqs && r != q
    requires Holding(s.reqs[r].pc) && Holding(s.reqs[q].pc)
    ensures s.reqs[r].job.path != s.reqs[q].job.path
    ensures OpusPath(s.reqs[r].job.path) != OpusPath(s.reqs[q].job.path)
  {
    if OpusPath(s.reqs[r].job.path) == OpusPath(s.reqs[q].job.path) {
      OpusPathInjective(s.reqs[r].job.path, s.reqs[q].job.path);
    }
  }

  // ---------------------------------------------------------------- preservation

  /** A step inside the key lock keeps the call's identity and the lock. */
  predicate SameCall(q: Request, q': Request) {
    q'.job == q.job && q'.mutex == q.mutex && q'.turn == q.turn && Holding(q.pc) && Holding(q'.pc)
  }

  lemma BodySameCall(s: State, q: Request, r: Rid)
    requires Holding(q.pc) && !q.pc.Unlock?
    ensures SameCall(q, Body(s, q, r).q)
  {
  }

  lemma InnerKeepsLocks(s: State, r: Rid, e: Effect)
    requires LocksOk(s) && r in s.reqs && SameCall(s.reqs[r], e.q)
    ensures LocksOk(Inner(s, r, e))
  {
    hide GoodJob;
  }

  lemma InnerKeepsOrder(s: State, r: Rid, e: Effect)
    requires OrderOk(s) && r in s.reqs && SameCall(s.reqs[r], e.q)
    ensures OrderOk(Inner(s, r, e))
  {
    hide Distinct;
  }

  lemma LookupKeepsLocks(s: State, r: Rid)
    requires LocksOk(s) && Enabled(s, r) && s.reqs[r].pc.InTable?
    ensures LocksOk(Lookup(s, r))
  {
    hide GoodJob, Lookup;
    assert s.table == Some(r);
    var path := s.reqs[r].job.path;
    if path in s.locks {
      LookupFound(s, r);
    } else {
      LookupFresh(s, r);
    }
  }

  lemma LookupFound(s: State, r: Rid)
    requires LocksOk(s) && r in s.reqs && s.reqs[r].pc.InTable? && s.reqs[r].job.path in s.locks
    ensures LocksOk(Lookup(s, r))
  {
    hide GoodJob;
  }

  lemma LookupFresh(s: State, r: Rid)
    requires LocksOk(s) && r in s.reqs && s.reqs[r].pc.InTable? && s.reqs[r].job.path !in s.locks
    ensures LocksOk(Lookup(s, r))
  {
    hide GoodJob;
  }

  lemma LookupKeepsOrder(s: State, r: Rid)
    requires OrderOk(s) && Enabled(s, r) && (s.reqs[r].pc.InTable? || s.reqs[r].pc.AwaitTable?)
    ensures OrderOk(Exec(s, r))
  {
    hide Distinct;
  }

  lemma EnterTable(s: State, r: Rid)
    requires LocksOk(s) && Enabled(s, r) && s.reqs[r].pc.AwaitTable?
    ensures LocksOk(Exec(s, r))
  {
    hide GoodJob;
  }

  lemma EnterKey(s: State, r: Rid)
    requires LocksOk(s) && Enabled(s, r) && s.reqs[r].pc.AwaitKey?
    ensures LocksOk(Exec(s, r))
  {
    hide GoodJob;
  }

  lemma EnterKeepsOrder(s: State, r: Rid)
    requires OrderOk(s) && Enabled(s, r) && s.reqs[r].pc.AwaitKey?
    ensures OrderOk(Exec(s, r))
  {
    assert forall i :: 0 <= i < |s.order| ==> s.order[i].r != r;
  }

  lemma UnlockKeepsLocks(s: State, r: Rid)
    requires LocksOk(s) && OrderOk(s) && Enabled(s, r) && s.reqs[r].pc.Unlock?
    ensures LocksOk(Exec(s, r))
  {
    hide GoodJob, OrderOk;
  }

  lemma UnlockKeepsOrder(s: State, r: Rid)
    requires OrderOk(s) && Enabled(s, r) && s.reqs[r].pc.Unlock?
    ensures OrderOk(Exec(s, r))
  {
    hide Distinct;
  }

  lemma LocksKept(s: State, r: Rid)
    requires LocksOk(s) && OrderOk(s) && Enabled(s, r)
    ensures LocksOk(Exec(s, r)) && OrderOk(Exec(s, r))
  {
    hide LocksOk, OrderOk, Lookup;
    var pc := s.reqs[r].pc;
    if pc.AwaitTable? {
      EnterTable(s, r);
      LookupKeepsOrder(s, r);
    } else if pc.AwaitKey? {
      EnterKey(s, r);
      EnterKeepsOrder(s, r);
    } else if pc.InTable? {
      LookupKeepsLocks(s, r);
      LookupKeepsOrder(s, r);
    } else if pc.Unlock? {
      UnlockKeepsLocks(s, r);
      UnlockKeepsOrder(s, r);
    } else {
      BodySameCall(s, s.reqs[r], r);
      InnerKeepsLocks(s, r, Body(s, s.reqs[r], r));
      InnerKeepsOrder(s, r, Body(s, s.reqs[r], r));
    }
  }

  lemma CallKeepsLocks(s: State, job: Job)
    requires LocksOk(s) && OrderOk(s) && GoodJob(job)
    ensures LocksOk(Apply(s, Call(job))) && OrderOk(Apply(s, Call(job)))
  {
    hide GoodJob, Distinct;
    assert OrderOk(Apply(s, Call(job)));
    hide OrderOk;
  }

  // ---------------------------------------------------------------- turns and files

  /** Actions outside the body leave files, scratch and every other call's turn as they are. */
  ghost predicate Quiet(s: State, s': State, r: Rid) {
    && s'.files == s.files && s'.scratch == s.scratch && s'.written == s.written && s'.order == s.order
    && (forall q :: q in s.reqs && q != r ==> q in s'.reqs && s'.reqs[q] == s.reqs[q])
    && (forall q :: q in s'.reqs && q != r ==> q in s.reqs)
    && r in s'.reqs && (r in s.reqs ==> !InProgress(s.reqs[r].pc)) && !InProgress(s'.reqs[r].pc)
  }

  lemma QuietKeeps(s: State, s': State, f0: map<Path, Audio>, r: Rid)
    requires Inv(s, f0) && Quiet(s, s', r) && TurnOk(s', f0, r)
    ensures FilesOk(s', f0) && WrittenOk(s', f0) && forall q :: q in s'.reqs ==> TurnOk(s', f0, q)
  {
    hide FileAfter, SerialOk, LocksOk, OrderOk, OpusPath;
    forall p | forall q :: !Busy(s', q, p) ensures Get(s'.files, p) == FileAfter(Get(f0, p), s'.order, p) {
      forall q ensures !Busy(s, q, p) {
        assert !Busy(s', q, p);
      }
    }
    forall q | q in s'.reqs ensures TurnOk(s', f0, q) {
      if q != r {
        assert TurnOk(s, f0, q);
      }
    }
    hide TurnOk, ScriptOk;
  }

  /** Taking the key lock: the call becomes the last turn of its path. */
  lemma AcquireKeeps(s: State, f0: map<Path, Audio>, r: Rid)
    requires Inv(s, f0) && Enabled(s, r) && s.reqs[r].pc.AwaitKey?
    ensures FilesOk(Exec(s, r), f0) && WrittenOk(Exec(s, r), f0)
    ensures forall q :: q in Exec(s, r).reqs ==> TurnOk(Exec(s, r), f0, q)
  {
    hide FileAfter, TurnOk, OrderOk, LocksOk, OpusPath;
    var s' := Exec(s, r);
    var path := s.reqs[r].job.path;
    NobodyBusy(s, r);
    assert s'.order[..|s.order|] == s.order;
    forall p | forall q :: !Busy(s', q, p) ensures Get(s'.files, p) == FileAfter(Get(f0, p), s'.order, p) {
      assert !Busy(s', r, p) && p != path;
      forall q ensures !Busy(s, q, p) {
        assert !Busy(s', q, p);
      }
      OtherTurnsIgnored(Get(f0, p), s'.order, |s.order|, p);
    }
    forall q | q in s'.reqs ensures TurnOk(s', f0, q) {
      if q != r {
        AcquireKeepsTurn(s, f0, r, q);
      } else {
        AcquireOwnTurn(s, f0, r);
      }
    }
  }

  lemma AcquireOwnTurn(s: State, f0: map<Path, Audio>, r: Rid)
    requires LocksOk(s) && FilesOk(s, f0) && Enabled(s, r) && s.reqs[r].pc.AwaitKey?
    ensures TurnOk(Exec(s, r), f0, r)
  {
    hide FileAfter;
    NobodyBusy(s, r);
    assert Exec(s, r).order[..|s.order|] == s.order;
  }

  lemma NobodyBusy(s: State, r: Rid)
    requires LocksOk(s) && Enabled(s, r) && s.reqs[r].pc.AwaitKey?
    ensures forall q :: !Busy(s, q, s.reqs[r].job.path)
  {
    var path := s.reqs[r].job.path;
    assert forall q :: q in s.reqs && Holding(s.reqs[q].pc) && s.reqs[q].job.path == path ==>
      s.reqs[q].mutex == s.reqs[r].mutex && s.reqs[q].mutex in s.owner;
  }

  lemma AcquireKeepsTurn(s: State, f0: map<Path, Audio>, r: Rid, q: Rid)
    requires LocksOk(s) && Enabled(s, r) && s.reqs[r].pc.AwaitKey? && q in s.reqs && q != r && TurnOk(s, f0, q)
    ensures TurnOk(Exec(s, r), f0, q)
  {
    hide FileAfter, Downloads, OpusPath;
    var s' := Exec(s, r);
    NobodyBusy(s, r);
    assert !Busy(s, q, s.reqs[r].job.path);
    var k := s.reqs[q].turn;
    if k < |s.order| {
      assert s'.order[..k] == s.order[..k] && s'.order[k] == s.order[k];
    }
  }

  /** The turn of a call that takes a step of the body. */
  lemma StatOwnTurn(s: State, f0: map<Path, Audio>, r: Rid)
    requires TurnOk'(s, f0, r) && (s.reqs[r].pc.Stat? || s.reqs[r].pc.Mkdir? || s.reqs[r].pc.RemoveOpus?)
    ensures TurnOk(Inner(s, r, Body(s, s.reqs[r], r)), f0, r)
  {
    hide FileAfter, OpusPath;
    assert s.reqs[r].job.script.tries[..0] == [];
  }

  lemma TryOwnTurn(s: State, f0: map<Path, Audio>, r: Rid)
    requires TurnOk'(s, f0, r) && s.reqs[r].pc.Try? && s.reqs[r].pc.k < |s.reqs[r].job.script.tries|
    ensures TurnOk(Inner(s, r, Body(s, s.reqs[r], r)), f0, r)
  {
    hide FileAfter, OpusPath, SerialOk, Downloads;
    var tries, k := s.reqs[r].job.script.tries, s.reqs[r].pc.k;
    assert tries[..k + 1] == tries[..k] + [tries[k]];
    assert tries[k] in tries;
  }

  lemma LastTryOwnTurn(s: State, f0: map<Path, Audio>, r: Rid)
    requires TurnOk'(s, f0, r) && s.reqs[r].pc.Try? && s.reqs[r].pc.k >= |s.reqs[r].job.script.tries|
    ensures TurnOk(Inner(s, r, Body(s, s.reqs[r], r)), f0, r)
  {
    hide FileAfter, OpusPath;
    var tries, k := s.reqs[r].job.script.tries, s.reqs[r].pc.k;
    assert tries[..k] == tries;
  }

  lemma ConvertOwnTurn(s: State, f0: map<Path, Audio>, r: Rid)
    requires TurnOk'(s, f0, r) && (s.reqs[r].pc.Convert? || s.reqs[r].pc.Write?)
    ensures TurnOk(Inner(s, r, Body(s, s.reqs[r], r)), f0, r)
  {
    hide FileAfter, OpusPath;
  }

  ghost predicate TurnOk'(s: State, f0: map<Path, Audio>, r: Rid) {
    r in s.reqs && TurnOk(s, f0, r)
  }

  lemma BodyOwnTurn(s: State, f0: map<Path, Audio>, r: Rid)
    requires TurnOk'(s, f0, r) && Holding(s.reqs[r].pc) && !s.reqs[r].pc.Unlock?
    ensures TurnOk(Inner(s, r, Body(s, s.reqs[r], r)), f0, r)
  {
    hide TurnOk, Body;
    match s.reqs[r].pc {
      case Stat | Mkdir | RemoveOpus => StatOwnTurn(s, f0, r);
      case Try(k) =>
        if k < |s.reqs[r].job.script.tries| {
          TryOwnTurn(s, f0, r);
        } else {
          LastTryOwnTurn(s, f0, r);
        }
      case Convert | Write(_) => ConvertOwnTurn(s, f0, r);
    }
  }

  /** ... leaves the turns of the other calls alone: they hold other locks, so other files. */
  lemma BodyOtherTurn(s: State, f0: map<Path, Audio>, r: Rid, o: Rid)
    requires LocksOk(s) && TurnOk'(s, f0, r) && TurnOk'(s, f0, o) && o != r
    requires Holding(s.reqs[r].pc) && !s.reqs[r].pc.Unlock?
    ensures TurnOk(Inner(s, r, Body(s, s.reqs[r], r)), f0, o)
  {
    hide FileAfter, OpusPath, Downloads;
    if Holding(s.reqs[o].pc) {
      HoldersDiffer(s, r, o);
    }
    BodyFrame(s, s.reqs[r], r);
  }

  /** The files and scratch files a body step may touch. */
  lemma BodyFrame(s: State, q: Request, r: Rid)
    ensures var e := Body(s, q, r);
      && (forall p :: p != q.job.path ==> Get(e.files, p) == Get(s.files, p))
      && (forall p :: p != OpusPath(q.job.path) ==> Get(e.scratch, p) == Get(s.scratch, p))
      && (forall p :: p in s.files ==> p in e.files)
  {
    hide OpusPath;
  }

  lemma BodyKeepsFiles(s: State, f0: map<Path, Audio>, r: Rid)
    requires LocksOk(s) && FilesOk(s, f0) && TurnOk'(s, f0, r) && Holding(s.reqs[r].pc) && !s.reqs[r].pc.Unlock?
    ensures FilesOk(Inner(s, r, Body(s, s.reqs[r], r)), f0)
  {
    hide FileAfter, OpusPath, LocksOk;
    var q := s.reqs[r];
    var s' := Inner(s, r, Body(s, q, r));
    BodyFrame(s, q, r);
    forall p | forall o :: !Busy(s', o, p) ensures Get(s'.files, p) == FileAfter(Get(f0, p), s'.order, p) {
      if p == q.job.path && InProgress(q.pc) {
        assert !Busy(s', r, p);
        EffectOnFile(s, f0, r);
      } else {
        forall o ensures !Busy(s, o, p) {
          assert !Busy(s', o, p);
        }
        if p == q.job.path {
          assert q.pc.RemoveOpus?;
        }
      }
    }
  }

  /** The step that ends a call's effect leaves its file as the serial run has it after this turn,
      and so, the later turns being of other paths, after all turns. */
  lemma EffectOnFile(s: State, f0: map<Path, Audio>, r: Rid)
    requires TurnOk'(s, f0, r) && InProgress(s.reqs[r].pc) && Settled(Body(s, s.reqs[r], r).q.pc)
    ensures Get(Body(s, s.reqs[r], r).files, s.reqs[r].job.path)
         == FileAfter(Get(f0, s.reqs[r].job.path), s.order, s.reqs[r].job.path)
  {
    hide OpusPath;
    var q := s.reqs[r];
    var p, k := q.job.path, q.turn;
    OtherTurnsIgnored(Get(f0, p), s.order, k + 1, p);
    assert s.order[..k + 1][..k] == s.order[..k];
  }

  lemma BodyKeepsWritten(s: State, f0: map<Path, Audio>, r: Rid)
    requires WrittenOk(s, f0) && TurnOk'(s, f0, r)
    ensures WrittenOk(Inner(s, r, Body(s, s.reqs[r], r)), f0)
  {
    hide FileAfter, OpusPath, SerialOk;
  }

  lemma BodyKeeps(s: State, f0: map<Path, Audio>, r: Rid)
    requires Inv(s, f0) && Enabled(s, r) && Holding(s.reqs[r].pc) && !s.reqs[r].pc.Unlock?
    ensures FilesOk(Exec(s, r), f0) && WrittenOk(Exec(s, r), f0)
    ensures forall q :: q in Exec(s, r).reqs ==> TurnOk(Exec(s, r), f0, q)
  {
    hide TurnOk, LocksOk, OrderOk, FilesOk, WrittenOk, Body;
    BodyKeepsFiles(s, f0, r);
    BodyKeepsWritten(s, f0, r);
    BodyOwnTurn(s, f0, r);
    forall q | q in s.reqs && q != r ensures TurnOk(Exec(s, r), f0, q) {
      BodyOtherTurn(s, f0, r, q);
    }
  }

  lemma StepKeepsInv(s: State, f0: map<Path, Audio>, l: Label)
    requires Inv(s, f0) && Possible(s, l)
    ensures Inv(Apply(s, l), f0)
  {
    match l {
      case Call(job) =>
        CallKeepsLocks(s, job);
        CallQuiet(s, f0, job);
        QuietKeeps(s, Apply(s, l), f0, s.nextRid);
      case Go(r) =>
        LocksKept(s, r);
        var pc := s.reqs[r].pc;
        if pc.AwaitKey? {
          AcquireKeeps(s, f0, r);
        } else if Holding(pc) && !pc.Unlock? {
          BodyKeeps(s, f0, r);
        } else {
          GoQuiet(s, f0, r);
          QuietKeeps(s, Exec(s, r), f0, r);
        }
    }
  }

  lemma CallQuiet(s: State, f0: map<Path, Audio>, job: Job)
    requires Inv(s, f0) && GoodJob(job)
    ensures Quiet(s, Apply(s, Call(job)), s.nextRid) && TurnOk(Apply(s, Call(job)), f0, s.nextRid)
  {
  }

  lemma GoQuiet(s: State, f0: map<Path, Audio>, r: Rid)
    requires Inv(s, f0) && Enabled(s, r) && (s.reqs[r].pc.AwaitTable? || s.reqs[r].pc.InTable? || s.reqs[r].pc.Unlock?)
    ensures Quiet(s, Exec(s, r), r) && TurnOk(Exec(s, r), f0, r)
  {
    hide FileAfter, LocksOk, OrderOk, FilesOk, WrittenOk, SerialOk, OpusPath, Body, TryEffect, Lookup;
    assert TurnOk(s, f0, r);
    if s.reqs[r].pc.InTable? {
      LookupQuiet(s, f0, r);
    }
  }

  lemma LookupQuiet(s: State, f0: map<Path, Audio>, r: Rid)
    requires r in s.reqs && s.reqs[r].pc.InTable?
    ensures Quiet(s, Lookup(s, r), r) && TurnOk(Lookup(s, r), f0, r)
  {
    hide FileAfter, SerialOk, OpusPath;
    assert TurnOk(Lookup(s, r), f0, r);
    hide TurnOk, ScriptOk;
  }

  lemma {:induction false} RunKeepsInv(s: State, f0: map<Path, Audio>, ls: seq<Label>)
    requires Inv(s, f0) && Feasible(s, ls)
    ensures Inv(Final(s, ls), f0)
    decreases |ls|
  {
    hide Inv;
    if ls != [] {
      StepKeepsInv(s, f0, ls[0]);
      RunKeepsInv(Apply(s, ls[0]), f0, ls[1..]);
    }
  }

  lemma StartInv(f0: map<Path, Audio>)
    ensures Inv(Start(f0), f0)
  {
  }

  // ---------------------------------------------------------------- what every run gives

  /** Refinement: in every run, each finished call has the result it has when the calls are run one
      by one in the order they obtained the key lock; when no call is in progress on a path, its file
      is the serial one; so when all calls are done the files are. */
  lemma RefinesSerial(f0: map<Path, Audio>, ls: seq<Label>)
    requires Feasible(Start(f0), ls)
    ensures var s := Final(Start(f0), ls); var spec := RunSerially(f0, s.order);
      && (forall r :: r in s.reqs && s.reqs[r].pc.Done? ==> r in spec.results && spec.results[r] == s.reqs[r].ok)
      && (forall p :: (forall r :: !Busy(s, r, p)) ==> Get(s.files, p) == Get(spec.files, p))
      && ((forall r :: r in s.reqs ==> s.reqs[r].pc.Done?) ==> s.files == spec.files)
  {
    StartInv(f0);
    RunKeepsInv(Start(f0), f0, ls);
    InvRefines(Final(Start(f0), ls), f0);
  }

  lemma InvRefines(s: State, f0: map<Path, Audio>)
    requires Inv(s, f0)
    ensures var spec := RunSerially(f0, s.order);
      && (forall r :: r in s.reqs && s.reqs[r].pc.Done? ==> r in spec.results && spec.results[r] == s.reqs[r].ok)
      && (forall p :: (forall r :: !Busy(s, r, p)) ==> Get(s.files, p) == Get(spec.files, p))
      && ((forall r :: r in s.reqs ==> s.reqs[r].pc.Done?) ==> s.files == spec.files)
  {
    hide FileAfter, RunSerially, OpusPath, Downloads, LocksOk, WrittenOk;
    var spec := RunSerially(f0, s.order);
    forall r | r in s.reqs && s.reqs[r].pc.Done? ensures r in spec.results && spec.results[r] == s.reqs[r].ok {
      assert TurnOk(s, f0, r);
      ResultIsSerial(f0, s.order, s.reqs[r].turn);
    }
    forall p | forall r :: !Busy(s, r, p) ensures Get(s.files, p) == Get(spec.files, p) {
      FileAfterIsSerial(f0, s.order, p);
    }
    if forall r :: r in s.reqs ==> s.reqs[r].pc.Done? {
      forall p ensures Get(s.files, p) == Get(spec.files, p) {
        assert forall r :: !Busy(s, r, p);
      }
      SameFiles(s.files, spec.files);
    }
  }

  lemma SameFiles(f: map<Path, Audio>, g: map<Path, Audio>)
    requires forall p :: Get(f, p) == Get(g, p)
    ensures f == g
  {
    forall p ensures p in f <==> p in g {
      assert Get(f, p) == Get(g, p);
    }
    forall p | p in f ensures f[p] == g[p] {
      assert Get(f, p) == Get(g, p);
    }
  }

  /** A path is downloaded at most once in a whole run, never when its file was there at the start,
      and a call that answers nil finds its file. */
  lemma DownloadedOnce(f0: map<Path, Audio>, ls: seq<Label>)
    requires Feasible(Start(f0), ls)
    ensures var s := Final(Start(f0), ls);
      && (forall i, j :: 0 <= i < j < |s.written| ==> s.written[i] != s.written[j])
      && (forall i :: 0 <= i < |s.written| ==> s.written[i] !in f0)
      && (forall r :: r in s.reqs && s.reqs[r].pc.Done? && s.reqs[r].ok ==> s.reqs[r].job.path in s.files)
  {
    StartInv(f0);
    RunKeepsInv(Start(f0), f0, ls);
    var s := Final(Start(f0), ls);
    forall r | r in s.reqs && s.reqs[r].pc.Done? && s.reqs[r].ok ensures s.reqs[r].job.path in s.files {
      assert TurnOk(s, f0, r);
    }
  }

  /** A blocked call waits for an actor that can step: the holder of the table lock, or the holder of
      the lock of its own path.  So calls on different paths never wait for each other's downloads. */
  lemma BlockedOnOwnPath(s: State, f0: map<Path, Audio>, r: Rid) returns (o: Rid)
    requires Inv(s, f0) && r in s.reqs && !s.reqs[r].pc.Done? && !Enabled(s, r)
    ensures o in s.reqs && o != r && Enabled(s, o)
    ensures s.reqs[o].pc.InTable? || (Holding(s.reqs[o].pc) && s.reqs[o].job.path == s.reqs[r].job.path)
  {
    if s.reqs[r].pc.AwaitTable? {
      o := s.table.value;
    } else {
      o := s.owner[s.reqs[r].mutex];
      assert s.reqs[o].mutex == s.reqs[r].mutex;
    }
  }

  /** The lock table only grows and a key keeps its mutex. */
  lemma LockTableGrows(s: State, l: Label)
    requires Possible(s, l)
    ensures forall p :: p in s.locks ==> p in Apply(s, l).locks && Apply(s, l).locks[p] == s.locks[p]
  {
    hide OpusPath, Body;
  }

  lemma {:induction false} LockTableOnlyGrows(s: State, ls: seq<Label>)
    requires Feasible(s, ls)
    ensures forall p :: p in s.locks ==> p in Final(s, ls).locks && Final(s, ls).locks[p] == s.locks[p]
    decreases |ls|
  {
    hide Exec;
    if ls != [] {
      LockTableGrows(s, ls[0]);
      LockTableOnlyGrows(Apply(s, ls[0]), ls[1..]);
    }
  }

  /** In every run distinct keys have distinct mutexes, and no call holds two of them. */
  lemma OneMutexEach(f0: map<Path, Audio>, ls: seq<Label>)
    requires Feasible(Start(f0), ls)
    ensures var s := Final(Start(f0), ls);
      && (forall p, q :: p in s.locks && q in s.locks && p != q ==> s.locks[p] != s.locks[q])
      && (forall m, n :: m in s.owner && n in s.owner && s.owner[m] == s.owner[n] ==> m == n)
  {
    StartInv(f0);
    RunKeepsInv(Start(f0), f0, ls);
    assert LocksOk(Final(Start(f0), ls));
  }

  /** In every run, two running downloads never share a scratch file. */
  lemma ScratchPrivate(f0: map<Path, Audio>, ls: seq<Label>, r: Rid, q: Rid)
    requires Feasible(Start(f0), ls)
    requires var s := Final(Start(f0), ls);
      r in s.reqs && q in s.reqs && r != q && Holding(s.reqs[r].pc) && Holding(s.reqs[q].pc)
    ensures var s := Final(Start(f0), ls); OpusPath(s.reqs[r].job.path) != OpusPath(s.reqs[q].job.path)
  {
    StartInv(f0);
    RunKeepsInv(Start(f0), f0, ls);
    HoldersDiffer(Final(Start(f0), ls), r, q);
  }

  // ---------------------------------------------------------------- the results in closed form

  /** Everything the download of a call needs goes well: the folder, one of the tries, the conversion
      and the write. */
  ghost predicate AllWell(j: Job) {
    && j.script.mkdirOk && j.script.convertOk && j.script.writeOk
    && exists k :: 0 <= k < |j.script.tries| && j.script.tries[k]
  }

  /** Turn `j` is for `p`, and its call would download it. */
  ghost predicate WellTurn(order: seq<Turn>, p: Path, j: nat) {
    j < |order| && order[j].job.path == p && AllWell(order[j].job)
  }

  /** ... and no turn before it would. */
  ghost predicate FirstWell(order: seq<Turn>, p: Path, j: nat) {
    WellTurn(order, p, j) && forall i: nat :: i < j ==> !WellTurn(order, p, i)
  }

  lemma {:induction false} FileExactly(start: Option<Audio>, order: seq<Turn>, p: Path)
    ensures start.Some? ==> FileAfter(start, order, p) == start
    ensures start.None? && (forall j: nat :: !WellTurn(order, p, j)) ==> FileAfter(start, order, p) == None
    ensures start.None? ==> forall j: nat | j < |order| && FirstWell(order, p, j) ::
      FileAfter(start, order, p) == Some(Video(order[j].job.url))
  {
    if order != [] {
      var n := |order| - 1;
      var front, last := order[..n], order[n];
      FileExactly(start, front, p);
      assert order == front + [last];
      WellMore(front, last, p);
      WellExactly(last.job);
      assert FileAfter(start, order, p) ==
        var before := FileAfter(start, front, p);
        if last.job.path == p && before.None? && Downloads(last.job) then Some(Video(last.job.url)) else before;
      hide FileAfter, WellTurn, AllWell, Downloads;
      assert WellTurn(order, p, n) <==> last.job.path == p && AllWell(last.job);
      assert forall j: nat :: WellTurn(front, p, j) ==> WellTurn(order, p, j);
      forall j: nat | start.None? && j < |order| && FirstWell(order, p, j)
        ensures FileAfter(start, order, p) == Some(Video(order[j].job.url))
      {
        if j < n {
          assert FirstWell(front, p, j) && order[j] == front[j];
        } else {
          assert forall i: nat :: !WellTurn(front, p, i);
        }
      }
    } else {
      NoneWell(order, p);
    }
  }

  lemma NoneWell(order: seq<Turn>, p: Path)
    requires order == []
    ensures forall j: nat :: !WellTurn(order, p, j)
  {
  }

  lemma WellMore(front: seq<Turn>, last: Turn, p: Path)
    ensures forall j: nat :: WellTurn(front + [last], p, j) <==>
      WellTurn(front, p, j) || (j == |front| && last.job.path == p && AllWell(last.job))
    ensures forall j: nat :: WellTurn(front, p, j) ==> j < |front|
  {
    hide AllWell;
    forall j: nat | j < |front| ensures (front + [last])[j] == front[j] {
    }
  }

  /** If there is such a turn there is a first one. */
  lemma FirstIn(order: seq<Turn>, p: Path)
    ensures (exists j: nat :: WellTurn(order, p, j)) ==>
      exists j: nat :: j < |order| && FirstWell(order, p, j)
  {
    if j: nat :| WellTurn(order, p, j) {
      assert j < |order|;
      hide WellTurn;
      var k: nat := 0;
      while !WellTurn(order, p, k)
        invariant k <= j && forall i: nat :: i < k ==> !WellTurn(order, p, i)
        decreases j - k
      {
        k := k + 1;
      }
      assert FirstWell(order, p, k);
    }
  }

  lemma SomeExactly(start: Option<Audio>, order: seq<Turn>, p: Path)
    ensures FileAfter(start, order, p).Some? <==> start.Some? || exists j: nat :: WellTurn(order, p, j)
  {
    hide FileAfter, WellTurn;
    FileExactly(start, order, p);
    FirstIn(order, p);
  }

  /** The serial answer, without the serial run. */
  lemma SerialExactly(f0: map<Path, Audio>, order: seq<Turn>, k: nat)
    requires k < |order|
    ensures SerialOk(f0, order, k) <==>
      order[k].job.path in f0 || exists j: nat :: j <= k && WellTurn(order, order[k].job.path, j)
  {
    var p := order[k].job.path;
    SomeExactly(Get(f0, p), order[..k], p);
    WellExactly(order[k].job);
    hide FileAfter, AllWell, Downloads;
    assert WellTurn(order, p, k) <==> AllWell(order[k].job);
    forall j: nat ensures WellTurn(order[..k], p, j) <==> j < k && WellTurn(order, p, j) {
      assert j < k ==> order[..k][j] == order[j];
    }
  }

  /** Over every run: a finished call answers nil exactly if its file was there at the start, or its own
      download or one of an earlier turn for its path had all it needed. */
  lemma ResultExactly(f0: map<Path, Audio>, ls: seq<Label>, r: Rid)
    requires Feasible(Start(f0), ls)
    requires r in Final(Start(f0), ls).reqs && Final(Start(f0), ls).reqs[r].pc.Done?
    ensures var s := Final(Start(f0), ls); var q := s.reqs[r];
      && q.turn < |s.order| && s.order[q.turn] == Turn(r, q.job)
      && (q.ok <==> q.job.path in f0 || exists j: nat :: j <= q.turn && WellTurn(s.order, q.job.path, j))
  {
    StartInv(f0);
    RunKeepsInv(Start(f0), f0, ls);
    DoneIsSerial(Final(Start(f0), ls), f0, r);
    hide Inv, Feasible, Final, WellTurn, SerialOk;
    SerialExactly(f0, Final(Start(f0), ls).order, Final(Start(f0), ls).reqs[r].turn);
  }

  lemma DoneIsSerial(s: State, f0: map<Path, Audio>, r: Rid)
    requires Inv(s, f0) && r in s.reqs && s.reqs[r].pc.Done?
    ensures var q := s.reqs[r];
      && q.turn < |s.order| && s.order[q.turn] == Turn(r, q.job) && q.ok == SerialOk(f0, s.order, q.turn)
  {
    assert TurnOk(s, f0, r);
    hide SerialOk, FileAfter, LocksOk, OrderOk, FilesOk, WrittenOk;
  }

  lemma WellExactly(j: Job)
    ensures Downloads(j) <==> AllWell(j)
  {
  }

  /** Over every run: a file nobody is working on is the one of the start, or the video of the first turn
      for its path whose call had all it needed. */
  lemma FilesExactly(f0: map<Path, Audio>, ls: seq<Label>, p: Path)
    requires Feasible(Start(f0), ls) && forall r :: !Busy(Final(Start(f0), ls), r, p)
    ensures var s := Final(Start(f0), ls);
      && (p in f0 ==> Get(s.files, p) == Get(f0, p))
      && (p !in f0 && (forall j: nat :: !WellTurn(s.order, p, j)) ==> p !in s.files)
      && (p !in f0 ==> forall j: nat | j < |s.order| && FirstWell(s.order, p, j) ::
            Get(s.files, p) == Some(Video(s.order[j].job.url)))
  {
    RefinesSerial(f0, ls);
    var s := Final(Start(f0), ls);
    FileAfterIsSerial(f0, s.order, p);
    FileExactly(Get(f0, p), s.order, p);
    hide Feasible, Final, FileAfter, RunSerially, WellTurn, FirstWell;
  }

  // ---------------------------------------------------------------- every call ends

  function CallRank(pc: Pc): nat {
    match pc
    case AwaitTable => 13
    case InTable => 12
    case AwaitKey => 11
    case Stat => 10
    case Mkdir => 9
    case Try(k) => if k < CLIENTS then 5 + (CLIENTS - k) else 5
    case Convert => 4
    case Write(_) => 3
    case RemoveOpus => 2
    case Unlock => 1
    case Done => 0
  }

  lemma BodyProgress(s: State, q: Request, r: Rid)
    requires Holding(q.pc) && !q.pc.Unlock? && |q.job.script.tries| == CLIENTS
    ensures CallRank(Body(s, q, r).q.pc) < CallRank(q.pc)
  {
    hide OpusPath;
  }

  lemma LookupNext(s: State, r: Rid)
    requires r in s.reqs
    ensures var to := Lookup(s, r).reqs; r in to && to == s.reqs[r := to[r]] && to[r].pc == AwaitKey
  {
  }

  /** A step changes the record of its own call only. */
  lemma ExecNext(s: State, r: Rid)
    requires Enabled(s, r)
    ensures var q, to := s.reqs[r], Exec(s, r).reqs;
      && r in to && to == s.reqs[r := to[r]]
      && (Holding(q.pc) && !q.pc.Unlock? ==> to[r] == Body(s, q, r).q)
      && (q.pc.Unlock? ==> to[r].pc == Done) && (q.pc.AwaitTable? ==> to[r].pc == InTable)
      && (q.pc.InTable? ==> to[r].pc == AwaitKey) && (q.pc.AwaitKey? ==> to[r].pc == Stat)
  {
    hide Body, Lookup;
    LookupNext(s, r);
  }

  lemma CallProgress(s: State, f0: map<Path, Audio>, r: Rid)
    requires Inv(s, f0) && Enabled(s, r)
    ensures r in Exec(s, r).reqs && CallRank(Exec(s, r).reqs[r].pc) < CallRank(s.reqs[r].pc)
  {
    var q := s.reqs[r];
    assert GoodJob(q.job);
    hide Inv, Body, Exec, CallRank, GoodJob, Enabled;
    RankOrder();
    ExecNext(s, r);
    if Holding(q.pc) && !q.pc.Unlock? {
      TriesOf(q.job);
      BodyProgress(s, q, r);
    } else {
      NotDone(s, r);
    }
  }

  lemma RankOrder()
    ensures CallRank(Done) < CallRank(Unlock) && CallRank(Stat) < CallRank(AwaitKey)
    ensures CallRank(AwaitKey) < CallRank(InTable) < CallRank(AwaitTable)
  {
  }

  lemma TriesOf(job: Job)
    requires GoodJob(job)
    ensures |job.script.tries| == CLIENTS
  {
  }

  lemma NotDone(s: State, r: Rid)
    requires Enabled(s, r)
    ensures !s.reqs[r].pc.Done?
  {
  }

  /** A step of one call leaves every other as it is. */
  lemma OthersStay(s: State, q: Rid, r: Rid)
    requires Enabled(s, q) && q != r && r in s.reqs
    ensures r in Exec(s, q).reqs && Exec(s, q).reqs[r] == s.reqs[r]
  {
    hide Exec;
    ExecNext(s, q);
  }

  function OwnSteps(ls: seq<Label>, r: Rid): nat {
    if ls == [] then 0 else (if ls[0] == Go(r) then 1 else 0) + OwnSteps(ls[1..], r)
  }

  /** Over every run a call takes at most thirteen steps of its own: three attempts at most. */
  lemma {:induction false} CallEnds(s: State, f0: map<Path, Audio>, ls: seq<Label>, r: Rid)
    requires Inv(s, f0) && Feasible(s, ls) && r in s.reqs
    ensures r in Final(s, ls).reqs
    ensures OwnSteps(ls, r) + CallRank(Final(s, ls).reqs[r].pc) <= CallRank(s.reqs[r].pc) <= 13
    decreases |ls|
  {
    if ls != [] {
      StepKeepsInv(s, f0, ls[0]);
      CallStep(s, f0, ls[0], r);
      hide Inv, Possible, Apply, CallRank;
      CallEnds(Apply(s, ls[0]), f0, ls[1..], r);
    }
    RankBound(s.reqs[r].pc);
  }

  lemma CallStep(s: State, f0: map<Path, Audio>, l: Label, r: Rid)
    requires Inv(s, f0) && Possible(s, l) && r in s.reqs
    ensures r in Apply(s, l).reqs
    ensures if l == Go(r) then CallRank(Apply(s, l).reqs[r].pc) < CallRank(s.reqs[r].pc)
            else Apply(s, l).reqs[r] == s.reqs[r]
  {
    assert r < s.nextRid;
    hide Inv, CallRank, Exec;
    if l == Go(r) {
      CallProgress(s, f0, r);
    } else if l.Go? {
      OthersStay(s, l.r, r);
    }
  }

  lemma RankBound(pc: Pc)
    ensures CallRank(pc) <= 13
  {
  }
}
