/** A guild's queue and flags, the commands that change them, and the audio thread that plays it.

    The audio thread runs against an environment that may perform any number of commands, let any
    time pass and add files between two of its accesses; `Interfere` is that environment. */
module GuildPlayer {
  import opened Bytes
  import opened Options
  import opened Frames
  import opened Playlog
  import opened Seqs

  const RECOVERY_POLL_MS := 50
  const MAX_ROUNDS := 402
  const SILENCE_DURATION_MS := 20
  const PROBE_DELAY_MS := 100

  /** A parsed answer of the server to /process. */
  datatype Reply = Failed | Single(song: Song) | Items(list: seq<Song>)

  function Accepted(reply: Reply): seq<Song> {
    match reply
    case Failed => []
    case Single(song) => if song.filePath == "" then [] else [song]
    case Items(list) => Playable(list)
  }

  /** The items of a reply that have a file. */
  method KeepPlayable(list: seq<Song>) returns (items: seq<Song>)
    ensures items == Playable(list) && HaveFiles(items)
  {
    items := [];
    for i := 0 to |list|
      invariant items == Playable(list[..i])
    {
      assert list[..i + 1][..i] == list[..i];
      if list[i].filePath != "" { items := items + [list[i]]; }
    }
    assert list[..|list|] == list;
    PlayableHasFile(list);
  }

  /** std::shuffle: every element is exchanged with a random one at or before it. */
  method Shuffle(queue: seq<Song>) returns (r: seq<Song>)
    requires queue != []
    ensures multiset(r) == multiset(queue) && |r| == |queue|
    ensures HaveFiles(queue) ==> HaveFiles(r)
  {
    r := queue;
    for i := 1 to |queue|
      invariant |r| == |queue| && multiset(r) == multiset(queue)
      invariant HaveFiles(queue) ==> HaveFiles(r)
    {
      var j: nat :| j <= i;
      r := r[i := r[j]][j := r[i]];
    }
  }

  /** Files are never deleted or changed. */
  predicate FilesKept(before: map<string, seq<Byte>>, after: map<string, seq<Byte>>) {
    forall path :: path in before ==> path in after && after[path] == before[path]
  }

  /** Histories that only grow: the songs enqueued and removed. */
  datatype History = History(enqueued: seq<Song>, removed: multiset<Song>)

  ghost predicate Grows(h: History, h': History) {
    h.enqueued <= h'.enqueued && h.removed <= h'.removed
  }

  lemma GrowsOn()
    ensures forall h :: Grows(h, h)
    ensures forall h, h', h'' :: Grows(h, h') && Grows(h', h'') ==> Grows(h, h'')
  {
    forall h, h', h'' | Grows(h, h') && Grows(h', h'') ensures Grows(h, h'') {
    }
  }

  lemma FilesOn()
    ensures forall f :: FilesKept(f, f)
    ensures forall f, g, h :: FilesKept(f, g) && FilesKept(g, h) ==> FilesKept(f, h)
  {
  }

  lemma OneMoreGrows(h: History, items: seq<Song>, song: Song)
    ensures Grows(h, h.(enqueued := h.enqueued + items))
    ensures Grows(h, h.(removed := h.removed + multiset{song}))
  {
  }

  lemma FilesStay(before: map<string, seq<Byte>>, after: map<string, seq<Byte>>)
    requires FilesKept(before, after)
    ensures forall path :: path in before ==> path in after && after[path] == before[path]
  {
  }

  /** Everything that had been enqueued at `past` has by `now` been taken or removed. */
  ghost predicate Exhausted(past: History, now: History, log: seq<Event>) {
    multiset(past.enqueued) <= multiset(FreshStarts(log)) + now.removed
  }

  /** So it is with an empty queue; and what was in the queue then has been removed, if nothing has been
      taken. */
  lemma AllTaken(past: History, now: History, queue: seq<Song>, log: seq<Event>)
    requires Grows(past, now)
    requires multiset(past.enqueued) == multiset(queue) + multiset(FreshStarts(log)) + past.removed
    requires multiset(now.enqueued) == multiset(FreshStarts(log)) + now.removed
    ensures Exhausted(past, now, log)
    ensures |queue| <= |now.removed| - |past.removed|
  {
    PrefixMultiset(past.enqueued, now.enqueued);
    hide FreshStarts;
    assert |past.enqueued| == |multiset(past.enqueued)| && |now.enqueued| == |multiset(now.enqueued)|;
    assert |multiset(queue)| == |queue|;
  }

  lemma ExhaustedStays(past: History, now: History, later: History, log: seq<Event>, more: seq<Event>)
    requires Exhausted(past, now, log) && Grows(now, later)
    requires more == log || (|more| == |log| + 2 && more[..|log|] == log)
    ensures Exhausted(past, later, more)
  {
    FreshStartsGrow(log, more);
    hide FreshStarts;
  }

  lemma ExhaustedBefore(first: History, past: History, now: History, log: seq<Event>)
    requires Grows(first, past) && Exhausted(past, now, log)
    ensures Exhausted(first, now, log)
  {
    PrefixMultiset(first.enqueued, past.enqueued);
    hide FreshStarts;
  }

  lemma RemovedGrows(h: History, h': History)
    requires Grows(h, h')
    ensures |h.removed| <= |h'.removed|
  {
    assert h'.removed == h.removed + (h'.removed - h.removed);
  }

  class GuildInfo {
    var currentPlay: Song
    var videoLists: seq<Song>
    var skipRequested: bool
    var shouldStop: bool
    var repeatCurrent: bool

    // the environment: the steady clock, in nanoseconds, and the files the server has written
    var clock: nat
    var files: map<string, seq<Byte>>

    // history
    ghost var enqueued: seq<Song>
    ghost var removed: multiset<Song>
    ghost var log: seq<Event>
    ghost var skipCommands: nat
    ghost var skipsServed: nat
    ghost var inOrder: bool    // no block put first, shuffle or removal has disturbed the order

    // history of the voice library: every frame it took, the looks that found the client unsafe, whether
    // there was one since the last frame or the opening of the song, and the sends that threw
    ghost var wire: seq<Send>
    ghost var unsafeLooks: nat
    ghost var unsafeSince: bool
    ghost var throws: nat
    ghost var slept: nat       // milliseconds of sleep asked for

    /** The queue and the current song agree with the history. */
    ghost predicate Books()
      reads `videoLists, `currentPlay, `enqueued, `removed, `log, `inOrder
    {
      && HaveFiles(videoLists)
      && Accounted(videoLists, enqueued, removed, log, inOrder)
      && LogOk(log)
      && Current(currentPlay) == Playing(log)
    }

    ghost predicate Valid()
      reads `videoLists, `currentPlay, `enqueued, `removed, `log, `inOrder, `skipRequested, `skipCommands, `skipsServed
    {
      Books() && skipsServed + (if skipRequested then 1 else 0) <= skipCommands
    }

    constructor ()
      ensures Valid() && log == [] && videoLists == [] && enqueued == [] && removed == multiset{} && inOrder
      ensures currentPlay == NO_SONG && !shouldStop && !skipRequested && !repeatCurrent
      ensures skipCommands == skipsServed == 0 && wire == []
    {
      currentPlay, videoLists := NO_SONG, [];
      skipRequested, shouldStop, repeatCurrent := false, false, false;
      clock, files := 0, map[];
      enqueued, removed, log, skipCommands, skipsServed, inOrder := [], multiset{}, [], 0, 0, true;
      wire, unsafeLooks, unsafeSince, throws, slept := [], 0, false, 0, 0;
    }

    /** Song conservation: what was enqueued is queued, current, ended or removed, and nothing else. */
    lemma Conservation()
      requires Valid()
      ensures multiset(enqueued) == multiset(videoLists) + Current(currentPlay) + Finals(log) + removed
    {
      StartsEnd(log);
    }

    // -------------------------------------------------------------- commands

    /** The callback of RequestAndEnqueue. */
    method Enqueue(reply: Reply, insertFront: bool)
      requires Valid()
      modifies `videoLists, `enqueued, `inOrder
      ensures Valid()
      ensures videoLists == if insertFront then Accepted(reply) + old(videoLists) else old(videoLists) + Accepted(reply)
      ensures enqueued == old(enqueued) + Accepted(reply)
      ensures Grows(old(History(enqueued, removed)), History(enqueued, removed))
      ensures reply.Single? && reply.song.filePath != "" ==>
        videoLists == if insertFront then [reply.song] + old(videoLists) else old(videoLists) + [reply.song]
      ensures reply.Items? ==> multiset(videoLists) == multiset(old(videoLists)) + multiset(Playable(reply.list))
      ensures reply.Failed? || (reply.Single? && reply.song.filePath == "") ==> videoLists == old(videoLists)
      ensures inOrder == (old(inOrder) && (insertFront ==> videoLists == old(videoLists) + Accepted(reply)))
    {
      var items := [];
      match reply {
        case Failed => return;
        case Single(song) =>
          if song.filePath == "" { return; }
          items := [song];
        case Items(list) => items := KeepPlayable(list);
      }
      Put(items, insertFront);
    }

    /** Inserts a block at the front or at the back of the queue. */
    method Put(items: seq<Song>, insertFront: bool)
      requires Valid() && HaveFiles(items)
      modifies `videoLists, `enqueued, `inOrder
      ensures Valid()
      ensures videoLists == if insertFront then items + old(videoLists) else old(videoLists) + items
      ensures enqueued == old(enqueued) + items && Grows(old(History(enqueued, removed)), History(enqueued, removed))
      ensures inOrder == (old(inOrder) && (insertFront ==> videoLists == old(videoLists) + items))
    {
      hide Accounted, LogOk, HaveFiles, Playing, Current, Grows;
      OneMoreGrows(History(enqueued, removed), items, NO_SONG);
      if insertFront {
        PrependedStayAccounted(videoLists, enqueued, removed, log, inOrder, items);
        inOrder := inOrder && items + videoLists == videoLists + items;
        videoLists, enqueued := items + videoLists, enqueued + items;
      } else {
        AppendedStayAccounted(videoLists, enqueued, removed, log, inOrder, items);
        videoLists, enqueued := videoLists + items, enqueued + items;
      }
    }

    /** The queueing part of the omakase callback. */
    method Omakase(items: seq<Song>) returns (addedCount: nat)
      requires Valid()
      modifies `videoLists, `enqueued, `inOrder
      ensures Valid() && inOrder == old(inOrder) && addedCount == |Playable(items)|
      ensures videoLists == old(videoLists) + Playable(items) && enqueued == old(enqueued) + Playable(items)
      ensures Grows(old(History(enqueued, removed)), History(enqueued, removed))
    {
      var added := KeepPlayable(items);
      Put(added, false);
      addedCount := |added|;
    }

    method Skip()
      requires Valid()
      modifies `skipRequested, `skipCommands
      ensures Valid() && skipRequested && skipCommands == old(skipCommands) + 1
    {
      hide Books;
      skipRequested, skipCommands := true, skipCommands + 1;
    }

    method ToggleRepeat()
      requires Valid()
      modifies `repeatCurrent
      ensures Valid() && repeatCurrent == !old(repeatCurrent)
    {
      hide Books;
      repeatCurrent := !repeatCurrent;
    }

    method Random() returns (shuffled: bool)
      requires Valid()
      modifies `videoLists, `inOrder
      ensures Valid() && shuffled == (old(videoLists) != []) && inOrder == (old(inOrder) && !shuffled)
      ensures multiset(videoLists) == multiset(old(videoLists))
    {
      shuffled := videoLists != [];
      if shuffled {
        inOrder := false;
        videoLists := Shuffle(videoLists);
      }
    }

    /** Removes the entry with a 1-based index, and answers with its title. */
    method Remove(index: int) returns (title: Option<string>)
      requires Valid()
      modifies `videoLists, `removed, `inOrder
      ensures Valid() && Grows(old(History(enqueued, removed)), History(enqueued, removed))
      ensures 1 <= index <= |old(videoLists)| ==>
        && title == Some(old(videoLists)[index - 1].title)
        && videoLists == old(videoLists)[..index - 1] + old(videoLists)[index..]
        && removed == old(removed) + multiset{old(videoLists)[index - 1]} && !inOrder
      ensures !(1 <= index <= |old(videoLists)|) ==>
        title == None && videoLists == old(videoLists) && removed == old(removed) && inOrder == old(inOrder)
    {
      hide Accounted, LogOk, HaveFiles, Playing, Current, Grows;
      GrowsOn();
      if index <= 0 || index > |videoLists| {
        return None;
      }
      title := Some(videoLists[index - 1].title);
      OneMoreGrows(History(enqueued, removed), [], videoLists[index - 1]);
      RemovedStayAccounted(videoLists, enqueued, removed, log, inOrder, index - 1);
      removed, videoLists := removed + multiset{videoLists[index - 1]}, videoLists[..index - 1] + videoLists[index..];
      inOrder := false;
    }

    // -------------------------------------------------------------- the environment

    /** What any stretch of time respects: requests to stop stay, and all histories only grow. */
    twostate predicate Later()
      reads this
    {
      && (old(shouldStop) ==> shouldStop)
      && old(skipCommands) <= skipCommands && old(skipsServed) <= skipsServed
      && old(clock) <= clock && old(unsafeLooks) <= unsafeLooks && old(throws) <= throws
      && Grows(old(History(enqueued, removed)), History(enqueued, removed))
    }

    /** A request to skip comes from a command. */
    twostate predicate SkipsAsked()
      reads this
    {
      skipRequested ==> old(skipRequested) || old(skipCommands) < skipCommands
    }

    /** The audio thread itself did nothing meanwhile. */
    twostate predicate Meanwhile()
      reads this
    {
      && Later() && SkipsAsked()
      && (old(skipRequested) ==> skipRequested)
      && currentPlay == old(currentPlay) && log == old(log) && skipsServed == old(skipsServed)
      && wire == old(wire) && unsafeLooks == old(unsafeLooks) && unsafeSince == old(unsafeSince)
      && throws == old(throws) && FilesKept(old(files), files)
    }

    /** One command of a user, or one answer of the server. */
    method Command()
      requires Valid()
      modifies `videoLists, `enqueued, `removed, `inOrder, `skipRequested, `skipCommands, `repeatCurrent
      ensures Valid() && Meanwhile()
    {
      hide Books, Grows, FilesKept;
      GrowsOn();
      FilesOn();
      if {
        case true => var reply: Reply := *; var front: bool := *; Enqueue(reply, front);
        case true => var items: seq<Song> := *; var _ := Omakase(items);
        case true => Skip();
        case true => ToggleRepeat();
        case true => var _ := Random();
        case true => var index: int := *; var _ := Remove(index);
      }
    }

    /** Time passes, files appear, a leave asks the thread to stop. */
    method WorldTurns()
      requires Valid()
      modifies `shouldStop, `clock, `files
      ensures Valid() && Meanwhile()
    {
      hide Books, Grows, FilesKept;
      GrowsOn();
      FilesOn();
      var stop: bool := *;
      var dt: nat :| true;
      shouldStop, clock := shouldStop || stop, clock + dt;
      var more: map<string, seq<Byte>> := *;
      if FilesKept(files, more) { files := more; }
    }

    /** Any number of commands, stop requests, new files and any passing of time. */
    method Interfere()
      requires Valid()
      modifies this
      ensures Valid() && Meanwhile() && slept == old(slept)
    {
      hide Books, Grows, FilesKept;
      GrowsOn();
      FilesOn();
      var n: nat := *;
      while n > 0
        invariant Valid() && Meanwhile() && slept == old(slept)
      {
        WorldTurns();
        Command();
        n := n - 1;
      }
    }

    /** Sleeping lasts at least as long as asked, while the environment goes on. */
    method Sleep(ms: nat)
      requires Valid()
      modifies this
      ensures Valid() && Meanwhile() && clock >= old(clock) + ms * MS && slept == old(slept) + ms
    {
      hide Books, Grows, FilesKept;
      GrowsOn();
      FilesOn();
      clock, slept := clock + ms * MS, slept + ms;
      Interfere();
    }

    /** IsVoiceClientSafeToSend: the answer is the library's. */
    method VoiceClientSafe() returns (safe: bool)
      requires Valid()
      modifies `unsafeLooks, `unsafeSince
      ensures Valid()
      ensures Later()
      ensures unsafeLooks == old(unsafeLooks) + (if safe then 0 else 1) && unsafeSince == (old(unsafeSince) || !safe)
    {
      hide Books, Grows, FilesKept;
      GrowsOn();
      safe := *;
      if !safe { unsafeLooks, unsafeSince := unsafeLooks + 1, true; }
    }

    /** send_audio_raw: the library takes the frame or throws. */
    method SendAudioRaw(buffer: seq<Byte>) returns (ok: bool)
      requires Valid()
      modifies `wire, `throws, `unsafeSince
      ensures Valid() && Later()
      ensures ok ==>
        wire == old(wire) + [Send(buffer, clock, old(unsafeSince))] && throws == old(throws) && !unsafeSince
      ensures !ok ==> wire == old(wire) && throws == old(throws) + 1 && unsafeSince == old(unsafeSince)
    {
      hide Books;
      ok := *;
      if ok {
        wire, unsafeSince := wire + [Send(buffer, clock, unsafeSince)], false;
      } else {
        throws := throws + 1;
      }
    }

    // -------------------------------------------------------------- the audio thread

    /** Hands the frame over if the client is safe just then. */
    method TrySend(buffer: seq<Byte>) returns (safe: bool, ok: bool)
      requires Valid()
      modifies this
      ensures Valid() && Later() && SkipsAsked()
      ensures currentPlay == old(currentPlay) && log == old(log) && skipsServed == old(skipsServed)
      ensures unsafeLooks == old(unsafeLooks) + (if safe then 0 else 1)
      ensures throws == old(throws) + (if safe && !ok then 1 else 0)
      ensures wire == old(wire) + if safe && ok then [Send(buffer, clock, old(unsafeSince))] else []
      ensures unsafeSince == if safe && ok then false else old(unsafeSince) || !safe
      ensures slept == old(slept)
    {
      hide Valid, Books, Grows, FilesKept;
      GrowsOn();
      ok := false;
      Interfere();
      safe := VoiceClientSafe();
      if safe { ok := SendAudioRaw(buffer); }
    }

    /** Waits until the frame in hand can be sent, and sends it.  It is given up only when the send throws
        or every look of more than twenty seconds found the client unsafe. */
    method SendFrame(buffer: seq<Byte>)
      returns (sent: bool, giveUp: bool, waited: bool, sentAt: nat, rounds: nat, threw: bool)
      requires Valid()
      modifies this
      ensures Valid() && Later() && SkipsAsked()
      ensures currentPlay == old(currentPlay) && log == old(log) && skipsServed == old(skipsServed)
      ensures !(sent && giveUp) && (threw ==> giveUp)
      ensures giveUp && !threw ==> clock - old(clock) > VOICE_RECOVERY_TIMEOUT
      ensures !sent && !giveUp ==> shouldStop || skipRequested
      ensures sent ==> old(clock) <= sentAt <= clock
      ensures wire == old(wire) + if sent then [Send(buffer, sentAt, old(unsafeSince) || waited)] else []
      ensures throws == old(throws) + if threw then 1 else 0
      ensures 1 <= rounds <= MAX_ROUNDS
      ensures unsafeLooks == old(unsafeLooks) + if giveUp && !threw then rounds else rounds - 1
      ensures slept == old(slept) + RECOVERY_POLL_MS * (rounds - 1)
      ensures waited <==> old(unsafeLooks) < unsafeLooks
      ensures sent ==> !unsafeSince
    {
      hide Valid, Books, Grows, FilesKept;
      GrowsOn();
      sent, giveUp, waited, sentAt, rounds, threw := false, false, false, clock, 0, false;
      var waitStart := clock;
      while !sent
        invariant Valid() && Later() && SkipsAsked() && waitStart == old(clock)
        invariant currentPlay == old(currentPlay) && log == old(log) && skipsServed == old(skipsServed)
        invariant !giveUp && !threw && throws == old(throws)
        invariant wire == old(wire) + if sent then [Send(buffer, sentAt, old(unsafeSince) || waited)] else []
        invariant sent ==> old(clock) <= sentAt <= clock && 1 <= rounds <= MAX_ROUNDS && !unsafeSince
        invariant !sent ==> clock >= waitStart + rounds * RECOVERY_POLL_MS * MS && rounds < MAX_ROUNDS
        invariant !sent ==> unsafeSince == (old(unsafeSince) || waited)
        invariant unsafeLooks == old(unsafeLooks) + if sent then rounds - 1 else rounds
        invariant slept == old(slept) + RECOVERY_POLL_MS * (if sent then rounds - 1 else rounds)
        invariant waited <==> old(unsafeLooks) < unsafeLooks
        decreases MAX_ROUNDS - rounds, !sent
      {
        rounds := rounds + 1;
        Interfere();
        if shouldStop || skipRequested { return; }
        var safe, ok := TrySend(buffer);
        if safe {
          if !ok {
            giveUp, threw := true, true;
            return;
          }
          sent, sentAt := true, clock;
        } else {
          waited := true;
          Interfere();
          if clock - waitStart > VOICE_RECOVERY_TIMEOUT {
            giveUp := true;
            return;
          }
          Sleep(RECOVERY_POLL_MS);
        }
      }
    }

    /** The looks at the flags at the top of the frame loop; a skip request is taken back. */
    method Poll() returns (how: Option<Ending>)
      requires Valid()
      modifies this
      ensures Valid() && Later() && SkipsAsked() && currentPlay == old(currentPlay) && log == old(log)
      ensures wire == old(wire) && throws == old(throws) && slept == old(slept)
      ensures unsafeLooks == old(unsafeLooks) && unsafeSince == old(unsafeSince)
      ensures how.None? ==> !old(shouldStop) && !old(skipRequested)
      ensures how.Some? ==> how.value.Stopped? || how.value.Skipped?
      ensures how == Some(Stopped) ==> shouldStop
      ensures how == Some(Skipped) ==> old(skipRequested) || old(skipCommands) < skipCommands
      ensures skipsServed == old(skipsServed) + (if how == Some(Skipped) then 1 else 0)
    {
      hide Books, Grows, FilesKept;
      GrowsOn();
      how := None;
      Interfere();
      if shouldStop { return Some(Stopped); }
      Interfere();
      if skipRequested {
        Interfere();
        skipRequested, skipsServed := false, skipsServed + 1;
        how := Some(Skipped);
      }
    }

    /** The wait for the audio still buffered, unless a stop has been requested. */
    method DrainLead(waitTime: nat) returns (drained: bool)
      requires Valid()
      modifies this
      ensures Valid() && Meanwhile()
      ensures old(shouldStop) ==> !drained
      ensures !drained ==> shouldStop
      ensures clock >= old(clock) + (if drained then waitTime * MS else 0)
      ensures slept == old(slept) + (if drained then waitTime else 0)
    {
      hide Valid, Books, Grows, FilesKept;
      GrowsOn();
      FilesOn();
      Interfere();
      drained := !shouldStop;
      if drained { Sleep(waitTime); }
    }

    /** The pause after a sent frame; a recovery voids the lead before it. */
    method Pace(waited: bool, waitTime: nat, sentAt: nat, ghost recovered: seq<bool>, ghost times: seq<nat>)
      returns (waitTime': nat)
      requires Valid() && sentAt <= clock && Paced(sentAt, waitTime, recovered, times)
      modifies this
      ensures Valid() && Meanwhile() && clock >= sentAt + SEND_INTERVAL_MS * MS
      ensures slept == old(slept) + SEND_INTERVAL_MS
      ensures Paced(clock, waitTime', recovered + [waited], times + [sentAt])
    {
      hide Valid, Books, Paced, Grows, FilesKept;
      GrowsOn();
      FilesOn();
      waitTime' := if waited then 0 else waitTime;
      Sleep(SEND_INTERVAL_MS);
      waitTime' := (waitTime' + LEAD_PER_FRAME_MS) % TWO_TO_THE_32;
      OneMorePaced(sentAt, clock, waitTime, recovered, times, waited);
    }

    /** Sends the frame in hand, when it can, and pauses. */
    method NextFrame(buffer: seq<Byte>, waitTime: nat, ghost recovered: seq<bool>, ghost times: seq<nat>)
      returns (sent: bool, giveUp: bool, waited: bool, sentAt: nat, raised: bool, waitTime': nat)
      requires Valid() && Paced(clock, waitTime, recovered, times) && !unsafeSince
      modifies this
      ensures Valid() && Later() && SkipsAsked()
      ensures currentPlay == old(currentPlay) && log == old(log) && skipsServed == old(skipsServed)
      ensures !(sent && giveUp) && (raised ==> giveUp)
      ensures giveUp && !raised ==>
        clock - old(clock) > VOICE_RECOVERY_TIMEOUT && old(unsafeLooks) < unsafeLooks
      ensures !sent && !giveUp ==> shouldStop || skipRequested
      ensures wire == old(wire) + if sent then [Send(buffer, sentAt, waited)] else []
      ensures throws == old(throws) + if raised then 1 else 0
      ensures sent ==>
        && !unsafeSince && clock >= sentAt + SEND_INTERVAL_MS * MS
        && Paced(clock, waitTime', recovered + [waited], times + [sentAt])
      ensures !sent ==> waitTime' == waitTime && Paced(clock, waitTime, recovered, times)
      ensures slept == old(slept) + (if sent then SEND_INTERVAL_MS else 0)
        + RECOVERY_POLL_MS * (unsafeLooks - old(unsafeLooks) - if giveUp && !raised then 1 else 0)
    {
      hide Valid, Books, Paced, Grows, FilesKept;
      GrowsOn();
      var before := clock;
      var rounds;
      sent, giveUp, waited, sentAt, rounds, raised := SendFrame(buffer);
      waitTime' := waitTime;
      if sent {
        PacedLater(before, sentAt, waitTime, recovered, times);
        waitTime' := Pace(waited, waitTime, sentAt, recovered, times);
      } else {
        PacedLater(before, clock, waitTime, recovered, times);
      }
    }

    /** A recorded performance against what the voice library and the commands saw of it. */
    twostate predicate Honest(perf: Performance)
      reads this
    {
      && wire == old(wire) + SendsOf(perf)
      && throws == old(throws) + (if perf.threw then 1 else 0)
      && skipsServed == old(skipsServed) + (if perf.how.Skipped? then 1 else 0)
      && old(clock) <= perf.start
      && (perf.how.Stopped? ==> shouldStop)
      && (perf.how.Skipped? ==> old(skipRequested) || old(skipCommands) < skipCommands)
      && (perf.how.Abandoned? ==> perf.threw || old(unsafeLooks) < unsafeLooks)
    }

    /** All the sleep a performance asks for: 58 ms a frame, 50 ms for each look that found the client
        unsafe but one that made it give up, and the drain. */
    twostate predicate NoOtherSleep(perf: Performance)
      reads this
    {
      slept == old(slept) + SEND_INTERVAL_MS * |perf.frames|
        + RECOVERY_POLL_MS * (unsafeLooks - old(unsafeLooks) - if perf.how.Abandoned? && !perf.threw then 1 else 0)
        + if perf.drained then perf.wait else 0
    }

    /** Nobody asked to stop or skip, no send threw and the client was never found unsafe. */
    twostate predicate Smooth()
      reads this
    {
      && !shouldStop && !old(skipRequested) && skipCommands == old(skipCommands)
      && throws == old(throws) && unsafeLooks == old(unsafeLooks)
    }

    /** The frame loop of one open file. */
    method SendFrames(data: seq<Byte>) returns (perf: Performance)
      requires Valid()
      modifies this
      ensures Valid() && Later() && SkipsAsked() && currentPlay == old(currentPlay) && log == old(log)
      ensures Faithful(perf) && perf.data == data && !perf.how.Missing? && Honest(perf)
      ensures !perf.drained && perf.until == perf.ended == clock && NoOtherSleep(perf)
    {
      hide Valid, Books, Paced, Grows, FilesKept, Cut, Sends, Reads;
      GrowsOn();
      CutCount(data);
      assert Sends([], [], []) == [] by { NoSends(); }
      unsafeSince := false;
      var start := clock;
      var pos: nat, waitTime: nat := 0, 0;
      var frames, times: seq<nat>, recovered, taken: nat, turns: nat := [], [], [], 0, 0;
      var how, threw := Natural, false;
      assert Paced(clock, 0, [], []) by { NothingPaced(clock); }
      while true
        invariant Valid() && Later() && SkipsAsked() && currentPlay == old(currentPlay) && log == old(log)
        invariant skipsServed == old(skipsServed) && throws == old(throws)
        invariant |frames| <= |Cut(data)| && frames == Cut(data)[..|frames|] && pos <= |data|
        invariant |times| == |recovered| == |frames| && turns == taken
        invariant taken == |frames| ==> pos == Min(|frames| * FRAME_SIZE, |data|) && !unsafeSince
        invariant taken != |frames| ==> taken == |frames| + 1 && (shouldStop || skipRequested) && |frames| < |Cut(data)|
        invariant Paced(clock, waitTime, recovered, times) && clock >= Rested(start, times)
        invariant wire == old(wire) + Sends(frames, times, recovered)
        invariant slept
               == old(slept) + SEND_INTERVAL_MS * |frames| + RECOVERY_POLL_MS * (unsafeLooks - old(unsafeLooks))
        decreases |data| - pos
      {
        turns := turns + 1;
        var before := clock;
        var ending := Poll();
        PacedLater(before, clock, waitTime, recovered, times);
        if ending.Some? {
          how := ending.value;
          break;
        }
        if pos == |data| {
          AllFramesRead(data, |frames|);
          how := Natural;
          break;
        }
        var buffer, next := ReadFrame(data, pos, |frames|);
        pos, taken := next, taken + 1;
        var sent, giveUp, waited, sentAt, raised, nextWait := NextFrame(buffer, waitTime, recovered, times);
        waitTime := nextWait;
        if giveUp {
          waitTime := 0;
          how, threw := Abandoned, raised;
          break;
        }
        if !sent { continue; }
        SendsMore(frames, times, recovered, Send(buffer, sentAt, waited));
        frames, times, recovered := frames + [buffer], times + [sentAt], recovered + [waited];
      }
      perf := Performance(data, start, frames, times, recovered, taken, turns,
                          how, threw, clock, waitTime, false, clock);
    }

    /** Plays one open file: the frame loop, and the wait for what is still buffered. */
    method PlaySong(data: seq<Byte>) returns (perf: Performance)
      requires Valid()
      modifies this
      ensures Valid() && Later() && SkipsAsked() && currentPlay == old(currentPlay) && log == old(log)
      ensures Faithful(perf) && perf.data == data && !perf.how.Missing? && Honest(perf)
      ensures (!perf.drained ==> shouldStop) && NoOtherSleep(perf)
      ensures Smooth() ==> perf.how.Natural?
    {
      hide Valid, Books, Paced, Grows, FilesKept;
      GrowsOn();
      perf := SendFrames(data);
      var drained := DrainLead(perf.wait);
      perf := perf.(drained := drained, until := clock);
    }

    // -------------------------------------------------------------- turns of the thread

    /** One song has been opened and has ended. */
    ghost predicate OneSong(before: seq<Event>, after: seq<Event>) {
      && |after| == |before| + 2 && after[..|before|] == before
      && after[|before|].Started? && after[|before| + 1].Ended?
    }

    /** Between two turns: no song is open, every skip served ended a song, and the frames the voice
        library took are those the history records. */
    ghost predicate Settled()
      reads this
    {
      Valid() && (log == [] || log[|log| - 1].Ended?) && SkipCount(log) == skipsServed && wire == Heard(log)
    }

    /** A song has just been opened. */
    ghost predicate Opened()
      reads this
    {
      && Valid() && log != [] && log[|log| - 1].Started? && log[|log| - 1].song == currentPlay
      && currentPlay.filePath != "" && SkipCount(log) == skipsServed && wire == Heard(log)
    }

    /** The choice of the next song, under guildInfosMutex: the current one if it is to be repeated,
        else the head of the queue. */
    method PickSong() returns (path: string)
      requires Settled()
      modifies `currentPlay, `videoLists, `log
      ensures path == currentPlay.filePath
      ensures path == "" <==> old(currentPlay).filePath == "" && old(videoLists) == []
      ensures path == "" ==> Settled() && log == old(log) && videoLists == [] && old(currentPlay).filePath == ""
      ensures path != "" ==> Opened() && |log| == |old(log)| + 1 && log[..|old(log)|] == old(log)
      ensures old(currentPlay).filePath != "" ==>
        && currentPlay == old(currentPlay) && videoLists == old(videoLists)
        && log == old(log) + [Started(currentPlay, true)]
      ensures old(currentPlay).filePath == "" && old(videoLists) != [] ==>
        && currentPlay == old(videoLists)[0] && videoLists == old(videoLists)[1..]
        && log == old(log) + [Started(currentPlay, false)]
    {
      hide Accounted, LogOk, HaveFiles, Playing, Current, SkipCount, Heard;
      CurrentMeansPlaying(currentPlay, log);
      if currentPlay.filePath == "" {
        if videoLists != [] {
          OpenFresh(videoLists, enqueued, removed, log, inOrder, currentPlay);
          HeardGrows(log, Started(videoLists[0], false));
          log := log + [Started(videoLists[0], false)];
          currentPlay, videoLists := videoLists[0], videoLists[1..];
        }
      } else {
        OpenAgain(videoLists, enqueued, removed, log, inOrder, currentPlay);
        HeardGrows(log, Started(currentPlay, true));
        log := log + [Started(currentPlay, true)];
      }
      path := currentPlay.filePath;
    }

    /** Opens the file, plays it and decides what follows: the song stays current exactly when it
        ended naturally with repeat on. */
    method PlayCurrent(path: string)
      requires Opened() && path == currentPlay.filePath
      modifies this
      ensures Settled() && Later() && SkipsAsked() && log != []
      ensures log[..|log| - 1] == old(log) && log[|log| - 1].Ended? && log[|log| - 1].song == old(currentPlay)
      ensures path in old(files) ==>
        !log[|log| - 1].perf.how.Missing? && log[|log| - 1].perf.data == old(files)[path]
      ensures Faithful(log[|log| - 1].perf) && Honest(log[|log| - 1].perf)
      ensures NoOtherSleep(log[|log| - 1].perf)
      ensures Smooth() && path in old(files) ==> log[|log| - 1].perf.how.Natural?
      ensures log[|log| - 1].repeatOn == repeatCurrent
      ensures currentPlay == if Replays(log[|log| - 1]) then old(currentPlay) else NO_SONG
    {
      hide Books, SkipCount, Faithful, Grows, FilesKept, Heard;
      GrowsOn();
      ghost var before := files;
      Interfere();
      FilesStay(before, files);
      var perf := Unplayed(clock);
      NothingPaced(clock);
      if path in files {
        perf := PlaySong(files[path]);
      }
      Interfere();
      EndSong(perf);
      assert log[..|log| - 1] == old(log);
    }

    /** The current song has ended: it stays current exactly for a replay. */
    method EndSong(perf: Performance)
      requires Valid() && log != [] && log[|log| - 1].Started? && log[|log| - 1].song == currentPlay
      requires currentPlay.filePath != "" && Faithful(perf)
      requires skipsServed == SkipCount(log) + (if perf.how.Skipped? then 1 else 0)
      requires wire == Heard(log) + SendsOf(perf)
      modifies `currentPlay, `log
      ensures Settled() && log == old(log) + [Ended(old(currentPlay), perf, repeatCurrent)]
      ensures currentPlay == if perf.how.Natural? && repeatCurrent then old(currentPlay) else NO_SONG
    {
      hide Accounted, LogOk, HaveFiles, Playing, Current, SkipCount, Faithful, Heard, SendsOf;
      ghost var e := Ended(currentPlay, perf, repeatCurrent);
      Close(videoLists, enqueued, removed, log, inOrder, e);
      HeardGrows(log, e);
      var shouldRepeat := perf.how.Natural? && repeatCurrent;
      if !shouldRepeat { currentPlay := NO_SONG; }
      log := log + [e];
    }

    /** Plays the next song, if there is one; else waits a little. */
    method PlayNext()
      requires Settled()
      modifies this
      ensures Settled() && Later() && SkipsAsked()
      ensures if old(currentPlay).filePath == "" && old(videoLists) == []
              then log == old(log) && slept == old(slept) + SILENCE_DURATION_MS
              else OneSong(old(log), log) && NoOtherSleep(log[|log| - 1].perf)
      ensures OneSong(old(log), log) ==> Faithful(log[|log| - 1].perf) && Honest(log[|log| - 1].perf)
      ensures old(currentPlay).filePath != "" ==> log[|log| - 2] == Started(old(currentPlay), true)
    {
      hide Books, LogOk, Faithful, Grows, FilesKept;
      GrowsOn();
      var path := PickSong();
      if path != "" {
        ghost var started := log;
        PlayCurrent(path);
        assert log == started + [log[|log| - 1]];
      } else {
        Sleep(SILENCE_DURATION_MS);
      }
    }

    /** The two looks at the flag and the look at the client between them, which waits if it is unsafe. */
    method FindSafe() returns (running: bool, safe: bool)
      requires Settled()
      modifies this
      ensures Settled() && Later() && currentPlay == old(currentPlay) && log == old(log)
      ensures old(shouldStop) ==> !running
      ensures !running ==> shouldStop
      ensures running && !safe ==> unsafeLooks == old(unsafeLooks) + 1 && slept == old(slept) + PROBE_DELAY_MS
    {
      hide Valid, Books, Grows, FilesKept, Heard, SkipCount;
      GrowsOn();
      running, safe := false, false;
      Interfere();
      if shouldStop { return; }
      safe := VoiceClientSafe();
      if !safe {
        Sleep(PROBE_DELAY_MS);
        running := true;
        return;
      }
      Interfere();
      running := !shouldStop;
    }

    /** One turn of the outer loop; `running` is false when the thread has seen the stop request.  A turn
        that finds the client safe plays a song unless everything enqueued before it has been taken or
        removed. */
    method Turn() returns (running: bool, safe: bool)
      requires Settled()
      modifies this
      ensures Settled() && Later() && (old(shouldStop) ==> !running)
      ensures !running ==> shouldStop
      ensures log == old(log) || (running && safe && OneSong(old(log), log))
      ensures running && !safe ==> unsafeLooks == old(unsafeLooks) + 1 && slept == old(slept) + PROBE_DELAY_MS
      ensures running && safe && old(currentPlay).filePath != "" ==>
        OneSong(old(log), log) && log[|log| - 2] == Started(old(currentPlay), true)
      ensures running && safe && log == old(log) ==>
        Exhausted(old(History(enqueued, removed)), History(enqueued, removed), log)
      ensures running && safe && old(videoLists) != [] && removed == old(removed) ==> OneSong(old(log), log)
    {
      hide Valid, Books, LogOk, Faithful, Grows, FilesKept, Exhausted, Heard, SkipCount, FreshStarts;
      GrowsOn();
      ghost var past, queue := History(enqueued, removed), videoLists;
      Account();
      running, safe := FindSafe();
      if !running || !safe { return; }
      ghost var now := History(enqueued, removed);
      Account();
      if currentPlay.filePath == "" && videoLists == [] {
        AllTaken(past, now, queue, log);
      }
      PlayNext();
      RemovedGrows(now, History(enqueued, removed));
      if log == old(log) { ExhaustedStays(past, now, History(enqueued, removed), log, log); }
    }

    lemma Account()
      requires Valid()
      ensures multiset(enqueued) == multiset(videoLists) + multiset(FreshStarts(log)) + removed
    {
    }

    /** Any number of turns of PlayAudioThread: the queue stays accounted for, the history well formed
        and only added to, at most one song a turn; the songs opened are those taken from the queue, each
        once more for each natural ending with repeat on that followed it; every song ended by a skip is
        paid for by a skip command, and without first, shuffle and remove the songs were taken in the
        order they were enqueued.  `done` is how many turns it took: fewer only after a stop request; and
        each of them either found the client unsafe or played a song, unless everything that was enqueued
        when the thread began has been taken or removed. */
    method PlayAudioThread(turns: nat) returns (done: nat)
      requires Settled()
      modifies this
      ensures Settled() && Later() && LogOk(log) && SkipCount(log) <= skipCommands
      ensures done == turns || (done < turns && shouldStop)
      ensures old(log) <= log && |log| <= |old(log)| + 2 * done
      ensures |log| >= |old(log)| + 2 * (done - (unsafeLooks - old(unsafeLooks)))
           || Exhausted(old(History(enqueued, removed)), History(enqueued, removed), log)
      ensures old(shouldStop) ==> log == old(log)
      ensures inOrder ==> enqueued == FreshStarts(log) + videoLists
      ensures multiset(enqueued) == multiset(videoLists) + Current(currentPlay) + Finals(log) + removed
      ensures AllStarts(log) + Due(log) == Expand(Spells(log)) && SongsOf(Spells(log)) == FreshStarts(log)
    {
      hide Settled, Faithful, Honest, Grows, FilesKept, Exhausted;
      GrowsOn();
      ghost var first := History(enqueued, removed);
      var running := true;
      done := 0;
      while running && done < turns
        invariant Grows(first, History(enqueued, removed)) && first == old(History(enqueued, removed))
        invariant Settled() && Later() && (running || shouldStop)
        invariant done <= turns && old(log) <= log && |log| <= |old(log)| + 2 * done
        invariant |log| >= |old(log)| + 2 * (done - (unsafeLooks - old(unsafeLooks)))
               || Exhausted(first, History(enqueued, removed), log)
        invariant old(shouldStop) ==> shouldStop && log == old(log)
      {
        ghost var before, past := log, History(enqueued, removed);
        var safe;
        running, safe := Turn();
        if running { done := done + 1; }
        if Exhausted(first, past, before) {
          ExhaustedStays(first, past, History(enqueued, removed), before, log);
        } else if running && safe && log == before {
          ExhaustedBefore(first, past, History(enqueued, removed), log);
        }
      }
      Summary();
    }

    /** What a settled history says. */
    lemma Summary()
      requires Settled()
      ensures LogOk(log) && SkipCount(log) <= skipCommands
      ensures inOrder ==> enqueued == FreshStarts(log) + videoLists
      ensures multiset(enqueued) == multiset(videoLists) + Current(currentPlay) + Finals(log) + removed
      ensures AllStarts(log) + Due(log) == Expand(Spells(log)) && SongsOf(Spells(log)) == FreshStarts(log)
    {
      Conservation();
      ReplaysExactly(log);
      hide LogOk, Current, Playing, HaveFiles, AllStarts, Due, Expand, Spells, SongsOf, FreshStarts, Finals, SkipCount;
    }
  }

  /** fread of one frame, with an odd trailing byte dropped. */
  method ReadFrame(data: seq<Byte>, pos: nat, ghost k: nat) returns (buffer: seq<Byte>, next: nat)
    requires pos < |data| && pos == Min(k * FRAME_SIZE, |data|)
    ensures k < |Cut(data)| && Cut(data)[..k] + [buffer] == Cut(data)[..k + 1]
    ensures pos < next == Min((k + 1) * FRAME_SIZE, |data|)
  {
    CutAt(data, k);
    var bytesRead := Min(FRAME_SIZE, |data| - pos);
    buffer := data[pos..pos + bytesRead];
    next := pos + bytesRead;
    if bytesRead % 2 != 0 { buffer := buffer[..bytesRead - 1]; }
    assert buffer == Cut(data)[k];
  }

  /** The record of a file that could not be opened. */
  function Unplayed(clock: nat): Performance {
    Performance([], clock, [], [], [], 0, 0, Missing, false, clock, 0, false, clock)
  }

  lemma AllFramesRead(data: seq<Byte>, k: nat)
    requires k <= |Cut(data)| && Min(k * FRAME_SIZE, |data|) == |data|
    ensures k == |Cut(data)|
  {
    hide Cut;
    CutCount(data);
    if k < |Cut(data)| {
      CutAt(data, k);
    }
  }

  lemma NoSends()
    ensures Sends([], [], []) == []
  {
  }

  lemma FreshStartsGrow(before: seq<Event>, after: seq<Event>)
    requires before == after || (|after| == |before| + 2 && after[..|before|] == before)
    ensures multiset(FreshStarts(before)) <= multiset(FreshStarts(after))
  {
    hide FreshStarts, SkipCount, Finals;
    if before != after {
      var a, b := after[|before|], after[|before| + 1];
      TwoMore(before, after);
      LogGrows(before, a);
      LogGrows(before + [a], b);
      PrefixMultiset(FreshStarts(before), FreshStarts(after));
    }
  }

  lemma NothingPaced(clock: nat)
    ensures Paced(clock, 0, [], []) && Faithful(Unplayed(clock))
  {
  }

  lemma PacedLater(clock: nat, later: nat, wait: nat, recovered: seq<bool>, times: seq<nat>)
    requires Paced(clock, wait, recovered, times) && clock <= later
    ensures Paced(later, wait, recovered, times)
  {
  }
}
