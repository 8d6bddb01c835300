/** Songs, and the history of what an audio thread did with them. */
module Playlog {
  import opened Frames
  import opened Seqs

  /** The fields of VideoDbInfo that the queue uses. */
  datatype Song = Song(id: string, title: string, filePath: string)

  const NO_SONG := Song("", "", "")

  /** The items of a server reply that have a file, in their order. */
  function Playable(items: seq<Song>): seq<Song> {
    if items == [] then []
    else
      var rest := Playable(items[..|items| - 1]);
      if items[|items| - 1].filePath != "" then rest + [items[|items| - 1]] else rest
  }

  lemma PlayableMore(front: seq<Song>, last: Song)
    ensures Playable([]) == []
    ensures Playable(front + [last]) == if last.filePath != "" then Playable(front) + [last] else Playable(front)
  {
    assert (front + [last])[..|front|] == front;
  }

  lemma FilesMore(front: seq<Song>, last: Song)
    ensures HaveFiles(front + [last]) <==> HaveFiles(front) && last.filePath != ""
  {
    assert (front + [last])[|front|] == last;
    assert forall i :: 0 <= i < |front| ==> (front + [last])[i] == front[i];
  }

  ghost predicate KeptRight(items: seq<Song>, kept: seq<Song>) {
    && HaveFiles(kept)
    && (HaveFiles(items) ==> kept == items)
    && (forall x :: multiset(kept)[x] == if x.filePath != "" then multiset(items)[x] else 0)
  }

  lemma KeptRightMore(front: seq<Song>, kept: seq<Song>, last: Song)
    requires KeptRight(front, kept)
    ensures KeptRight(front + [last], if last.filePath != "" then kept + [last] else kept)
  {
    FilesMore(front, last);
    FilesMore(kept, last);
    hide HaveFiles;
  }

  lemma {:induction false} PlayableKept(items: seq<Song>)
    ensures KeptRight(items, Playable(items))
  {
    if items == [] {
      assert Playable([]) == [];
    } else {
      var front, last := items[..|items| - 1], items[|items| - 1];
      PlayableKept(front);
      SplitLast(items);
      PlayableMore(front, last);
      hide KeptRight, Playable;
      KeptRightMore(front, Playable(front), last);
    }
  }

  /** Every item with a file is kept as often as it occurs, no other is, and a list of items with
      files stays as it is. */
  lemma PlayableHasFile(items: seq<Song>)
    ensures HaveFiles(Playable(items))
    ensures HaveFiles(items) ==> Playable(items) == items
    ensures forall x :: multiset(Playable(items))[x] == if x.filePath != "" then multiset(items)[x] else 0
  {
    PlayableKept(items);
    hide Playable, HaveFiles;
  }

  /** The positions of the items with a file. */
  function KeptAt(items: seq<Song>): seq<nat> {
    if items == [] then []
    else
      var n := |items| - 1;
      KeptAt(items[..n]) + if items[n].filePath != "" then [n] else []
  }

  /** `kept` are the items at the positions `at`, which increase and are those of the items with a file. */
  ghost predicate KeptInOrder(items: seq<Song>, kept: seq<Song>, at: seq<nat>) {
    && |at| == |kept|
    && (forall k :: 0 <= k < |at| ==> at[k] < |items| && kept[k] == items[at[k]])
    && (forall j, k :: 0 <= j < k < |at| ==> at[j] < at[k])
    && (forall i :: 0 <= i < |items| ==> (items[i].filePath != "" <==> i in at))
  }

  lemma KeptInOrderMore(front: seq<Song>, kept: seq<Song>, at: seq<nat>, last: Song)
    requires KeptInOrder(front, kept, at)
    ensures if last.filePath != "" then KeptInOrder(front + [last], kept + [last], at + [|front|])
            else KeptInOrder(front + [last], kept, at)
  {
    var items := front + [last];
    assert items[|front|] == last && forall i :: 0 <= i < |front| ==> items[i] == front[i];
    assert |front| !in at;
  }

  /** What is kept stays in its order. */
  lemma {:induction false} PlayableInOrder(items: seq<Song>)
    ensures KeptInOrder(items, Playable(items), KeptAt(items))
  {
    if items != [] {
      var n := |items| - 1;
      var front, last := items[..n], items[n];
      PlayableInOrder(front);
      PlayableMore(front, last);
      SplitLast(items);
      assert KeptAt(items) == if last.filePath != "" then KeptAt(front) + [n] else KeptAt(front);
      hide KeptAt, Playable, KeptInOrder;
      KeptInOrderMore(front, Playable(front), KeptAt(front), last);
    }
  }

  /** A song is opened, then its performance ends; `repeatOn` is the flag read at that moment. */
  datatype Event =
    | Started(song: Song, replay: bool)
    | Ended(song: Song, perf: Performance, repeatOn: bool)

  predicate Replays(e: Event) {
    e.Ended? && e.perf.how.Natural? && e.repeatOn
  }

  ghost predicate StepOk(log: seq<Event>, i: nat)
    requires i < |log|
  {
    match log[i]
    case Started(song, replay) =>
      && (i == 0 || log[i - 1].Ended?)
      && (replay <==> i > 0 && Replays(log[i - 1]))
      && (replay ==> log[i - 1].song == song)
    case Ended(song, perf, _) =>
      && i > 0 && log[i - 1].Started? && log[i - 1].song == song && Faithful(perf)
  }

  /** Openings and endings alternate, every performance is faithful, and a song is opened again
      exactly when it ended naturally with repeat on. */
  ghost predicate LogOk(log: seq<Event>) {
    forall i :: 0 <= i < |log| ==> StepOk(log, i)
  }

  /** The songs taken from the queue, in order. */
  function FreshStarts(log: seq<Event>): seq<Song> {
    if log == [] then []
    else
      var e := log[|log| - 1];
      FreshStarts(log[..|log| - 1]) + (if e.Started? && !e.replay then [e.song] else [])
  }

  /** The songs that were ended for good. */
  function Finals(log: seq<Event>): multiset<Song> {
    if log == [] then multiset{}
    else
      var e := log[|log| - 1];
      Finals(log[..|log| - 1]) + (if e.Ended? && !Replays(e) then multiset{e.song} else multiset{})
  }

  function SkipCount(log: seq<Event>): nat {
    if log == [] then 0
    else
      var e := log[|log| - 1];
      SkipCount(log[..|log| - 1]) + (if e.Ended? && e.perf.how.Skipped? then 1 else 0)
  }

  /** The frames the performances of a history sent. */
  ghost function Heard(log: seq<Event>): seq<Send> {
    if log == [] then []
    else
      var e := log[|log| - 1];
      Heard(log[..|log| - 1]) + (if e.Ended? then SendsOf(e.perf) else [])
  }

  ghost function SendsOf(p: Performance): seq<Send> {
    if |p.frames| == |p.times| == |p.recovered| then Sends(p.frames, p.times, p.recovered) else []
  }

  lemma HeardGrows(log: seq<Event>, e: Event)
    ensures Heard(log + [e]) == Heard(log) + (if e.Ended? then SendsOf(e.perf) else [])
    ensures Heard([]) == []
  {
    assert (log + [e])[..|log|] == log && (log + [e])[|log|] == e;
  }

  lemma LogGrows(log: seq<Event>, e: Event)
    ensures FreshStarts(log + [e]) == FreshStarts(log) + (if e.Started? && !e.replay then [e.song] else [])
    ensures Finals(log + [e]) == Finals(log) + (if e.Ended? && !Replays(e) then multiset{e.song} else multiset{})
    ensures SkipCount(log + [e]) == SkipCount(log) + (if e.Ended? && e.perf.how.Skipped? then 1 else 0)
  {
    assert (log + [e])[..|log|] == log && (log + [e])[|log|] == e;
  }

  lemma LogStaysOk(log: seq<Event>, e: Event)
    requires LogOk(log) && StepOk(log + [e], |log|)
    ensures LogOk(log + [e])
  {
    forall i | 0 <= i < |log| + 1 ensures StepOk(log + [e], i) {
      if i < |log| {
        assert StepOk(log, i);
      }
    }
  }

  /** Every song opened from the queue was ended for good, except the one being played or about to
      be replayed: conservation read off the history alone. */
  lemma {:induction false} StartsEnd(log: seq<Event>)
    requires LogOk(log)
    ensures multiset(FreshStarts(log)) == Finals(log) + Playing(log)
  {
    hide Faithful;
    if log != [] {
      var n := |log| - 1;
      var front, e := log[..n], log[n];
      assert StepOk(log, n);
      forall i | 0 <= i < n ensures StepOk(front, i) {
        assert StepOk(log, i);
      }
      StartsEnd(front);
      if n > 0 {
        assert front[n - 1] == log[n - 1];
      }
    }
  }

  // ---------------------------------------------------------------- replays

  /** All songs opened, replays included, in order. */
  function AllStarts(log: seq<Event>): seq<Song> {
    if log == [] then []
    else
      var e := log[|log| - 1];
      AllStarts(log[..|log| - 1]) + (if e.Started? then [e.song] else [])
  }

  /** A song taken from the queue, and how many natural endings with repeat on followed before the next
      was taken. */
  datatype Spell = Spell(song: Song, repeats: nat)

  function Spells(log: seq<Event>): seq<Spell> {
    if log == [] then []
    else
      var spells, e := Spells(log[..|log| - 1]), log[|log| - 1];
      if e.Started? && !e.replay then spells + [Spell(e.song, 0)]
      else if Replays(e) && spells != [] then OneMoreRepeat(spells)
      else spells
  }

  function OneMoreRepeat(spells: seq<Spell>): seq<Spell>
    requires spells != []
  {
    var last := spells[|spells| - 1];
    spells[..|spells| - 1] + [Spell(last.song, last.repeats + 1)]
  }

  function Times(song: Song, n: nat): seq<Song> {
    if n == 0 then [] else Times(song, n - 1) + [song]
  }

  /** Each song once, and once more for each of its repeats. */
  function Expand(spells: seq<Spell>): seq<Song> {
    if spells == [] then []
    else
      var last := spells[|spells| - 1];
      Expand(spells[..|spells| - 1]) + Times(last.song, last.repeats + 1)
  }

  /** The songs alone. */
  function SongsOf(spells: seq<Spell>): seq<Song> {
    if spells == [] then [] else SongsOf(spells[..|spells| - 1]) + [spells[|spells| - 1].song]
  }

  /** The replay that a natural ending with repeat on has made due. */
  function Due(log: seq<Event>): seq<Song> {
    if log != [] && Replays(log[|log| - 1]) then [log[|log| - 1].song] else []
  }

  lemma ExpandAppend(spells: seq<Spell>, last: Spell)
    ensures Expand(spells + [last]) == Expand(spells) + Times(last.song, last.repeats + 1)
    ensures SongsOf(spells + [last]) == SongsOf(spells) + [last.song]
  {
    assert (spells + [last])[..|spells|] == spells;
  }

  lemma TimesMore(song: Song, n: nat)
    ensures Times(song, n + 1) == Times(song, n) + [song]
    ensures Times(song, 1) == [song]
  {
    assert Times(song, 0) == [];
  }

  lemma Assoc<T>(a: seq<T>, b: seq<T>, c: seq<T>)
    ensures a + (b + c) == (a + b) + c
  {
  }

  lemma ExpandLonger(front: seq<Spell>, song: Song, repeats: nat)
    ensures Expand(front + [Spell(song, repeats + 1)]) == Expand(front + [Spell(song, repeats)]) + [song]
    ensures SongsOf(front + [Spell(song, repeats + 1)]) == SongsOf(front + [Spell(song, repeats)])
  {
    hide Expand, SongsOf, Times;
    ExpandAppend(front, Spell(song, repeats));
    ExpandAppend(front, Spell(song, repeats + 1));
    TimesMore(song, repeats + 1);
    Assoc(Expand(front), Times(song, repeats + 1), [song]);
  }

  lemma ExpandRepeat(spells: seq<Spell>)
    requires spells != []
    ensures Expand(OneMoreRepeat(spells)) == Expand(spells) + [spells[|spells| - 1].song]
    ensures SongsOf(OneMoreRepeat(spells)) == SongsOf(spells)
  {
    hide Expand, SongsOf, Times;
    var front, last := spells[..|spells| - 1], spells[|spells| - 1];
    ExpandLonger(front, last.song, last.repeats);
    SplitLast(spells);
  }

  /** The songs opened are the songs taken from the queue, each once and once more for each natural
      ending with repeat on that followed it; only such an ending leads to a replay, and only the last
      one may still have it due. */
  lemma {:induction false} ReplaysExactly(log: seq<Event>)
    requires LogOk(log)
    ensures AllStarts(log) + Due(log) == Expand(Spells(log))
    ensures SongsOf(Spells(log)) == FreshStarts(log)
    ensures log != [] ==> Spells(log) != [] && Spells(log)[|Spells(log)| - 1].song == log[|log| - 1].song
  {
    if log != [] {
      var n := |log| - 1;
      var front, e := log[..n], log[n];
      LogOkFront(log, n);
      ReplaysExactly(front);
      SplitLast(log);
      hide LogOk, AllStarts, Spells, FreshStarts, Expand, SongsOf, Due;
      ReplayStep(front, e);
    }
  }

  /** How many natural endings with repeat on there were. */
  function RepeatEnds(log: seq<Event>): nat {
    if log == [] then 0 else RepeatEnds(log[..|log| - 1]) + (if Replays(log[|log| - 1]) then 1 else 0)
  }

  lemma {:induction false} ReplaysCounted(log: seq<Event>)
    requires LogOk(log)
    ensures |AllStarts(log)| + |Due(log)| == |FreshStarts(log)| + RepeatEnds(log)
  {
    if log != [] {
      var n := |log| - 1;
      LogOkFront(log, n);
      ReplaysCounted(log[..n]);
      SplitLast(log);
      hide LogOk, Due;
      LastEvent(log[..n], log[n]);
    }
  }

  lemma LogOkFront(log: seq<Event>, n: nat)
    requires LogOk(log) && n <= |log|
    ensures LogOk(log[..n])
  {
    forall i | 0 <= i < n ensures StepOk(log[..n], i) {
      assert StepOk(log, i);
    }
  }

  lemma AllStartsGrow(log: seq<Event>, e: Event)
    ensures AllStarts(log + [e]) == AllStarts(log) + (if e.Started? then [e.song] else [])
    ensures Spells(log + [e]) ==
      if e.Started? && !e.replay then Spells(log) + [Spell(e.song, 0)]
      else if Replays(e) && Spells(log) != [] then OneMoreRepeat(Spells(log))
      else Spells(log)
  {
    assert (log + [e])[..|log|] == log && (log + [e])[|log|] == e;
  }

  lemma ReplayStep(log: seq<Event>, e: Event)
    requires LogOk(log + [e])
    requires AllStarts(log) + Due(log) == Expand(Spells(log)) && SongsOf(Spells(log)) == FreshStarts(log)
    requires log != [] ==> Spells(log) != [] && Spells(log)[|Spells(log)| - 1].song == log[|log| - 1].song
    ensures AllStarts(log + [e]) + Due(log + [e]) == Expand(Spells(log + [e]))
    ensures SongsOf(Spells(log + [e])) == FreshStarts(log + [e])
    ensures var spells := Spells(log + [e]); spells != [] && spells[|spells| - 1].song == e.song
  {
    hide *;
    LastEvent(log, e);
    AllStartsGrow(log, e);
    LogGrows(log, e);
    ReplayAccount(Spells(log), AllStarts(log), FreshStarts(log), e);
  }

  /** What a well-formed history says of its last event. */
  lemma LastEvent(log: seq<Event>, e: Event)
    requires LogOk(log + [e])
    ensures e.Ended? || e.replay ==> log != [] && e.song == log[|log| - 1].song
    ensures Due(log) == if e.Started? && e.replay then [e.song] else []
    ensures Due(log + [e]) == if Replays(e) then [e.song] else []
  {
    assert StepOk(log + [e], |log|);
    hide LogOk, Faithful;
    assert (log + [e])[|log|] == e && (log != [] ==> (log + [e])[|log| - 1] == log[|log| - 1]);
  }

  /** The account of one event. */
  lemma ReplayAccount(spells: seq<Spell>, starts: seq<Song>, taken: seq<Song>, e: Event)
    requires starts + (if e.Started? && e.replay then [e.song] else []) == Expand(spells) && SongsOf(spells) == taken
    requires e.Ended? || e.replay ==> spells != [] && spells[|spells| - 1].song == e.song
    ensures var more := if e.Started? && !e.replay then spells + [Spell(e.song, 0)]
                        else if Replays(e) && spells != [] then OneMoreRepeat(spells) else spells;
      && starts + (if e.Started? then [e.song] else []) + (if Replays(e) then [e.song] else []) == Expand(more)
      && SongsOf(more) == taken + (if e.Started? && !e.replay then [e.song] else [])
      && more != [] && more[|more| - 1].song == e.song
  {
    hide Expand, SongsOf, OneMoreRepeat, Times;
    if e.Started? && !e.replay {
      ExpandAppend(spells, Spell(e.song, 0));
      TimesMore(e.song, 0);
    } else if Replays(e) {
      ExpandRepeat(spells);
      LastSong(spells);
    }
  }

  lemma LastSong(spells: seq<Spell>)
    requires spells != []
    ensures var more := OneMoreRepeat(spells); more != [] && more[|more| - 1].song == spells[|spells| - 1].song
  {
  }

  // ---------------------------------------------------------------- the queue against its history

  /** The song being played, or about to be replayed, by the history. */
  function Playing(log: seq<Event>): multiset<Song> {
    if log != [] && (log[|log| - 1].Started? || Replays(log[|log| - 1])) then multiset{log[|log| - 1].song}
    else multiset{}
  }

  function Current(current: Song): multiset<Song> {
    if current.filePath == "" then multiset{} else multiset{current}
  }

  predicate HaveFiles(queue: seq<Song>) {
    forall i :: 0 <= i < |queue| ==> queue[i].filePath != ""
  }

  /** Everything enqueued is queued, taken or removed; in order, unless the order was disturbed. */
  predicate Accounted(queue: seq<Song>, enqueued: seq<Song>, removed: multiset<Song>, log: seq<Event>, inOrder: bool) {
    && multiset(enqueued) == multiset(queue) + multiset(FreshStarts(log)) + removed
    && (inOrder ==> enqueued == FreshStarts(log) + queue)
  }

  lemma AppendedStayAccounted(queue: seq<Song>, enqueued: seq<Song>, removed: multiset<Song>, log: seq<Event>,
                              inOrder: bool, items: seq<Song>)
    requires Accounted(queue, enqueued, removed, log, inOrder) && HaveFiles(queue) && HaveFiles(items)
    ensures Accounted(queue + items, enqueued + items, removed, log, inOrder) && HaveFiles(queue + items)
  {
    assert FreshStarts(log) + queue + items == FreshStarts(log) + (queue + items);
  }

  /** A block put first keeps the order exactly when it makes no difference to put it last. */
  lemma PrependedStayAccounted(queue: seq<Song>, enqueued: seq<Song>, removed: multiset<Song>, log: seq<Event>,
                               inOrder: bool, items: seq<Song>)
    requires Accounted(queue, enqueued, removed, log, inOrder) && HaveFiles(queue) && HaveFiles(items)
    ensures Accounted(items + queue, enqueued + items, removed, log, inOrder && items + queue == queue + items)
    ensures inOrder ==>
      (enqueued + items == FreshStarts(log) + (items + queue) <==> items + queue == queue + items)
    ensures HaveFiles(items + queue)
  {
    hide FreshStarts;
    if inOrder {
      SameTail(FreshStarts(log), queue + items, items + queue);
      assert enqueued + items == FreshStarts(log) + (queue + items);
    }
  }

  lemma SameTail<T>(front: seq<T>, a: seq<T>, b: seq<T>)
    ensures front + a == front + b <==> a == b
  {
    if front + a == front + b {
      assert a == (front + a)[|front|..] && b == (front + b)[|front|..];
    }
  }

  lemma WithoutOne<T>(s: seq<T>, k: nat)
    requires k < |s|
    ensures multiset(s) == multiset(s[..k] + s[k + 1..]) + multiset{s[k]}
  {
    assert s == s[..k] + [s[k]] + s[k + 1..];
  }

  lemma RemovedStayAccounted(queue: seq<Song>, enqueued: seq<Song>, removed: multiset<Song>, log: seq<Event>,
                             inOrder: bool, k: nat)
    requires Accounted(queue, enqueued, removed, log, inOrder) && HaveFiles(queue) && k < |queue|
    ensures Accounted(queue[..k] + queue[k + 1..], enqueued, removed + multiset{queue[k]}, log, false)
    ensures HaveFiles(queue[..k] + queue[k + 1..])
  {
    hide FreshStarts;
    WithoutOne(queue, k);
  }

  lemma HeadMoves<T>(front: seq<T>, queue: seq<T>)
    requires queue != []
    ensures front + queue == front + [queue[0]] + queue[1..]
    ensures multiset(queue) + multiset(front) == multiset(queue[1..]) + multiset(front + [queue[0]])
  {
    assert queue == [queue[0]] + queue[1..];
  }

  /** Taking the head of the queue. */
  lemma TakenStayAccounted(queue: seq<Song>, enqueued: seq<Song>, removed: multiset<Song>, log: seq<Event>,
                           inOrder: bool)
    requires Accounted(queue, enqueued, removed, log, inOrder) && queue != []
    ensures Accounted(queue[1..], enqueued, removed, log + [Started(queue[0], false)], inOrder)
  {
    var e := Started(queue[0], false);
    LogGrows(log, e);
    assert FreshStarts(log + [e]) == FreshStarts(log) + [queue[0]];
    hide FreshStarts;
    HeadMoves(FreshStarts(log), queue);
  }

  /** Events that take nothing from the queue. */
  lemma OthersStayAccounted(queue: seq<Song>, enqueued: seq<Song>, removed: multiset<Song>, log: seq<Event>,
                            inOrder: bool, e: Event)
    requires Accounted(queue, enqueued, removed, log, inOrder) && (e.Started? ==> e.replay)
    ensures Accounted(queue, enqueued, removed, log + [e], inOrder)
  {
    LogGrows(log, e);
    assert FreshStarts(log + [e]) == FreshStarts(log);
    hide FreshStarts;
  }

  /** An empty current path means exactly that no song is playing or kept for a replay. */
  lemma CurrentMeansPlaying(current: Song, log: seq<Event>)
    requires Current(current) == Playing(log)
    ensures current.filePath == "" <==> log == [] || (log[|log| - 1].Ended? && !Replays(log[|log| - 1]))
    ensures current.filePath != "" ==> log[|log| - 1].song == current
  {
    if log != [] && (log[|log| - 1].Started? || Replays(log[|log| - 1])) {
      assert log[|log| - 1].song in Playing(log);
    }
    if current.filePath != "" {
      assert current in Current(current);
    }
  }

  /** Opening the head of the queue when nothing is current. */
  lemma OpenFresh(queue: seq<Song>, enqueued: seq<Song>, removed: multiset<Song>, log: seq<Event>, inOrder: bool,
                  current: Song)
    requires HaveFiles(queue) && Accounted(queue, enqueued, removed, log, inOrder) && LogOk(log) && queue != []
    requires Current(current) == Playing(log) && current.filePath == "" && (log == [] || log[|log| - 1].Ended?)
    ensures var e := Started(queue[0], false);
      && queue[0].filePath != ""
      && HaveFiles(queue[1..]) && Accounted(queue[1..], enqueued, removed, log + [e], inOrder) && LogOk(log + [e])
      && Current(queue[0]) == Playing(log + [e]) && SkipCount(log + [e]) == SkipCount(log)
  {
    var e := Started(queue[0], false);
    CurrentMeansPlaying(current, log);
    TakenStayAccounted(queue, enqueued, removed, log, inOrder);
    LogGrows(log, e);
    assert StepOk(log + [e], |log|);
    LogStaysOk(log, e);
  }

  /** Opening the current song again. */
  lemma OpenAgain(queue: seq<Song>, enqueued: seq<Song>, removed: multiset<Song>, log: seq<Event>, inOrder: bool,
                  current: Song)
    requires Accounted(queue, enqueued, removed, log, inOrder) && LogOk(log)
    requires Current(current) == Playing(log) && current.filePath != "" && (log == [] || log[|log| - 1].Ended?)
    ensures var e := Started(current, true);
      && Accounted(queue, enqueued, removed, log + [e], inOrder) && LogOk(log + [e])
      && Current(current) == Playing(log + [e]) && SkipCount(log + [e]) == SkipCount(log)
  {
    var e := Started(current, true);
    CurrentMeansPlaying(current, log);
    OthersStayAccounted(queue, enqueued, removed, log, inOrder, e);
    LogGrows(log, e);
    assert StepOk(log + [e], |log|);
    LogStaysOk(log, e);
  }

  /** The end of a performance. */
  lemma Close(queue: seq<Song>, enqueued: seq<Song>, removed: multiset<Song>, log: seq<Event>, inOrder: bool, e: Event)
    requires Accounted(queue, enqueued, removed, log, inOrder) && LogOk(log)
    requires log != [] && log[|log| - 1].Started? && e.Ended? && e.song == log[|log| - 1].song && Faithful(e.perf)
    requires e.song.filePath != ""
    ensures Accounted(queue, enqueued, removed, log + [e], inOrder) && LogOk(log + [e])
    ensures Playing(log + [e]) == Current(if Replays(e) then e.song else NO_SONG)
    ensures SkipCount(log + [e]) == SkipCount(log) + (if e.perf.how.Skipped? then 1 else 0)
  {
    OthersStayAccounted(queue, enqueued, removed, log, inOrder, e);
    LogGrows(log, e);
    assert StepOk(log + [e], |log|);
    LogStaysOk(log, e);
  }
}
