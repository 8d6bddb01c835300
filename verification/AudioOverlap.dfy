/** Why the no-overlap assumption is needed: two leaves of one guild that overlap let the second
    erase the GuildInfo under the audio thread that the first is still waiting for. */
module AudioOverlap {
  import opened Options
  import opened AudioLifecycle
  import opened AudioTheorems

  lemma {:induction false} Concat(s: State, ls: seq<Label>, ms: seq<Label>)
    requires Feasible(s, ls) && Feasible(Final(s, ls), ms)
    ensures Feasible(s, ls + ms) && Final(s, ls + ms) == Final(Final(s, ls), ms)
    decreases |ls|
  {
    hide Apply, Possible;
    if ls == [] {
      assert ls + ms == ms;
    } else {
      Concat(Apply(s, ls[0]), ls[1..], ms);
      assert (ls + ms)[0] == ls[0] && (ls + ms)[1..] == ls[1..] + ms;
    }
  }

  /** Thread `t` of guild `g` runs and holds a pointer to its GuildInfo; guildInfosMutex is free. */
  predicate Scene(s: State, t: Aid, g: Guild, o: ObjId) {
    && t in s.actors && s.actors[t].kind.Audio? && UsesPtr(s.actors[t].pc) && s.actors[t].ptr == o
    && g in s.infos && s.infos[g] == o && o in s.heap && GuildInfos !in s.owner
  }

  predicate Leaver(s: State, a: Aid, g: Guild, pc: Pc) {
    a in s.actors && s.actors[a].kind.LeaveCmd? && s.actors[a].guild == g && s.actors[a].pc == pc
  }

  /** One step of a leave outside the erase: the scene stays, and so do the other actors. */
  lemma LeaveStep(s: State, a: Aid, t: Aid, g: Guild, o: ObjId, pc: Pc)
    requires Scene(s, t, g, o) && Leaver(s, a, g, pc) && a != t
    requires pc == Await(Mark) || pc == Await(Stop) || pc == Disconnect
    ensures var s1 := Exec(s, a, 0);
            && Enabled(s, a) && Leaver(s1, a, g, if pc == Disconnect then Await(Erase) else In(pc.sec))
            && s1.infos == s.infos && s1.heap == s.heap && s1.actors == s.actors[a := s1.actors[a]]
            && (pc == Disconnect ==> Scene(s1, t, g, o))
            && (forall l :: l in s1.owner ==> l in s.owner || (l == GuildInfos && s1.owner[l] == a))
  {
  }

  /** The flag section of LeaveVoice. */
  lemma MarkHalf(s: State, a: Aid, t: Aid, g: Guild, o: ObjId) returns (s': State)
    requires Scene(s, t, g, o) && Leaver(s, a, g, Await(Mark)) && a != t
    ensures Feasible(s, Twice(a)) && Final(s, Twice(a)) == s' && Scene(s', t, g, o)
    ensures Leaver(s', a, g, Await(Stop)) && s'.actors == s.actors[a := s'.actors[a]]
    ensures s'.heap[o].handle == s.heap[o].handle
  {
    LeaveStep(s, a, t, g, o, Await(Mark));
    var s1 := Exec(s, a, 0);
    s' := MarkStep(s1, a);
    assert Exec(s1, a, 0) == s';
    TwoSteps(s, a);
  }

  /** The critical section of StopAudioThread. */
  lemma StopHalf(s: State, a: Aid, t: Aid, g: Guild, o: ObjId) returns (s': State)
    requires Scene(s, t, g, o) && Leaver(s, a, g, Await(Stop)) && a != t
    ensures Feasible(s, Twice(a)) && Final(s, Twice(a)) == s' && Scene(s', t, g, o)
    ensures a in s'.actors && s'.actors == s.actors[a := s'.actors[a]] && s'.heap[o].handle.None?
    ensures s.heap[o].handle.None? ==> Leaver(s', a, g, Disconnect)
  {
    LeaveStep(s, a, t, g, o, Await(Stop));
    var s1 := Exec(s, a, 0);
    s' := StopStep(s1, a);
    assert Exec(s1, a, 0) == s';
    TwoSteps(s, a);
  }

  lemma MarkThenStop(s: State, a: Aid, t: Aid, g: Guild, o: ObjId) returns (ls: seq<Label>, s': State)
    requires Scene(s, t, g, o) && Leaver(s, a, g, Await(Mark)) && a != t
    ensures Feasible(s, ls) && Final(s, ls) == s' && Scene(s', t, g, o)
    ensures a in s'.actors && s'.actors == s.actors[a := s'.actors[a]] && s'.heap[o].handle.None?
    ensures s.heap[o].handle.None? ==> Leaver(s', a, g, Disconnect)
  {
    hide Feasible, Final, Enabled;
    var s1 := MarkHalf(s, a, t, g, o);
    s' := StopHalf(s1, a, t, g, o);
    ls := Twice(a) + Twice(a);
    Concat(s, Twice(a), Twice(a));
  }

  function Twice(a: Aid): seq<Label> {
    [Run(a, 0), Run(a, 0)]
  }

  lemma TwoSteps(s: State, a: Aid)
    requires Enabled(s, a) && Enabled(Exec(s, a, 0), a)
    ensures Feasible(s, Twice(a)) && Final(s, Twice(a)) == Exec(Exec(s, a, 0), a, 0)
  {
    OneLabel(Exec(s, a, 0), Run(a, 0));
    assert Twice(a)[1..] == [Run(a, 0)];
  }

  lemma OneLabel(s: State, l: Label)
    requires Possible(s, l)
    ensures Feasible(s, [l]) && Final(s, [l]) == Apply(s, l)
  {
    assert [l][1..] == [];
  }

  lemma EraseUnder(s: State, b: Aid, t: Aid, g: Guild, o: ObjId) returns (ls: seq<Label>, s': State)
    requires Scene(s, t, g, o) && Leaver(s, b, g, Disconnect) && b != t && s.heap[o].handle.None?
    ensures Feasible(s, ls) && Final(s, ls) == s'
    ensures t in s'.actors && s'.actors[t] == s.actors[t] && o !in s'.heap
  {
    LeaveStep(s, b, t, g, o, Disconnect);
    var s1 := Exec(s, b, 0);
    var s2 := Exec(s1, b, 0);
    assert s2 == Become(s1, b, s1.actors[b].(pc := In(Erase)));
    s' := Exec(s2, b, 0);
    assert s' == AfterErase(s2, b, false);
    TwoSteps(s, b);
    OneLabel(s2, Run(b, 0));
    ls := Twice(b) + [Run(b, 0)];
    Concat(s, Twice(b), [Run(b, 0)]);
  }

  /** From every state with a running audio thread and guildInfosMutex free, two leaves issued one
      after the other can be scheduled so that the thread is left with a dangling pointer. */
  lemma OverlapDangles(s: State, t: Aid, g: Guild, o: ObjId) returns (ls: seq<Label>)
    requires Scene(s, t, g, o) && forall a :: a in s.actors ==> a < s.nextAid
    ensures |ls| >= 2 && ls[..2] == [Spawn(LeaveCmd, g), Spawn(LeaveCmd, g)] && Feasible(s, ls)
    ensures LiveOn(Final(s, ls), t, o) && o !in Final(s, ls).heap
  {
    var a, b := s.nextAid, s.nextAid + 1;
    var s0 := SpawnActor(SpawnActor(s, LeaveCmd, g), LeaveCmd, g);
    var spawns := [Spawn(LeaveCmd, g), Spawn(LeaveCmd, g)];
    assert Feasible(s, spawns) && Final(s, spawns) == s0 by {
      OneLabel(SpawnActor(s, LeaveCmd, g), Spawn(LeaveCmd, g));
      assert spawns[1..] == [Spawn(LeaveCmd, g)];
    }
    assert Scene(s0, t, g, o) && Leaver(s0, a, g, Await(Mark)) && Leaver(s0, b, g, Await(Mark));
    var xs, s1 := MarkThenStop(s0, a, t, g, o);
    var ys, s2 := MarkThenStop(s1, b, t, g, o);
    var zs, s3 := EraseUnder(s2, b, t, g, o);
    Concat(s1, ys, zs);
    Concat(s0, xs, ys + zs);
    Concat(s, spawns, xs + (ys + zs));
    ls := spawns + (xs + (ys + zs));
  }

  predicate LiveOn(s: State, t: Aid, o: ObjId) {
    t in s.actors && s.actors[t].kind.Audio? && UsesPtr(s.actors[t].pc) && s.actors[t].ptr == o
  }
}
