/** Why checking IsVoiceClientSafeToSend right before a send keeps it out of the library's rebuild
    of its encoder: a timed model of the documented reconnect. */
module SendWindow {
  const CLEANUP_DELAY_MS := 1000

  /** A drop makes the client unsafe at once; the encoder is destroyed at least a second later and the
      client stays unsafe until it has been set up again. */
  datatype Client = Up | Dropped(at: nat) | Rebuilding

  /** `Sending(at)`: the check succeeded at that time and send_audio_raw has not returned. */
  datatype Sender = Idle | Sending(at: nat)

  datatype State = State(now: nat, client: Client, sender: Sender)

  datatype Step = Tick(ms: nat) | Drop | Cleanup | Setup | Check | Return

  const START := State(0, Up, Idle)

  predicate SafeToSend(c: Client) {
    c.Up?
  }

  /** `limit` bounds, strictly, the time from a check to the return of its send. */
  predicate Possible(s: State, t: Step, limit: nat) {
    match t
    case Tick(ms) => s.sender.Sending? ==> s.now + ms - s.sender.at < limit
    case Drop => s.client.Up?
    case Cleanup => s.client.Dropped? && s.now >= s.client.at + CLEANUP_DELAY_MS
    case Setup => s.client.Rebuilding?
    case Check => s.sender.Idle?
    case Return => s.sender.Sending?
  }

  function Apply(s: State, t: Step): State {
    match t
    case Tick(ms) => s.(now := s.now + ms)
    case Drop => s.(client := Dropped(s.now))
    case Cleanup => s.(client := Rebuilding)
    case Setup => s.(client := Up)
    case Check => if SafeToSend(s.client) then s.(sender := Sending(s.now)) else s
    case Return => s.(sender := Idle)
  }

  predicate Feasible(s: State, ts: seq<Step>, limit: nat)
    decreases |ts|
  {
    ts == [] || (Possible(s, ts[0], limit) && Feasible(Apply(s, ts[0]), ts[1..], limit))
  }

  function Final(s: State, ts: seq<Step>): State
    decreases |ts|
  {
    if ts == [] then s else Final(Apply(s, ts[0]), ts[1..])
  }

  /** A send overlaps the window from cleanup to setup. */
  predicate Clash(s: State) {
    s.sender.Sending? && s.client.Rebuilding?
  }

  predicate Inv(s: State, limit: nat) {
    s.sender.Sending? ==>
      && !s.client.Rebuilding?
      && s.now >= s.sender.at && (s.now == s.sender.at || s.now - s.sender.at < limit)
      && (s.client.Dropped? ==> s.client.at >= s.sender.at)
  }

  lemma {:induction false} RunKeepsInv(s: State, ts: seq<Step>, limit: nat)
    requires limit <= CLEANUP_DELAY_MS && Inv(s, limit) && Feasible(s, ts, limit)
    ensures Inv(Final(s, ts), limit)
    decreases |ts|
  {
    if ts != [] {
      RunKeepsInv(Apply(s, ts[0]), ts[1..], limit);
    }
  }

  ghost predicate Excluded(limit: nat) {
    forall ts :: Feasible(START, ts, limit) ==> !Clash(Final(START, ts))
  }

  /** No send ever overlaps a rebuild, over runs with any number of drops, exactly when a check plus
      its send takes at most the cleanup delay, the delay itself excluded. */
  lemma ExclusionExactly(limit: nat)
    ensures Excluded(limit) <==> limit <= CLEANUP_DELAY_MS
  {
    if limit <= CLEANUP_DELAY_MS {
      forall ts | Feasible(START, ts, limit) ensures !Clash(Final(START, ts)) {
        RunKeepsInv(START, ts, limit);
      }
    } else {
      SlowSendClashes(limit);
    }
  }

  lemma SlowSendClashes(limit: nat)
    requires limit > CLEANUP_DELAY_MS
    ensures !Excluded(limit)
  {
    var ts := [Check, Drop, Tick(CLEANUP_DELAY_MS), Cleanup];
    var s1 := Apply(START, Check);
    var s2 := Apply(s1, Drop);
    var s3 := Apply(s2, Tick(CLEANUP_DELAY_MS));
    var s4 := Apply(s3, Cleanup);
    assert ts[1..] == [Drop, Tick(CLEANUP_DELAY_MS), Cleanup] && ts[2..] == [Tick(CLEANUP_DELAY_MS), Cleanup];
    assert ts[1..][1..] == ts[2..] && ts[2..][1..] == [Cleanup] && [Cleanup][1..] == [];
    assert Feasible(s3, [Cleanup], limit) && Final(s3, [Cleanup]) == s4;
    assert Feasible(s2, ts[2..], limit) && Final(s2, ts[2..]) == s4;
    assert Feasible(s1, ts[1..], limit) && Final(s1, ts[1..]) == s4;
    assert Feasible(START, ts, limit) && Clash(Final(START, ts));
  }
}
