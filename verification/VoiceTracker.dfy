/** The maps behind voiceMutex, for all guilds, and the methods that keep them. */
module VoiceTracker {
  import opened Options
  import opened VoiceIndex

  type Guild = nat

  datatype Observation = Observation(known: bool, botPresent: bool, humans: nat)

  /** One entry of the library's cache: the user's channel, and whether the user cache says bot. */
  datatype CachedState = CachedState(channel: Channel, bot: bool)

  /** The members of a cached guild that are in a channel. */
  function Snapshotted(cache: map<User, CachedState>): Index {
    map u | u in cache && cache[u].channel != 0 :: Member(cache[u].channel, cache[u].bot)
  }

  /** What ObserveVoice should answer for an index. */
  function Observed(idx: Index, seeded: bool, bot: User): Observation {
    if bot == 0 || !seeded then Observation(false, false, 0)
    else if bot !in idx then Observation(true, false, 0)
    else Observation(true, true, |Humans(idx, bot)|)
  }

  class Tracker {
    var voiceOccupancy: map<Guild, Index>
    var seededVoiceGuilds: set<Guild>

    /** The index of a guild; a guild without an entry has an empty one. */
    function Occupancy(g: Guild): Index
      reads this
    {
      if g in voiceOccupancy then voiceOccupancy[g] else map[]
    }

    constructor ()
      ensures voiceOccupancy == map[] && seededVoiceGuilds == {}
    {
      voiceOccupancy, seededVoiceGuilds := map[], {};
    }

    method OnVoiceStateUpdate(guildId: Guild, e: Event)
      modifies `voiceOccupancy
      ensures guildId == 0 || e.user == 0 ==> voiceOccupancy == old(voiceOccupancy)
      ensures guildId != 0 && e.user != 0 ==> Occupancy(guildId) == ApplyEvent(old(Occupancy(guildId)), e)
      ensures forall g :: g != guildId ==> Occupancy(g) == old(Occupancy(g))
    {
      if guildId == 0 || e.user == 0 { return; }
      if e.channel == 0 {
        if guildId in voiceOccupancy {
          voiceOccupancy := voiceOccupancy[guildId := voiceOccupancy[guildId] - {e.user}];
        }
      } else {
        var members := Occupancy(guildId);
        voiceOccupancy := voiceOccupancy[guildId := members[e.user := Member(e.channel, e.isBot)]];
      }
    }

    /** The copy EnsureVoiceSeeded takes of the library's cache, holding no lock. */
    static method CopyCache(cache: map<User, CachedState>) returns (entries: Index)
      ensures entries == Snapshotted(cache)
    {
      entries := map[];
      var left := cache.Keys;
      while left != {}
        invariant left <= cache.Keys
        invariant entries == Snapshotted(cache - left)
      {
        var u :| u in left;
        left := left - {u};
        if cache[u].channel != 0 {
          entries := entries[u := Member(cache[u].channel, cache[u].bot)];
        }
      }
      assert cache - left == cache;
    }

    /** The merge of that copy: entries that events have brought in stay. */
    method MergeSnapshot(guildId: Guild, entries: Index)
      modifies this
      ensures Occupancy(guildId) == MergeInto(old(Occupancy(guildId)), entries)
      ensures seededVoiceGuilds == old(seededVoiceGuilds) + {guildId}
      ensures forall g :: g != guildId ==> Occupancy(g) == old(Occupancy(g))
    {
      var members := Occupancy(guildId);
      var left := entries.Keys;
      while left != {}
        invariant left <= entries.Keys
        invariant members == MergeInto(Occupancy(guildId), entries - left)
      {
        var u :| u in left;
        left := left - {u};
        if u !in members {
          members := members[u := entries[u]];
        }
      }
      assert entries - left == entries;
      voiceOccupancy := voiceOccupancy[guildId := members];
      seededVoiceGuilds := seededVoiceGuilds + {guildId};
    }

    method ResetVoiceTracking(guildId: Guild)
      modifies this
      ensures Occupancy(guildId) == map[] && seededVoiceGuilds == old(seededVoiceGuilds) - {guildId}
      ensures forall g :: g != guildId ==> Occupancy(g) == old(Occupancy(g))
    {
      seededVoiceGuilds := seededVoiceGuilds - {guildId};
      voiceOccupancy := voiceOccupancy - {guildId};
    }

    /** Counts the people in the bot's channel. */
    method ObserveVoice(guildId: Guild, botId: User) returns (obs: Observation)
      ensures obs == Observed(Occupancy(guildId), guildId in seededVoiceGuilds, botId)
    {
      if botId == 0 || guildId !in seededVoiceGuilds { return Observation(false, false, 0); }
      if guildId !in voiceOccupancy { return Observation(true, false, 0); }
      var members := voiceOccupancy[guildId];
      if botId !in members { return Observation(true, false, 0); }
      var humans := CountHumans(members, botId);
      obs := Observation(true, true, humans);
    }
  }

  method CountHumans(members: Index, botId: User) returns (humans: nat)
    requires botId in members
    ensures humans == |Humans(members, botId)|
  {
    humans := 0;
    var left := members.Keys;
    ghost var seen: set<User> := {};
    while left != {}
      invariant left <= members.Keys && seen == Humans(members, botId) - left && humans == |seen|
    {
      var u :| u in left;
      left := left - {u};
      if u != botId && !members[u].isBot && members[u].channelId == members[botId].channelId {
        humans := humans + 1;
        seen := seen + {u};
      }
    }
    assert seen == Humans(members, botId);
  }

  /** The index of a guild has caught up, and has lost neither the user nor the bot. */
  ghost predicate UpToDate(s: State, realBots: iset<User>, bot: User, u: User) {
    s.delivered == |s.log| && FlagsSound(s, realBots) && !Lost(s, u) && !Lost(s, bot)
  }

  /** An observation of a channel without humans means that nobody the index has not lost is there. */
  lemma EmptyMeansEmpty(s: State, realBots: iset<User>, bot: User, u: User)
    requires Inv(s) && UpToDate(s, realBots, bot, u)
    requires var obs := Observed(s.idx, s.seeded, bot); obs.known && obs.botPresent && obs.humans == 0
    ensures !ReallyWithBot(s, realBots, bot, u)
  {
    if ReallyWithBot(s, realBots, bot, u) {
      HumansCovered(s, realBots, bot, {u});
    }
  }

  /** A bot really in voice that the index has not lost is seen. */
  lemma BotIsSeen(s: State, bot: User)
    requires Inv(s) && s.seeded && s.delivered == |s.log| && bot != 0
    requires Truth(s.log, |s.log|, bot).Some? && !Lost(s, bot)
    ensures Observed(s.idx, s.seeded, bot).botPresent
  {
    AgreesExactly(s, bot);
  }

  /** The library's cache as it is after the first `k` events, with its knowledge of who is a bot. */
  ghost predicate CacheHolds(cache: map<User, CachedState>, log: seq<Event>, k: nat, realBots: iset<User>) {
    && k <= |log|
    && forall u ::
         if u in cache && cache[u].channel != 0
         then Truth(log, k, u) == Some(cache[u].channel) && (cache[u].bot <==> u in realBots)
         else Truth(log, k, u) == None
  }

  /** The copy of such a cache is a snapshot in the sense of the system, with exact flags. */
  lemma CopyIsSnapshot(cache: map<User, CachedState>, log: seq<Event>, k: nat, realBots: iset<User>)
    requires CacheHolds(cache, log, k, realBots)
    ensures SnapshotOf(Snapshotted(cache), log, k)
    ensures forall u :: u in Snapshotted(cache) ==> (Snapshotted(cache)[u].isBot <==> u in realBots)
  {
    hide Truth;
    forall u ensures u in Snapshotted(cache) <==> Truth(log, k, u).Some? {
      assert u in cache && cache[u].channel != 0 ==> Truth(log, k, u) == Some(cache[u].channel);
    }
  }

  /** With the bot in voice, the index caught up and nobody stale, the observation is the truth. */
  lemma ObservedExactly(ts: seq<Step>, realBots: iset<User>, bot: User, people: set<User>)
    requires Feasible(FRESH, ts) && CacheAhead(FRESH, ts) && NoResetInside(FRESH, ts) && bot != 0
    requires var s := Final(FRESH, ts);
      && s.seeded && s.delivered == |s.log| && FlagsExact(s, realBots) && Truth(s.log, |s.log|, bot).Some?
      && (forall u :: u in people <==> ReallyWithBot(s, realBots, bot, u))
      && (forall u :: !StaleWithBot(s, realBots, bot, u))
    ensures var s := Final(FRESH, ts); Observed(s.idx, s.seeded, bot) == Observation(true, true, |people|)
  {
    CountExactly(ts, realBots, bot, people);
    TrackedExactly(ts, bot);
    hide Feasible, Final, Humans, Truth;
  }
}
