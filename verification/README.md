# A verified model of the music bot

The bot has two programs. A C++ client sits in Discord voice channels: it keeps a queue for each guild,
plays it from one audio thread a guild, follows who is in the voice channels and leaves when nobody is
left. A Go server finds, downloads and converts the songs. This project models the parts whose
correctness is not visible in any one function, and proves what they promise.

`dafny verify dfyconfig.toml` checks everything.

## The parts

**Life cycle of the audio threads** (`AudioLifecycle`, `AudioSafety`, `AudioTheorems`, `AudioStop`,
`AudioLiveness`, `AudioOverlap`). Command handlers, the timer, event callbacks, auto-leave workers and
audio threads are actors with a program counter, interleaved freely for any number of guilds, actors and steps. A mutex is
requested in one step and the body of a critical section together with its release is another; a
`GuildInfo` has an identity, so that a pointer to an erased one is visible as dangling. The theorems hold
over every run in which no two life-cycle operations (join, leave, auto-leave) of one guild overlap, nor a
`!remove` and a life-cycle operation of its guild. This is an assumption of the model (`NoOverlap`),
not a fact about the program; `OverlapDangles` shows that it is needed.

The omakase callback is modelled as the code has it: when it finds a `GuildInfo` whose thread is not
joinable it calls `StartAudioThread` with `guildInfosMutex` held, and that function locks the same
mutex. So freedom from deadlock is false as a plain statement. `DeadlockFreeRuns` states when it
holds: a run ends with a cycle in the wait-for graph, joins included, if and only if in some step of it an
omakase callback found a `GuildInfo` whose audio thread was not joinable. `OmakaseCanNest` is a concrete
run, of one command whose author is in no voice channel.

`AudioLiveness` says what the life cycle brings about: every join that comes to its start starts the one thread
of its guild, the thread goes on until a join or leave of its guild tells it to stop, and can send any number of
frames; after a leave there is silence until the next join; and no command but a timer pass takes more than
38 steps.

**Playback** (`Frames`, `Playlog`, `GuildPlayer`). A class with the queue, the flags and the history of
one guild, changed by methods with the loops of the source. Between any two accesses of the audio
thread the environment (`Interfere`) may run any number of commands, let any time pass, add files and ask
the thread to stop. Whether the voice client is safe, and whether a send throws, is chosen afresh at every
look, by methods that stand for the voice library and record what it saw: the frames it took (`wire`), the looks that found it
unsafe, the sends that threw. Contracts of the audio thread are stated against these records.

**Voice occupancy and auto-leave** (`VoiceIndex`, `VoiceTracker`, `AutoLeave`). The index of one guild is
a system of events, deliveries, snapshot copies, merges and resets in any order. The class
`Tracker` has the maps of all guilds and the methods that change them, each proved to perform the
corresponding step; `GuildWatch` is the evaluation of a timer pass. `PendingMeansEmpty` joins the two: what
a pending leave says of who really was in the channel.

**Sending only while safe** (`SendWindow`). A timed model of the documented reconnect: a drop makes the
client unsafe at once, the clean-up comes at least a second later, the set-up ends the unsafe time.

**The keyed download lock** (`DownloadLock`, `DownloadProofs`). Any number of `ensureDownloaded` calls as
a step system down to the two mutexes, the three clients, the scratch file and the target. It refines a
serial specification that downloads what is missing, one call after the other.

**Texts** (`Bytes`, `Seqs`, `UrlCodec`, `Filenames`, `TargetPaths`, `Texts`, `VideoIds`, `Durations`). The query encoder,
the canonical file names, the paths built from them, the extraction of video ids and the parser of durations.

Where the code departs from what it is for, the model keeps the code and states the exact condition:
the omakase deadlock above; a voice index that loses a user when a reset falls between a snapshot and its
merge (`AgreesExactly`, `ResetCanLose`); the path of a song whose title holds an entity inside an entity
(`RebuiltExactly`, `DoubleEntityIsLost`); durations with a day part, which are read as zero (`DaysAreLost`);
a short link hidden in the query of a watch page (`WatchExactly`, `HiddenLinkWins`).

DESIGN.md line 56 says that a reconnect is tried once the connection has been dead for five seconds. The
code (src/DiscordBotClient.cpp:758-765) only keeps attempts more than five seconds apart, counted from the
creation of the `GuildInfo` or the last attempt.

## Model

| member | source | states |
|---|---|---|
| AudioTheorems.LifecycleSafety | src/DiscordBotClient.cpp:483-581 | After every run without overlaps: at most one live audio thread a guild; every `GuildInfo` pointer a thread may dereference is the object now in the table; disconnecting, erasing and replacing happen only with no live thread of the guild; no destructor joins. |
| AudioSafety.StepKeepsInv | src/DiscordBotClient.cpp:734-937 | Every step of every actor and every new actor keeps the invariant of table, threads and mutexes. |
| AudioSafety.RunKeepsInv | src/DiscordBotClient.cpp:734-937 | So does every run. |
| AudioSafety.JoinedNoThread | src/DiscordBotClient.cpp:922-937 | When the join of StopAudioThread can return, the guild has no live audio thread, and its object no handle. |
| AudioSafety.StopKeeps | src/DiscordBotClient.cpp:922-933 | Raising the flag and moving the handle out keeps the invariant, whether or not there is an object or a thread. |
| AudioSafety.StartKeeps | src/DiscordBotClient.cpp:912-920 | The critical section of StartAudioThread keeps the invariant, "one thread a guild" included. |
| AudioLiveness.StartLaunches | src/DiscordBotClient.cpp:912-920 | After the step of StartAudioThread the guild, if it has an object, has exactly one live audio thread, whose handle is in the table, and the stop flag is down. |
| AudioLiveness.JoinsStart | src/DiscordBotClient.cpp:525-540 | Over every run: a join that comes to its StartAudioThread finds an object, and so starts that thread. |
| AudioLiveness.JoinPlays | src/DiscordBotClient.cpp:483-546 | A run of a single join that ends with a running thread of its guild that has sent n frames, for every n. |
| AudioLiveness.StaysRunning | src/DiscordBotClient.cpp:737-743 | Over every continuation in which no join or leave of its guild begins, a running thread goes on running, its handle in the table and its flag down. |
| AudioLiveness.ExitsOnlyWhenTold | src/DiscordBotClient.cpp:737-743 | The thread leaves its loop only when its flag is up. |
| AudioLiveness.SendsMany | src/DiscordBotClient.cpp:804-877 | With the flag down the thread can send any number of further frames by its own steps alone. |
| AudioLiveness.StopTakes | src/DiscordBotClient.cpp:922-937 | The stop raises the flag, takes the handle out, and joins the thread if there was one. |
| AudioLiveness.MarkRaises | src/DiscordBotClient.cpp:552-559 | LeaveVoice raises the flag at once and changes nothing else. |
| AudioLiveness.EraseRemoves | src/DiscordBotClient.cpp:516-540 | The erase removes the object; the replacement in a join leaves a new one without a thread and with the flag down. |
| AudioLiveness.LifecycleOrder | src/DiscordBotClient.cpp:483-581 | No join or leave skips a step: stop before disconnect before erase before reset before connect before replacement before start. |
| AudioLiveness.LeavesSilence | src/DiscordBotClient.cpp:552-581 | Over every run: once a leave is past its StopAudioThread its guild has no live thread, in every continuation, until a join of it begins. |
| AudioLiveness.CommandEnds | src/DiscordBotClient.cpp:483-581 | Over every run a command takes at most 38 steps of its own. |
| AudioSafety.EraseStepKeeps | src/DiscordBotClient.h:65-70 | An erase in a join or leave never finds a joinable thread, so the destructor never joins under `guildInfosMutex`. |
| AudioSafety.StepKeepsLocks | src/DiscordBotClient.cpp:734-937 | At every step each mutex is owned by exactly the actor whose program point holds it. |
| AudioTheorems.EraseFindsQueueFree | src/DiscordBotClient.cpp:516-519 | No object is destroyed while someone holds its queue mutex. |
| AudioTheorems.LockOrder | src/DiscordBotClient.cpp:232-241 | Mutexes are requested in the order `guildInfosMutex`, `listMutex`, `lastBotMessagesMutex`, and `voiceMutex` alone, except in the nested start. |
| AudioTheorems.WaitsClimb | src/DiscordBotClient.cpp:922-937 | Along every edge of the wait-for graph, joins included, the waiter is earlier in that order. |
| AudioTheorems.DeadlockExactly | src/DiscordBotClient.cpp:309-315 | The wait-for graph has a cycle if and only if an omakase callback stands at its nested start. |
| AudioTheorems.DeadlockFreeRuns | src/DiscordBotClient.cpp:309-315 | Over every run: it ends in such a cycle if and only if in some step of it an omakase callback found a `GuildInfo` whose audio thread was not joinable. |
| AudioTheorems.SomeoneRuns | src/DiscordBotClient.cpp:922-937 | Without a nested start, whoever is blocked waits along a chain that ends in an actor that can step. |
| AudioTheorems.NestedOnlyByGuard | src/DiscordBotClient.cpp:309-315 | A step enters the nested start exactly when the callback finds a `GuildInfo` whose thread is not joinable. |
| AudioTheorems.OmakaseCanNest | src/DiscordBotClient.cpp:263-315 | A run of one omakase command, its author in no voice channel, that ends in the nested start. |
| AudioTheorems.NestedForever | src/DiscordBotClient.cpp:309-315 | From there, in every continuation, the callback stays and keeps `guildInfosMutex`. |
| AudioStop.StopResponse | src/DiscordBotClient.cpp:734-743 | Once the flag is up, over every continuation: it stays up until the thread has exited, the thread sends at most one more frame, and exits within nine steps of its own. |
| AudioStop.StopProgress | src/DiscordBotClient.cpp:775-895 | With the flag up, every step of the thread brings it nearer to its exit, and a frame is sent only if it was already past its last look at the flag. |
| AudioStop.StopStays | src/DiscordBotClient.cpp:912-937 | No step of anyone takes the flag back before the thread has exited. |
| AudioOverlap.OverlapDangles | src/DiscordBotClient.cpp:552-581 | From any state with a running audio thread and `guildInfosMutex` free, two overlapping leaves can be scheduled so that the thread is left with a dangling pointer. |
| Frames.CutAt | src/DiscordBotClient.cpp:805-822 | The reads of a file of n bytes are ceil(n/11520), and what each of them yields. |
| Frames.CutPrefix | src/DiscordBotClient.cpp:805-822 | The first k frames joined are the first 11520k bytes of the file without a last odd one. |
| Frames.SentIsEvenPrefix | src/DiscordBotClient.cpp:799-874 | What a performance sent is an even-length prefix of the file, without gap or repeat; only the last frame is short; at a natural end it is the whole file less one byte if its length is odd. |
| Frames.OneMorePaced | src/DiscordBotClient.cpp:867-876 | The 58 ms pause and the addition of 2 ms after a frame keep: sends at least 58 ms apart, and a wait of exactly 2 ms for each frame since the start or the last recovery, in 32 bits. |
| Frames.DrainCoversPlayTime | src/DiscordBotClient.cpp:9-18 | Below 2^31 frames, from the first frame since the start or the last recovery to the end of the drain pass at least 60 ms a frame, and at least the play time of the bytes sent. |
| Playlog.PlayableHasFile | src/FileLoader.cpp:51-67 | The items kept from a reply all have a file, and each item with a file is kept as often as it occurs. |
| Playlog.PlayableInOrder | src/DiscordBotClient.cpp:210-214 | They are the items at increasing positions, which are exactly the positions of items with a file. |
| Playlog.StartsEnd | src/DiscordBotClient.cpp:780-896 | Conservation from the history: the songs taken from the queue are the ones ended for good and the one playing or kept for a replay. |
| Playlog.ReplaysExactly | src/DiscordBotClient.cpp:780-896 | Over every history: the songs opened are the songs taken from the queue, in that order, each once and once more for each natural ending with repeat on before the next was taken; only the last such ending may have its replay still due. So a skipped, stopped, abandoned or missing song is never replayed. |
| Playlog.ReplaysCounted | src/DiscordBotClient.cpp:883-896 | As many songs are opened, or due for a replay, as were taken from the queue plus natural endings with repeat on. |
| Playlog.CurrentMeansPlaying | src/DiscordBotClient.cpp:780-793 | The current path is empty exactly when no song is playing or kept for a replay. |
| Playlog.PrependedStayAccounted | src/DiscordBotClient.cpp:235-236 | A block put first keeps the account, and keeps the order of enqueueing exactly when putting it last would give the same queue. |
| Playlog.RemovedStayAccounted | src/DiscordBotClient.cpp:432-434 | Removing one entry keeps the account. |
| GuildPlayer.Shuffle | src/DiscordBotClient.cpp:392-394 | The result is a permutation, and every entry still has a file. |
| GuildPlayer.KeepPlayable | src/DiscordBotClient.cpp:210-214 | The loop keeps exactly the items with a file, in order. |
| GuildPlayer.GuildInfo.Enqueue | src/DiscordBotClient.cpp:210-241 | A reply goes to the front or back of the queue as one block in its own order: a single song with a file lengthens it by exactly that song; a failed reply, or a single song without a file, changes nothing. |
| GuildPlayer.GuildInfo.Omakase | src/DiscordBotClient.cpp:291-303 | Recommendations go to the back, and the answer is how many. |
| GuildPlayer.GuildInfo.Random | src/DiscordBotClient.cpp:385-394 | The queue is permuted; an empty one is answered as such. |
| GuildPlayer.GuildInfo.Remove | src/DiscordBotClient.cpp:407-438 | Exactly the entry with that 1-based index goes and its title is answered; any other index changes nothing. |
| GuildPlayer.GuildInfo.TrySend | src/DiscordBotClient.cpp:828-838 | The frame reaches the library exactly if the client is safe at the look and the send does not throw. |
| GuildPlayer.GuildInfo.SendFrame | src/DiscordBotClient.cpp:824-866 | The frame reaches the library once or not at all; at most 402 rounds; given up only if the send threw, or if every look of more than 20 s found the client unsafe; neither sent nor given up only under a stop or skip request; 50 ms of sleep are asked for each further round and no other. |
| GuildPlayer.GuildInfo.NextFrame | src/DiscordBotClient.cpp:824-877 | The same with the pause after a sent frame, and the account of sends and waiting time right for one more frame. |
| GuildPlayer.GuildInfo.SendFrames | src/DiscordBotClient.cpp:804-877 | The frame loop: what the library took is what the performance records, which is faithful to the file. |
| GuildPlayer.GuildInfo.Poll | src/DiscordBotClient.cpp:805-813 | Stop is seen before skip; a skip is taken back once; with either flag up no frame is read. |
| GuildPlayer.GuildInfo.Pace | src/DiscordBotClient.cpp:869-876 | After the pause the account of send times and waiting time is right for one more frame. |
| GuildPlayer.GuildInfo.DrainLead | src/DiscordBotClient.cpp:878-880 | The wait lasts as long as asked, and is left out only when a stop has been requested. |
| GuildPlayer.GuildInfo.PlaySong | src/DiscordBotClient.cpp:799-884 | The frames the library took are the first frames of the file; a frame is read and not sent only when the song is being left; at most ceil(n/11520)+1 turns; sends and waits are paced and no other sleep is asked for; stopped or skipped only on request; abandoned only after a send that threw, or more than 20 s after the last send and pause; so with no request, no throw and no unsafe look the whole song is played. |
| GuildPlayer.GuildInfo.PickSong | src/DiscordBotClient.cpp:771-793 | The song kept for a replay comes first, else the head of the queue, else nothing; what it opens has a file path. |
| GuildPlayer.GuildInfo.PlayCurrent | src/DiscordBotClient.cpp:795-897 | It plays the content of the file of the current song, with all that PlaySong promises, and the song stays current exactly if it ended naturally with repeat on. |
| GuildPlayer.GuildInfo.EndSong | src/DiscordBotClient.cpp:886-896 | The ending is recorded with the repeat flag of that moment, and the current song is cleared unless it ended naturally with repeat on; queue and account agree with the history. |
| GuildPlayer.GuildInfo.FindSafe | src/DiscordBotClient.cpp:738-778 | The turn goes on unless a stop is requested; an unsafe client costs one look and 100 ms, and touches neither song nor history. |
| GuildPlayer.GuildInfo.PlayNext | src/DiscordBotClient.cpp:771-906 | A song is played unless nothing is current and the queue is empty; then the thread waits 20 ms. |
| GuildPlayer.GuildInfo.Turn | src/DiscordBotClient.cpp:737-906 | A turn that finds the client safe plays a song unless everything enqueued before it has been taken or removed; in particular if the queue was not empty and nothing is removed meanwhile; a song kept for a replay is the one played; a turn leaves the history alone or adds one song opened and ended; it leaves the loop only under a stop request. |
| GuildPlayer.GuildInfo.PlayAudioThread | src/DiscordBotClient.cpp:734-910 | After any number of turns, fewer only after a stop request: the history is only added to, by one song in each turn that found the client safe, unless everything enqueued at the start has been taken or removed; the frames the library took are those of the history; everything enqueued is queued, current, ended or removed; without first, shuffle and remove songs were taken in the order they were enqueued; the songs opened are those taken, each once more for each natural ending with repeat on that followed it; no more songs ended by skip than there were skip commands. |
| GuildPlayer.GuildInfo.Conservation | src/DiscordBotClient.cpp:210-241 | At every moment the multiset of all songs enqueued is queued plus current plus ended plus removed. |
| GuildPlayer.ReadFrame | src/DiscordBotClient.cpp:815-822 | What is read is the next frame of the file. |
| VoiceIndex.StepKeepsInv | src/DiscordBotClient.cpp:585-666 | Every event, delivery, copy, merge and reset keeps the closed form of the index. |
| VoiceIndex.RunKeepsInv | src/DiscordBotClient.cpp:585-666 | So does every run. |
| VoiceIndex.ReplayIsTruth | src/DiscordBotClient.cpp:585-606 | Replaying the log with the event handler gives each user what their last event says. |
| VoiceIndex.AgreesExactly | src/DiscordBotClient.cpp:610-666 | Seeded and with all events delivered, a user in voice is tracked at their channel exactly unless their last event fell between a snapshot and a later reset and the snapshot says otherwise; a user not in voice is tracked exactly if they left between the snapshot and its merge. |
| VoiceIndex.TrackedExactly | src/DiscordBotClient.cpp:610-636 | Over any run in which no reset falls between a snapshot's copy and its merge, and no copy is behind the events delivered before it: everyone in voice is tracked at exactly their channel, and any other entry is of one who left in between. |
| VoiceIndex.NoResetKeepsFresh | src/DiscordBotClient.cpp:610-666 | In the runs of TrackedExactly every snapshot that is merged had applied all that was delivered before the last reset. |
| VoiceIndex.TrackedIfFresh | src/DiscordBotClient.cpp:610-636 | That alone, of the last snapshot, is enough for everyone to be tracked exactly. |
| VoiceIndex.ResetCanLose | src/DiscordBotClient.cpp:662-666 | A run in which such a reset loses a user. |
| VoiceIndex.HumansNotUndercounted | src/DiscordBotClient.cpp:652-658 | Over the runs of TrackedExactly: with the bot present the human count is never below the number of people really in its channel. |
| VoiceIndex.HumansCovered | src/DiscordBotClient.cpp:652-658 | In any state, all people really with the bot are counted whom, like the bot, the index has not lost. |
| VoiceIndex.EntryExactly | src/DiscordBotClient.cpp:585-636 | With exact flags and a fresh snapshot: each user's entry, its channel and its bot mark. |
| VoiceIndex.HumansExactly | src/DiscordBotClient.cpp:652-658 | Over the runs of TrackedExactly, with exact flags and the bot in voice: the people counted are exactly those really with it and those who left its channel between a snapshot and its merge; no bot is counted. |
| VoiceIndex.CountExactly | src/DiscordBotClient.cpp:652-658 | So without such leavers the people counted are exactly the people there. |
| VoiceTracker.Tracker.OnVoiceStateUpdate | src/DiscordBotClient.cpp:585-606 | The index of the guild takes one event step; updates without guild or user change nothing; other guilds stay. |
| VoiceTracker.Tracker.CopyCache | src/DiscordBotClient.cpp:618-628 | The copy holds exactly the members with a channel. |
| VoiceTracker.Tracker.MergeSnapshot | src/DiscordBotClient.cpp:630-635 | The merge adds exactly the entries that events have not brought in, and marks the guild as seeded. |
| VoiceTracker.Tracker.ResetVoiceTracking | src/DiscordBotClient.cpp:662-666 | The guild's index is empty and unseeded; others stay. |
| VoiceTracker.Tracker.ObserveVoice | src/DiscordBotClient.cpp:638-660 | The answer is what the index says, with all its early returns. |
| VoiceTracker.CountHumans | src/DiscordBotClient.cpp:654-658 | The loop counts the people other than the bot, not marked as bots, in the bot's channel. |
| VoiceTracker.EmptyMeansEmpty | src/DiscordBotClient.cpp:638-660 | An observation of the bot without humans means that really nobody is with it whom the index, being up to date, has not lost. |
| VoiceTracker.ObservedExactly | src/DiscordBotClient.cpp:638-660 | Over such runs the observation is the truth: known, the bot present, and the number of people there. |
| VoiceTracker.CopyIsSnapshot | src/DiscordBotClient.cpp:618-628 | The copy of a cache that holds the state after k events is a snapshot of that state, with its bot marks. |
| VoiceTracker.BotIsSeen | src/DiscordBotClient.cpp:648-652 | A bot in voice that the index has not lost is seen as present. |
| AutoLeave.GuildWatch.Evaluate | src/DiscordBotClient.cpp:688-718 | One evaluation is one step of the watch; a worker is started exactly when the leave becomes pending. |
| AutoLeave.Tracking | src/DiscordBotClient.cpp:694-707 | While nothing is pending, the tracked time is that of the first pass of the unbroken row of empty observations. |
| AutoLeave.LeavesExactly | src/DiscordBotClient.cpp:694-712 | The leave is pending if and only if over some passes spanning at least 10 s every one saw the bot alone; and then one worker was started, else none. |
| AutoLeave.LeavesInTime | src/DiscordBotClient.cpp:20-24 | With passes at most p apart and the channel observably empty from e on, the leave is pending by e + 10 s + 2p. |
| AutoLeave.PendingMeansEmpty | src/DiscordBotClient.cpp:688-712 | A leave is pending only after passes spanning at least 10 s at each of which, over any run of the voice index, nobody for whom the index was up to date was really with the bot. |
| AutoLeave.AloneIsSeen | src/DiscordBotClient.cpp:688-697 | Over such runs, a pass that looks while nobody is with the bot counts as an empty one. |
| SendWindow.ExclusionExactly | src/DiscordBotClient.cpp:31-41 | Over runs with any number of drops no send overlaps a clean-up to set-up window, if and only if check plus send stay below the one-second delay. |
| DownloadProofs.RefinesSerial | server/main.go:612-620 | In every interleaving each finished call has the result, and each path nobody is working on the file, of the serial run in the order the key locks were obtained. |
| DownloadProofs.StepKeepsInv | server/main.go:559-620 | Every call and every step keeps the refinement invariant. |
| DownloadProofs.DownloadedOnce | server/main.go:612-620 | A path is downloaded at most once, never if its file was there, and nil is returned only with the file in place. |
| DownloadProofs.ResultIsSerial | server/main.go:612-620 | The serial answer of a call depends on the turns before it on its own path and on its own outcomes only. |
| DownloadProofs.ResultExactly | server/main.go:559-620 | Over every run, without the serial run: a finished call answers nil exactly if its file was there at the start, or its own call or an earlier turn for its path had its folder, one of its three tries, its conversion and its write succeed. |
| DownloadProofs.FilesExactly | server/main.go:559-620 | Over every run: a file nobody works on is the one of the start, or the video of the first such turn, or missing if there is none. |
| DownloadProofs.CallEnds | server/main.go:559-620 | Over every run a call takes at most thirteen steps of its own. |
| DownloadProofs.BlockedOnOwnPath | server/main.go:66-77 | A blocked call waits for a call that can step: one inside the table lock, or one with the lock of the same path. |
| DownloadProofs.LockTableOnlyGrows | server/main.go:66-74 | Over every run keys are never dropped and keep their mutex. |
| DownloadProofs.OneMutexEach | server/main.go:66-77 | Distinct keys have distinct mutexes and no call holds two. |
| DownloadProofs.ScratchPrivate | server/main.go:565-601 | In every run, two running downloads never share a scratch file. |
| DownloadLock.OpusPathInjective | server/main.go:565 | Replacing ".pcm" by ".opus" is injective on target paths. |
| UrlCodec.UrlEncode | src/FileLoader.cpp:13-27 | The loop computes the byte-wise encoding. |
| UrlCodec.RoundTrip | src/FileLoader.cpp:13-27 | Form decoding gives every byte string back, and the output is unreserved characters, '+' and well-formed triplets only. |
| UrlCodec.EncodeInjective | src/FileLoader.cpp:13-27 | Different byte strings have different encodings. |
| UrlCodec.EncodesSparingly | src/FileLoader.cpp:13-27 | Unreserved bytes stand for themselves, and the length is three for every byte but these and the blank. |
| UrlCodec.CannotSplit | src/FileLoader.cpp:13-27 | No character of an encoded text ends a parameter or the query. |
| Filenames.SanitizeCanonical | server/main.go:98-102 | The result has no forbidden character, no white space at its ends, no run of two spaces, and all other characters in order. |
| Filenames.WordLaw | server/main.go:98-102 | A name written as words with gaps of forbidden characters and white space between them becomes these words joined by single blanks, trimmed; exactly so joined unless a word begins or ends with white space that only the trimming knows. |
| Filenames.EveryNameIsWritten | server/main.go:98-102 | Every name can be written so. |
| Filenames.FixedExactly | server/main.go:98-102 | The names left as they are are exactly the canonical ones. |
| Filenames.Idempotent | server/main.go:98-102 | Sanitizing twice is sanitizing once. |
| TargetPaths.SamePathExactly | server/main.go:178-180 | Two songs have the same file exactly if sanitized titles and folders agree. |
| TargetPaths.PathElements | server/main.go:178-180 | The elements of the path, with a channel named "." or "..", or empty, as filepath.Join treats it. |
| TargetPaths.RebuiltExactly | server/main.go:350-361 | The path rebuilt from the stored row is the one downloaded to if and only if the second unescaping changes nothing the path keeps; so always when it changes nothing. |
| TargetPaths.DoubleEntityIsLost | server/main.go:643-649 | A title for which it is not. |
| VideoIds.SplitAtFirstAny | server/main.go:129-138 | The loop returns the longest prefix in which no separator starts. |
| VideoIds.WatchRoundTrip | server/main.go:143-153 | From a watch URL with any query behind it that holds no "youtu.be/" the id comes back. |
| VideoIds.ShortRoundTrip | server/main.go:143-153 | So it does from a short link with anything before it that holds no marker. |
| VideoIds.MarkRoundTrip | server/main.go:143-153 | From any other address the id behind its first "v=" comes back, if no short link is in it. |
| VideoIds.NoMarkerNoId | server/main.go:143-153 | Without either marker the answer is empty. |
| VideoIds.WatchExactly | server/main.go:143-153 | From a watch URL with any query behind it the id comes back if and only if the query holds no "youtu.be/" or what follows the first one, up to a separator, is that id; a short link in the query always takes over. |
| VideoIds.HiddenLinkWins | server/main.go:143-153 | The queries "&u=youtu.be/" followed by another id are such that it does not come back. |
| VideoIds.ExtractedIsAPiece | server/main.go:143-153 | What is returned is a piece of the input without '&' and '?', and without '/' when the input holds a short link. |
| Durations.TimeRoundTrip | server/main.go:105-127 | A printed time, fields left out or with leading zeros, is read as its seconds if and only if these fit a signed 64-bit number. |
| Durations.NumbersRoundTrip | server/main.go:105-127 | The same for numbers, zero components printed or not. |
| Durations.DaysAreLost | server/main.go:105-127 | A duration with a day part is read as zero, which is right if and only if its length is zero. |

## Left out

- Overlapping life-cycle operations of one guild, and a `!remove` beside one: excluded by the assumption `NoOverlap`; nothing is claimed of such runs beyond `OverlapDangles`.
- The C++ memory model below critical sections: a critical section's body is one step, and reads of atomic flags are steps of their own.
- AudioLifecycle and GuildPlayer are two views of PlayAudioThread: the first has threads, pointers and locks but no songs, the second songs, frames and times but one object; they are not formally composed.
- GuildPlayer.GuildInfo.PlayAudioThread: takes the number of turns as a parameter, because the outer loop of the thread has no end of its own.
- GuildPlayer.Shuffle: is for one permutation chosen freely; the distribution of the random engine is not modelled.
- GuildPlayer.GuildInfo.Remove: takes the parsed number; the parsing of the command text and its messages are left out.
- The silence sent when there is nothing to play (src/DiscordBotClient.cpp:898-904): a call into the voice library; only the wait after it is modelled.
- The timer's pass over the guilds is a loop without a bound of its own; CommandEnds is about all other commands.
- GuildPlayer.GuildInfo.PlaySong: takes the content of the file as it is when opened; a file that changes while it is read is not modelled.
- The text and JSON of replies: a parsed reply is the input of Enqueue and Omakase.
- Reconnect attempts of the audio thread (src/DiscordBotClient.cpp:758-765): calls into the voice library.
- Where the bot flag of a user comes from: the caches of the Discord library are inputs, and a user missing there is a human, as in the code.
- VoiceIndex.TrackedExactly and VoiceIndex.HumansNotUndercounted assume (`CacheAhead`) that the library's cache, when it is copied, has applied every event delivered before; that is the library's doing and not modelled. AgreesExactly, HumansCovered, EmptyMeansEmpty and PendingMeansEmpty do not assume it.
- VoiceIndex: one snapshot copy at a time for a guild, as only the timer takes them.
- DownloadLock: the target file is written whole or not at all and files are never deleted; how yt-dlp, ffmpeg and the file system answer a call is fixed by its `Script`, which may be any.
- keyedMutex and ensureDownloaded are steps of a protocol, not methods: their property is about interleavings.
- Filenames and VideoIds work on characters: invalid UTF-8 is not modelled. TrimSpace removes more kinds of white space than the expression collapses; both sets are modelled as they are.
- TargetPaths: HTML unescaping is any function; the directory of the executable is given as a cleaned absolute path.
- extractPlaylistID, playlist counters, search results, data base tables, the deactivation of songs, list messages, `!clean`, configuration, crash handling, console set-up and scripts: easy, or input and output only.
- Message texts, reactions and the messages deleted by SendBotMessage: only the mutex it takes is kept.
