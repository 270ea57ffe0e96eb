# Verified model of php-bacnet

php-bacnet is a PHP extension that speaks BACnet/IP. Most of it is glue, but four parts are state machines over fixed
tables whose guarantees nobody can read off a single function. This project models these parts and proves what they
guarantee over every run.

**Admission control of the server** (`src/bacnet_security.c`). A bounded table of sources with idle expiry and
replacement of the entry idle longest, four token buckets, a flood blocker, CIDR lists, statistics, a rate-limited log
and a ring of 4096 write fingerprints. `Admission` states each step on values, the class `Security` performs the steps
in place and is proved equal to them, and the main theorems are about runs of steps:

* the forgetful, bounded table decides exactly like an unbounded one that never forgets (`Forgetting`), and visibly
  differs if entries expire before blocks, flood windows or buckets do (`ForgettingShort`, `ForgettingWindow`,
  `ForgettingRefill`, which makes the conditions exact);
* no stretch of time sees more accepted packets than the buckets allow, in total, and per source while its entry is
  retained (`RateBounds`; `History` says what packets leave behind and how long it is retained);
* the flood blocker is sound in every run and complete for retained entries, with the exact number of violations that
  force a block (`FloodGuarantee`, `FloodBlocker`, `FloodEvasion`), and blocks run their full length in every run with
  few sources if and only if entries live as long as blocks or nobody passes the lists (`BlockLength`);
* denied addresses displace live entries exactly when the table is crowded, and can lift blocks (`DeniedSources`);
* where the lists let more than 4096 sources through, a write is executed at most once per duplicate window if and only
  if the global bucket cannot outrun the ring (`WriteOnce`, `WriteOnceTight`), provided callbacks do not poll
  (`NestedPoll`) or do so with care (`NestedDepth`); conversely every admitted write that the last 4096 executions do not
  rule out is executed (`WriteExecution`); `PollServer` is the server object that performs these acts in place;
* the limits hold for what the bytes on the wire ask for (`WireLimits`);
* statistics and log lose and invent nothing (`Accounting`); the table evicts least recently seen sources only
  (`SourceTableRuns`); a one-byte change always changes a fingerprint (`Fnv`); masks are address ranges (`Cidr`).

**The two-level client cache** (`src/bacnet_cache.c`). `SharedSlots` states the first level (2048 shared slots) on
values, the class `SharedCache` works in place; `OrderedStore` is the ordered second level with its cursor scans;
`ClientCache` puts both behind one interface. `TwoLevelCache` proves agreement with a plain map and bounded staleness,
`CacheDelivery` the other half: what is put can be read, and a read that misses has a reason. `ReadAfterWrite` proves
freshness after writes, `ReadDelivery` that fetched properties are served, `CacheKeys` the isolation of prefix scans; `CacheConcurrency` what hits show and
`StoreConcurrency` the entry limit under interleaved processes.

**ReadPropertyMultiple and Object_List** (`src/bacnet_classes.c`). `ReadPropertyMultiple` proves the fused
decode-evaluate-encode loop equal to parsing the request into a tree and encoding the complete response tree;
`ResponseReader` reads the acknowledgement back and finds the answers to exactly what was asked.
`ObjectList` proves the dynamic object list a faithful enumeration.

**Packet queue and request loops** (`src/bacnet_client.c`). `PduQueue` is the 32-slot ring, `RequestLoop` the
synchronous request and device discovery, `MixedServer` the order and the accounting of queued packets.

Times and tokens are reals on a clock that never goes back; the cache counts milliseconds as naturals. Decoders,
encoders, network answers, clock readings and callback results are parameters.

## Findings

* If the network lists let at least 4097 sources through, writes run at most once per window exactly when
  `global_burst + global_rate * duplicate_window + capacity <= 4097`, where `capacity` is 0 for `Server` and 32 for
  `MixedServer` (`WriteOnceTight.RingConditionIsExact`). The settings the extension ships with give 3532, but the options
  are not checked for this.
* A write callback that polls can have the write it is executing executed a second time, whatever the ring
  (`NestedPoll.NestedPollRepeats`); nothing forbids such a callback. With a ring that suffices, writes run at most once per
  window if and only if callbacks do not poll (`NestedPoll.OnceIffCallbacksDoNotPoll`). If they never poll up a write that
  is still being executed, each level of nesting costs one slot of the ring (`NestedDepth.TameWritesRunOnce`).
* The flood window tumbles, which its documentation (a count and a window) does not say: `2N - 2` violations inside one
  window always force a block for `N >= 2`, one fewer can pass (`FloodEvasion.ThresholdIsTight`).
* In runs with few sources, blocks run their full length if and only if `block_duration <= source_ttl` or the network
  lists let nobody through (`BlockLength.BlocksRunFullIff`); else a
  source that pauses for the time to live is judged afresh, and has a packet accepted during its block unless the global
  bucket is too slow to hold a token by then (`BlockLength.PacketPassesBlock`). The options are not checked for this.
* A put that the first level refuses as too long leaves the old value of the key in place and readable
  (`TwoLevelCache.OldValueGoneIffAccepted`, with the run in `TwoLevelCache.RefusedPutShowsOldValue`).
* A namespace that contains `|` is not isolated from others when a partition is cleared or pruned
  (`CacheKeys.BarBreaksIsolation`). As names have at most 95 characters, a partition of a namespace without a bar is
  exposed exactly if its name and that of the partition have at most 89 together (`CacheKeys.ExposedIffShort`).
* Between reading a value from the second level and copying it to the first a process holds no lock: a promotion in flight
  brings back values that have been cleared or overwritten meanwhile (`CacheConcurrency.PromotionRevives`).
* A source entry is created before the CIDR lists are consulted. A denied packet displaces the live entry of another
  address exactly when all slots are taken by live entries of other addresses (`DeniedSources.DeniedDisplacesIffCrowded`),
  and as many denied addresses as there are slots lift a block that is in force (`DeniedSources.DeniedCrowdLiftsBlock`,
  with the run from the start in `DeniedSources.DeniedCrowdRun`).

## Model

| member | source | states |
|---|---|---|
| `Cidr.ParseList` | src/bacnet_security.c:112-129 | a network list is taken whole or refused whole: it is refused exactly if an item is malformed or there are more than 128 |
| `Cidr.Match` | src/bacnet_security.c:436-441 | the list scan is membership in the union of the networks |
| `Cidr.ShiftedOnes` | src/bacnet_security.c:88-110 | the mask for a prefix is the word with exactly the host part cleared |
| `Cidr.MaskedRemainder` | src/bacnet_security.c:436-441 | masking an address removes its remainder modulo the block size |
| `Cidr.NetworkIsRange` | src/bacnet_security.c:88-110 | for every prefix 0 to 32, mask matching is membership in the block of 2^(32-prefix) addresses around the written one |
| `Cidr.PassesIffRangesAllow` | src/bacnet_security.c:527-534 | a source passes iff no denied range covers it and, if there are allowed ranges, one of them does |
| `Fnv.HashBytes` | src/bacnet_cache.c:106-113 | the loop computes the fold over all bytes, first byte first |
| `Fnv.TimesPrimeInjective` | src/bacnet_cache.c:106-113 | multiplying by the hash prime modulo 2^64 loses nothing |
| `Fnv.MixInjective` | src/bacnet_cache.c:106-113 | one mixing step is injective in the word and in the byte |
| `Fnv.OneByteChanges` | src/bacnet_cache.c:106-113 | changing any single byte of any data changes its hash |
| `TokenBucket.TakeToken` | src/bacnet_security.c:479-487 | one attempt: succeeds iff a whole token is there after the refill, and banks the refill either way |
| `TokenBucket.LevelFlows` | src/bacnet_security.c:479-487 | refilling in two steps or in one gives the same level, cap included |
| `TokenBucket.TakeSpends` | src/bacnet_security.c:479-487 | tokens stay within 0 and burst, and what is taken plus what is left never exceeds what was there plus what flowed in |
| `TokenBucket.IdleBucketIsFull` | src/bacnet_security.c:479-487 | a bucket idle for burst/rate is full |
| `FloodBlocker.CountViolation` | src/bacnet_security.c:500-512 | one violation in the code's order of resets equals the specified step |
| `FloodBlocker.CountIsRecent` | src/bacnet_security.c:500-512 | between calls the count is below the limit and is the number of the latest violations, all inside one window begun by the first of them, none used for a block |
| `FloodBlocker.BlockNeedsFullWindow` | src/bacnet_security.c:500-512 | soundness: a block is imposed only on N unused violations inside one window |
| `FloodBlocker.FullWindowForcesBlock` | src/bacnet_security.c:500-512 | completeness: from any earlier count, 2N-2 violations (1 if N is 1) inside one window force a block |
| `FloodBlocker.WindowTriggers` | src/bacnet_security.c:500-512 | the same at any place in a longer history |
| `FloodBlocker.ThresholdIsExact` | src/bacnet_security.c:501-506 | the threshold is exact: for every N >= 2 a history with one violation fewer inside one window never blocks |
| `SourceTable.KnownSource` | src/bacnet_security.c:443-477 | a live entry is found in its slot, keeps its contents, and only idle entries elsewhere are wiped |
| `SourceTable.NewSource` | src/bacnet_security.c:443-477 | an unknown source gets a fresh entry in a free or expired slot, or over the entry idle longest if all are live |
| `SourceTable.OldestIsFirst` | src/bacnet_security.c:443-477 | of several sources idle for equally long the first one in the table is displaced |
| `SourceTable.LookupKeepsUnique` | src/bacnet_security.c:443-477 | after any lookup addresses are still pairwise distinct and the returned slot is the one of the address |
| `Security.Security.constructor` | src/bacnet_security.c:193-206 | initial state: empty table, full global bucket, empty ring |
| `Configuration.Propose` | src/bacnet_security.c:251-315 | the loop over the overrides and the final validation yield the specified options or refusal |
| `Configuration.AppliedIff` | src/bacnet_security.c:257-313 | overrides are refused for name or type exactly if one has no string key, an unknown name, a value of the wrong type, or a list with anything but strings |
| `Configuration.OverridesTakeEffect` | src/bacnet_security.c:283-307 | each of the 15 numeric options has the value last given to it (counts that are no whole 32-bit number become 0) or keeps its own |
| `Configuration.RestTakesEffect` | src/bacnet_security.c:264-282 | the same for the enabled flag and the two network lists |
| `Configuration.ProposedIff` | src/bacnet_security.c:174-191 | overrides are taken iff all fit, every number wanted is positive, the table wanted has at most 65535 entries, and the lists wanted parse |
| `Configuration.ProposedIsWanted` | src/bacnet_security.c:251-315 | then every option, the flag and the lists included, has the value last given to it or keeps its own |
| `Configuration.RateKeys` | src/bacnet_security.c:283-307 | which key moves which rate or time |
| `Configuration.CountKeys` | src/bacnet_security.c:283-307 | which key moves which count |
| `Configuration.OtherKeys` | src/bacnet_security.c:264-282 | which key moves the enabled flag and which the network lists |
| `Configuration.CountIsWhole` | src/bacnet_security.c:288-290 | counts are taken as given iff they are whole, positive and fit 32 bits |
| `Security.Security.Configure` | src/bacnet_security.c:251-333 | all or nothing: refused overrides change nothing at all, accepted ones restart everything except statistics and ring cursor |
| `Security.Security.Install` | src/bacnet_security.c:316-328 | new options start with an empty table, a full bucket and an empty ring |
| `Security.Security.ForgetWrites` | src/bacnet_security.c:319-333 | reconfiguration clears the whole ring |
| `Security.Security.ActiveSources` | src/bacnet_security.c:373-389 | wipes exactly the idle entries; returns the numbers of live and of blocked ones, the first being the kept source count |
| `Security.Security.FindSource` | src/bacnet_security.c:443-477 | the single scan with early return equals lookup by first live match, first free slot, oldest entry |
| `Security.Security.WarnDrop` | src/bacnet_security.c:489-498 | a warning is reported with everything pending, or becomes pending |
| `Admission.Classify` | src/bacnet_security.c:542-563 | told by bytes: Who-Is is an unconfirmed request of service 8, a write a confirmed request of at least four bytes with service 15; without two application bytes, or confirmed and cut short, a packet is malformed |
| `Security.Security.Accept` | src/bacnet_security.c:514-585 | the whole decision in place: table, buckets, blocker, counters and log move exactly as the specified step |
| `WireLimits.WireIsLimited` | src/bacnet_security.c:568-574 | under any options, the Who-Is requests, told by their bytes, accepted from a source while its entry is retained number at most burst plus rate times time; likewise its writes and its packets |
| `WireLimits.BytesDecide` | src/bacnet_security.c:541-574 | exactly which bytes are dropped as malformed, at no charge; only Who-Is bytes are charged to the Who-Is bucket, only WriteProperty bytes to the write bucket |
| `WireLimits.DisabledAcceptsAll` | src/bacnet_security.c:514-523 | with security disabled every packet is accepted and counted, and leaves no other trace |
| `Security.Security.Judge` | src/bacnet_security.c:527-584 | lists before blocks before malformed before limits; every drop is counted at the source and globally and logged |
| `Security.Security.ApplyLimits` | src/bacnet_security.c:565-584 | buckets are asked in order, earlier tokens stay spent if a later bucket refuses, and a refusal counts as a violation |
| `Security.Security.NoteMalformed` | src/bacnet_security.c:587-595 | a packet the server cannot decode is counted at its source, globally, and logged |
| `Security.Security.QueueOverflow` | src/bacnet_security.c:596-599 | an overflow is counted and logged and touches nothing else |
| `Security.Security.ResetStats` | src/bacnet_security.c:427-433 | resetting clears all counters and nothing else |
| `Security.Security.IsDuplicateWrite` | src/bacnet_security.c:613-627 | true iff the ring holds an unexpired fingerprint of this address and hash; a hit is counted |
| `Security.Security.RecordWrite` | src/bacnet_security.c:628-637 | the fingerprint goes to the slot under the 16-bit cursor, which moves on |
| `Forgetting.DecideSame` | src/bacnet_security.c:514-585 | entries that cannot be told apart get the same verdict and stay indistinguishable |
| `Forgetting.ForgottenIsFresh` | src/bacnet_security.c:443-477 | an entry idle for longer than its time to live cannot be told apart from a fresh one |
| `Forgetting.NeverFull` | src/bacnet_security.c:443-477 | with few sources about, a new source never displaces a live entry |
| `Forgetting.StepSimulates` | src/bacnet_security.c:443-585 | one event keeps the simulation between real and ideal table and gives both the same verdict |
| `Forgetting.ForgettingIsInvisible` | src/bacnet_security.c:443-585 | in every run in which no penalty outlives the time to live and the sources of one time to live fit the table, the verdicts are those of an unbounded table that never forgets |
| `ForgettingShort.ShortMemoryForgetsBlocks` | src/bacnet_security.c:443-477 | for all options with a time to live below the block duration, a run of one source whose last packet the never-forgetting table drops as blocked and the real one examines, and drops as malformed |
| `ForgettingWindow.ShortMemoryForgetsViolations` | src/bacnet_security.c:500-512 | for all options with a time to live below the flood window and a limit of two or more, a run of one source that the two tables judge differently |
| `ForgettingWindow.AgreementNeedsMemory` | src/bacnet_security.c:443-512 | agreement in every run with few sources implies that entries outlive blocks and, unless one violation blocks, flood windows |
| `ForgettingRefill.ShortMemoryRefillsBuckets` | src/bacnet_security.c:479-487 | for all options under which an entry expires before one of its buckets refills and the global bucket does not hide it, a run of one source that the two tables judge differently |
| `ForgettingRefill.AgreementIffMemory` | src/bacnet_security.c:443-585 | where the global bucket hides nothing and somebody passes the lists, the two tables agree in every run with few sources if and only if nothing a source has earned outlives its entry |
| `BlockLength.ShortMemoryEndsBlocks` | src/bacnet_security.c:443-477 | a source that is blocked and returns after the time to live but before its block ends is judged afresh |
| `BlockLength.BlocksRunFullIff` | src/bacnet_security.c:535-540 | under any lists: in every run with few sources every block runs its full length, if and only if the block duration is at most the time to live or nobody passes the lists |
| `BlockLength.FullIfLongMemory` | src/bacnet_security.c:535-540 | the sufficient half, under any network lists |
| `BlockLength.PacketPassesBlock` | src/bacnet_security.c:514-585 | if moreover the global bucket gains a token within a block, a run in which a packet is accepted during the block of its source |
| `DeniedSources.DeniedDisplacesIffCrowded` | src/bacnet_security.c:524-534 | a denied packet costs another address its live entry iff every slot is taken by a live entry of another address |
| `DeniedSources.CrowdDisplaces` | src/bacnet_security.c:465-477 | as many denied addresses as slots push every address not seen at that moment out of the table |
| `DeniedSources.DeniedCrowdLiftsBlock` | src/bacnet_security.c:524-540 | a source whose packets are dropped as blocked is no longer after such a crowd, all of which is dropped |
| `DeniedSources.DeniedCrowdRun` | src/bacnet_security.c:524-540 | a run from the configuration on in which a source is blocked and, its block still running, is not dropped as blocked after the crowd |
| `History.SlotsHoldWhatIsLeft` | src/bacnet_security.c:443-477 | a slot of an address always holds what the last packet of the address left, counters aside |
| `History.EntryIsLeftOrFresh` | src/bacnet_security.c:443-477 | a packet is judged by what the last one left if the entry is live, else by a fresh entry |
| `History.StaysTracked` | src/bacnet_security.c:443-477 | with few sources about, what a packet leaves stays in the table for the whole time to live, under any options |
| `Defaults.DefaultsAreSafe` | bacnet.c:103-122 | the settings shipped meet the conditions of the forgetting and write-once theorems |
| `RateBounds.GlobalLimitHolds` | src/bacnet_security.c:479-487 | in every run and every stretch of it, accepted packets number at most global burst plus global rate times its length |
| `RateBounds.RetainedSourceIsLimited` | src/bacnet_security.c:565-585 | under any options and however many sources there are, the same for each source and each of its packet, Who-Is and write buckets, over stretches in which its entry is retained |
| `RateBounds.SourceLimitsHold` | src/bacnet_security.c:443-585 | over every stretch, expiry or not, if the bucket in question refills within the time to live and the sources of one time to live fit the table |
| `WireLimits.TokensSpent` | src/bacnet_security.c:565-582 | the exact cost of an examined packet: a token of each bucket asked in turn until one refuses, earlier ones staying spent; it passes iff none refuses |
| `FloodGuarantee.BlocksAreJustified` | src/bacnet_security.c:535-540 | in every run of the bounded table a packet dropped as blocked lies inside a block started by the last of N violations of its source within one window |
| `FloodGuarantee.BurstsAreBlocked` | src/bacnet_security.c:575-581 | in every run of the bounded table 2N-2 violations of a source within one window, its entry retained, start a block, by the last of them at the latest |
| `FloodGuarantee.FloodBlockerGuarantee` | src/bacnet_security.c:500-585 | both, under any options and however many sources; and a block drops every packet of its source up to its end while the entry is retained |
| `FloodGuarantee.FewSourcesAreCaught` | src/bacnet_security.c:500-585 | with few sources and a time to live of a flood window (or N = 1) completeness needs no retention |
| `FloodGuarantee.FewSourcesRunFull` | src/bacnet_security.c:535-540 | with few sources and a time to live of a block every block runs its full length |
| `FloodEvasion.ThresholdIsTight` | src/bacnet_security.c:501-506 | for every N >= 2 whenever entries outlive windows, a packet run of one source with 2N-3 violations inside one window and no block |
| `WriteOnce.NotTooSoon` | src/bacnet_security.c:613-637 | a write not recognised as a duplicate comes at least one window after its last execution: no younger fingerprint has been overwritten |
| `WriteOnce.ActKeeps` | src/bacnet_classes.c:3113-3493 | arrivals, polls, callback returns, reports and readings all keep ring, budget and spacing invariants |
| `WriteOnce.WritesRunOncePerWindow` | src/bacnet_classes.c:3417-3493 | if the ring suffices, in every run two successful executions of one write of one source are a duplicate window apart |
| `WriteOnce.OneByteIsNoDuplicate` | src/bacnet_security.c:601-625 | two writes of one source that differ in one byte are never confused |
| `WriteExecution.RunIsLogged` | src/bacnet_security.c:628-637 | in every run the ring holds the fingerprints of the last 4096 executions and nothing else |
| `WriteExecution.TakenUpIff` | src/bacnet_classes.c:3410-3493 | told from the log of executions: which packets are reported, acknowledged as duplicates and counted, handed to the callback, or left alone |
| `WriteExecution.ReportsAndReadings` | src/bacnet_security.c:373-399 | reading the statistics forgets exactly the sources idle for longer than the time to live, and a report of an undecodable packet (587-595) counts it; queue, callback, ring and global bucket stay as they were |
| `WriteExecution.WriteRunsIffNotRecent` | src/bacnet_security.c:613-627 | in every run an admitted, executable write reaches the callback iff none of the last 4096 executions had its address and fingerprint within the duplicate window |
| `WriteExecution.DifferentWriteRuns` | src/bacnet_security.c:613-627 | so a write one byte away from each execution of its source in the window is executed, and so is one whose window has passed |
| `WriteExecution.AddressIsCovered` | src/bacnet_security.c:601-612 | the fingerprint changes with any octet of the address |
| `WriteExecution.AddressFromBytes` | src/bacnet_security.c:601-612 | the address goes into the fingerprint low byte first |
| `WriteOnceTight.RingTurns` | src/bacnet_security.c:628-637 | if the ring does not suffice, writes of different sources, whatever their bytes, can turn it once within one duplicate window |
| `WriteOnceTight.SmallRingBreaks` | src/bacnet_security.c:613-637 | if the ring does not suffice, any 4097 genuine writes of different sources make up a run that executes the first of them twice within its window |
| `WriteOnceTight.RingConditionIsExact` | src/bacnet_security.c:613-637 | where 4097 different sources pass the lists, at most once per window holds in every run of genuine packets if and only if the ring suffices, whatever the limits of single sources |
| `WriteOnceTight.RequestsAreWriters` | src/bacnet_security.c:555-563 | real WriteProperty requests of any such sources are writes of this kind, and frames carry them |
| `NestedPoll.UnnestedWritesRunOnce` | src/bacnet_classes.c:3417-3493 | callbacks may poll in the model: at most once per window holds in every run in which none does |
| `NestedPoll.NestedPollRepeats` | src/bacnet_classes.c:3424-3486 | a run in which a callback polls and the same write is executed twice at once, for any ring, queue and window |
| `NestedPoll.OnceIffCallbacksDoNotPoll` | src/bacnet_classes.c:3417-3493 | with a ring that suffices, at most once per window holds in every run if and only if callbacks do not poll |
| `NestedDepth.NestedActKeeps` | src/bacnet_classes.c:3113-3493 | with nested polls that take up no write in execution, every act keeps ring, budget and spacing, one slot charged per waiting callback |
| `NestedDepth.TameWritesRunOnce` | src/bacnet_classes.c:3417-3493 | then at most once per window holds in every run if the ring suffices for the depth of nesting besides |
| `PollServer.WritesCanBeReceived` | src/bacnet_security.c:542-563 | every genuine write of every address is what some frame means |
| `PollServer.PollServer.QueueUnsolicited` | src/bacnet_classes.c:119-129 | a packet arriving during a client call is checked and queued, or counted as overflow, exactly as the specified act |
| `PollServer.PollServer.AwaitAnswer` | src/bacnet_client.c:283-389 | a client call of the mixed server: every foreign packet before the answer is checked and queued exactly once, in order, and the state moves as by these arrivals |
| `PollServer.PollServer.Discover` | src/bacnet_client.c:165-277 | the same for device discovery: every other packet is checked and queued exactly once, in order |
| `PollServer.PollServer.Poll` | src/bacnet_classes.c:3133-3190 | the queue is drained before the socket, queued packets are not checked twice, and the state moves as the specified act |
| `PollServer.BodyByBytes` | src/bacnet_classes.c:3146-3165 | told by bytes: packets without application data are reported as malformed, confirmed requests cut short are left alone |
| `PollServer.PollServer.TakeUp` | src/bacnet_classes.c:3146-3427 | garbled packets are reported, short confirmed requests left alone, duplicates acknowledged without the callback, and other writes reach it |
| `PollServer.PollServer.CallbackReturns` | src/bacnet_classes.c:3478-3493 | only a successful callback is recorded |
| `SourceTableRuns.RunStaysInStep` | src/bacnet_security.c:443-477 | in every run the table has max_sources slots, distinct addresses, and each entry carries the time of a packet of its address |
| `SourceTableRuns.DisplacedOnlyByMany` | src/bacnet_security.c:465-477 | with distinct packet times, an unexpired entry is lost only after max_sources other addresses were seen since its last packet |
| `Accounting.StepBalances` | src/bacnet_security.c:514-599 | one event adds one count to one counter of one source and to the same global counter, and moves ended entries' counts to the retired ones |
| `Accounting.CountersConserved` | src/bacnet_security.c:427-599 | global counters equal the sum over live entries plus ended entries plus the start, or since the last reset, for each of the five counters in every run |
| `Accounting.LogConserved` | src/bacnet_security.c:489-599 | every warning, queue overflows included, is in exactly one report or pending, and reports are a log interval apart |
| `Accounting.WarningsAreAnnounced` | src/bacnet_security.c:489-498 | at every warning a report is issued, unless one was issued, or the options were set, less than an interval before |
| `SharedSlots.EntriesIsNumber` | src/bacnet_cache.c:400-407 | what a partition limit is compared with is the number of used slots of the partition |
| `SharedSlots.BytesIsTotal` | src/bacnet_cache.c:400-405 | what the byte limit is compared with is the length of all values in use joined together |
| `SharedSlots.TargetIsSound` | src/bacnet_cache.c:396-427 | a put overwrites the slot of its key, else a free slot while its partition has room, else the least recently used entry of its partition, else of all |
| `SharedSlots.ShrinkIsMinimal` | src/bacnet_cache.c:433-449 | the byte loop frees the room needed, drops only entries less recently used than every survivor, and not one more than needed |
| `SharedSlots.PutKeepsCaps` | src/bacnet_cache.c:388-463 | after an accepted put the bytes are within the limit whatever they were before, and no partition exceeds its cap |
| `SharedSlots.PutIsLeastRecentlyUsed` | src/bacnet_cache.c:388-463 | an accepted put stores its entry as most recently used, keeps keys and ticks distinct, and evicts by recency, minimally |
| `SharedSlots.PutCountsEvictions` | src/bacnet_cache.c:388-463 | the eviction counter rises by exactly the number of other entries removed, and no failure is counted |
| `SharedSlots.RefusalIsCounted` | src/bacnet_cache.c:388-432 | a refused put changes no entry; which refusals count as failures, and that one over the byte limit may count an eviction that does not happen |
| `SharedSlots.GetIsExact` | src/bacnet_cache.c:361-386 | a lookup hits iff an unexpired entry of the key fits the caller; the entry becomes the most recent, everything else stays |
| `SharedSlots.MissIsExact` | src/bacnet_cache.c:361-386 | a lookup that misses frees the slot of an expired entry of the key, if there is one, and changes nothing otherwise |
| `SharedSlots.HitIsLastToGo` | src/bacnet_cache.c:361-463 | an entry just hit is removed by a put of another key only as the only one of its partition in the slot chosen, or if nothing else is left |
| `SharedCache.SharedCache.constructor` | src/bacnet_cache.c:142-182 | a new segment is blank |
| `SharedCache.SharedCache.ClearPartition` | src/bacnet_cache.c:240-252 | exactly the entries of the partition, or all, are dropped, and the generations concerned move on |
| `SharedCache.SharedCache.Get` | src/bacnet_cache.c:361-386 | a hit is returned and becomes most recently used; an expired entry is dropped and counted |
| `SharedCache.SharedCache.Put` | src/bacnet_cache.c:388-463 | the put in place equals the specified one, counters included |
| `SharedCache.SharedCache.ChooseTarget` | src/bacnet_cache.c:396-427 | the single scan finds the slot to write, the bytes in use, and whether an entry is displaced |
| `SharedCache.SharedCache.FindVictim` | src/bacnet_cache.c:435-440 | the inner scan finds the least recently used entry other than the target |
| `SharedCache.SharedCache.FreeBytes` | src/bacnet_cache.c:433-449 | the eviction loop terminates with the minimal thinning; its branch without a victim is never reached |
| `OrderedStore.PrefixIsContiguous` | src/bacnet_cache.c:530-534 | in the ordered store the keys with a prefix are exactly those from the seek position to the first without it |
| `OrderedStore.Store.ClearPrefix` | src/bacnet_cache.c:689-703 | the cursor loop deletes all and only the entries with the prefix |
| `OrderedStore.Store.DropDead` | src/bacnet_cache.c:529-552 | the cursor loop, which continues at the successor after a delete, removes the dead entries of the partition, counts the others and finds the one expiring first |
| `OrderedStore.Store.Measure` | src/bacnet_cache.c:561-584 | bytes under the namespace and the recognised entry expiring first |
| `OrderedStore.Store.Prune` | src/bacnet_cache.c:514-591 | one transaction: the partition pass, then at most one entry of the namespace |
| `OrderedStore.PartitionPassRemoves` | src/bacnet_cache.c:529-559 | the partition pass removes exactly the dead entries of the partition and, if still over the limit, one live entry of minimal expiry |
| `OrderedStore.SoonestIsFirst` | src/bacnet_cache.c:548-553 | of several candidates that expire at the same time the first one in the order of keys goes |
| `OrderedStore.CountIsNumber` | src/bacnet_cache.c:541-556 | the count compared with the entry limit is the number of entries whose key has the prefix |
| `OrderedStore.NamespacePassRemoves` | src/bacnet_cache.c:561-589 | over the byte limit, 24 bytes of header per entry included, exactly one entry of minimal expiry of the namespace goes and the total falls by its size; else nothing goes |
| `OrderedStore.InsertReplaces` | src/bacnet_cache.c:492-512 | storing replaces the entry of the key and changes no other |
| `OrderedStore.InsertStaysSorted` | src/bacnet_cache.c:492-512 | storing keeps the order of keys |
| `CacheKeys.FullKeyInjective` | src/bacnet_cache.c:210-215 | full keys of one namespace determine partition and key |
| `CacheKeys.PartitionScanIsExact` | src/bacnet_cache.c:521 | without a bar in namespaces, a prefix scan meets exactly the keys of its partition, or namespace |
| `CacheKeys.ScanMeetsForeignKeyIff` | src/bacnet_cache.c:682-688 | in general it can meet keys of another partition iff one of the two prefixes begins with the other |
| `CacheKeys.BarBreaksIsolation` | src/bacnet_cache.c:210-215 | for every namespace there is another one, containing a bar, all of whose keys a clear of the first deletes |
| `CacheKeys.ExposedIffShort` | src/bacnet_cache.c:760-763 | a partition of a bar-free namespace is met by keys of another namespace with a name of at most 95 characters iff its own names leave room for that name |
| `TwoLevelCache.GetAgrees` | src/bacnet_cache.c:593-636 | a read keeps agreement with the plain map, promotion included; a hit is the latest put of its key and within the sum of both lifetimes |
| `TwoLevelCache.PutAgrees` | src/bacnet_cache.c:638-674 | a put that no level refuses while holding an older value keeps the agreement, pruning included |
| `TwoLevelCache.ClearAgrees` | src/bacnet_cache.c:676-704 | clearing removes exactly the partition, or everything, on both levels |
| `TwoLevelCache.HitsAreLatestAndBounded` | src/bacnet_cache.c:593-704 | in every run of reads, puts and clears, a hit returns the latest uncleared put of the key, before put time + its lifetime (+ the partition lifetime with a second level) |
| `TwoLevelCache.OldValueGoneIffAccepted` | src/bacnet_cache.c:388-432 | a put over a live first-level entry hides the old value iff the first level accepts the new one |
| `TwoLevelCache.RefusedPutShowsOldValue` | src/bacnet_cache.c:388-432 | a run from the empty cache in which a read shows the value before the last put |
| `TwoLevelCache.CorruptionIsRejected` | src/bacnet_cache.c:479-481 | an entry whose payload differs in one byte from the one checksummed is never returned |
| `CacheDelivery.OnlySoundEntriesAreRead` | src/bacnet_cache.c:465-490 | a hit of the second level has the magic number, the right length, a matching checksum and a deadline ahead |
| `CacheDelivery.PutIsStored` | src/bacnet_cache.c:638-674 | as long as the limits leave room, what is put can be read from the second level until its lifetime is over, and not after |
| `CacheDelivery.MissPromotes` | src/bacnet_cache.c:616-632 | a read that misses the first level and finds the value in the second returns it, and the next read is answered by the first |
| `CacheDelivery.HeldOrLost` | src/bacnet_cache.c:593-704 | in every run the last uncleared put of a key is held, or some operation refused, evicted or pruned it |
| `CacheDelivery.MissHasReason` | src/bacnet_cache.c:593-704 | a read misses only if its key has no uncleared put, or that put's lifetime is over, or it is too long for the reader, or some operation lost it |
| `CacheDelivery.DisabledIsInert` | src/bacnet_cache.c:593-643 | a partition switched off neither stores nor serves; a lifetime of zero stores nothing |
| `TwoLevelCache.StoredIsFetched` | src/bacnet_cache.c:465-512 | what is stored in the second level comes out until it expires, if it fits the caller's buffer |
| `ClientCache.ClientCache.Get` | src/bacnet_cache.c:593-636 | the in-place read equals the specified one and counts hit or miss |
| `ClientCache.ClientCache.Put` | src/bacnet_cache.c:638-674 | the in-place put equals the specified one |
| `ClientCache.ClientCache.Clear` | src/bacnet_cache.c:676-704 | the in-place clear equals the specified one |
| `ReadAfterWrite.WriteEmpties` | src/bacnet_classes.c:426-436 | after a successful write neither level holds anything that could answer a property read |
| `ReadAfterWrite.PerformKeeps` | src/bacnet_classes.c:186-249 | one call serves only what was fetched since the last write, and adds only what it fetches |
| `ReadAfterWrite.CachedReadsAreFresh` | src/bacnet_classes.c:186-249 | in every sequential run a cached read shows a value fetched from the network after the latest successful write; a refresh is never cached |
| `ReadAfterWrite.CachedTimeoutsAreFresh` | src/bacnet_classes.c:336-340 | a timeout answered from the cache was seen on the network after the latest successful write |
| `ReadDelivery.FetchedIsServed` | src/bacnet_classes.c:186-249 | a property fetched from the network is served from the cache at the next read within its lifetime |
| `ReadDelivery.TimeoutIsServed` | src/bacnet_classes.c:230-249 | a timeout is remembered for the lifetime of negative entries |
| `ReadDelivery.RefreshForgets` | src/bacnet_classes.c:224-229 | a refresh that gets no answer leaves nothing of its partition behind |
| `ReadDelivery.WriteSparesOthers` | src/bacnet_classes.c:426-436 | a write not acknowledged leaves the cache alone; an acknowledged one takes nothing from the partitions of device discovery |
| `CacheConcurrency.NextKnown` | src/bacnet_cache.c:361-704 | every critical section and transaction of any process keeps: all values in both levels and in flight were put for their key, and their deadlines are bounded |
| `CacheConcurrency.HitsAreEarlierPuts` | src/bacnet_cache.c:593-674 | under every interleaving a hit shows the value of an earlier put of its key, before put time + its lifetime + the partition lifetime + the delay of the promotion |
| `CacheConcurrency.PromotionWins` | src/bacnet_cache.c:629-631 | a promotion makes its value the one shown, whatever was put or cleared since it was read |
| `CacheConcurrency.PromotionRevives` | src/bacnet_cache.c:593-704 | a run of three processes in which a value cleared and overwritten is shown again |
| `StoreConcurrency.PruneCounts` | src/bacnet_cache.c:514-591 | a prune of the partition over its limit lowers its entry count; any prune never raises it |
| `StoreConcurrency.CommitKeepsBound` | src/bacnet_cache.c:492-559 | every transaction keeps: entries <= limit + processes between put and prune |
| `StoreConcurrency.EntriesStayBounded` | src/bacnet_cache.c:646-648 | that bound holds under every interleaving of any number of processes |
| `PduQueue.PduQueue.constructor` | src/bacnet_client.c:63-104 | the queue starts empty |
| `PduQueue.PduQueue.Queue` | src/bacnet_client.c:129-144 | appends to the FIFO, or refuses an empty or too long packet or a full ring and changes nothing |
| `PduQueue.PduQueue.Pop` | src/bacnet_client.c:146-159 | hands out and removes the head of the FIFO |
| `PduQueue.WindowGrows` | src/bacnet_client.c:129-144 | writing behind the last slot modulo 32 appends |
| `PduQueue.WindowShrinks` | src/bacnet_client.c:146-159 | advancing the head modulo 32 drops the first |
| `RequestLoop.SendAndWait` | src/bacnet_client.c:283-389 | returns the first decodable response with the expected invoke id, truncated to the reply buffer; every foreign packet before it is handed on once, in order |
| `RequestLoop.RepliesByBytes` | src/bacnet_client.c:325-388 | told by bytes: simple and complex acknowledgements, errors, rejects and aborts with the expected invoke id end the wait; undecodable packets and network messages are ignored; the rest is handed on |
| `RequestLoop.Collect` | src/bacnet_client.c:165-277 | discovery collects until the deadline, silence, a full list or a failing handler, and hands on every other packet for the application once, in order |
| `RequestLoop.SightsByBytes` | src/bacnet_client.c:213-250 | told by bytes: which packets announce a device, which are handed on, which are nothing |
| `RequestLoop.CollectedOnce` | src/bacnet_client.c:258-267 | no device is listed twice, the own one never |
| `RequestLoop.CollectedAll` | src/bacnet_client.c:199-274 | every device announced is listed, and only those |
| `MixedServer.ActIsFair` | src/bacnet_classes.c:119-129 | one act: queue plus newly kept equals taken up plus queue, and refusals are counted as overflows |
| `MixedServer.PacketsKeepTheirOrder` | src/bacnet_classes.c:3133-3145 | in every run admitted packets are taken up in arrival order, are still queued in that order, or were counted as overflows |
| `MixedServer.QueueStaysBounded` | src/bacnet_client.c:129-144 | the queue never exceeds its capacity |
| `ObjectList.KeyRoundTrip` | src/bacnet_classes.c:2519-2556 | object identifier and hash key determine each other for 22-bit instances |
| `ObjectList.IdRoundTrip` | src/bacnet_classes.c:2894-2902 | the encoded object identifier decodes to itself |
| `ObjectList.IdOnWire` | src/bacnet_classes.c:2899-2906 | on the wire an identifier is its tag and the big-endian number type * 2^22 + instance |
| `ObjectList.UnsignedRoundTrip` | src/bacnet_classes.c:2894-2897 | the encoded unsigned integer decodes to itself |
| `ObjectList.CountReadsBack` | src/bacnet_classes.c:2894-2897 | index 0 reads as the number of objects |
| `ObjectList.LocalObjects.constructor` | src/bacnet_classes.c:2519-2537 | the registry starts empty |
| `ObjectList.LocalObjects.Add` | src/bacnet_classes.c:2519-2537 | adds the object at the end unless it is the device or already there |
| `ObjectList.LocalObjects.Remove` | src/bacnet_classes.c:2543-2556 | removes exactly this object and keeps the order |
| `ObjectList.LocalObjects.Count` | src/bacnet_classes.c:2836-2852 | the length of the list |
| `ObjectList.LocalObjects.Item` | src/bacnet_classes.c:2854-2882 | the object at an index from 1, nothing beyond the end |
| `ObjectList.LocalObjects.Encode` | src/bacnet_classes.c:2884-2919 | count for index 0, one element for an index in range, failure beyond, and all elements in order if they fit |
| `ObjectList.ListingIsEnumeration` | src/bacnet_classes.c:2854-2882 | the list holds the device first and each registered object exactly once |
| `ObjectList.RegistryIsFaithful` | src/bacnet_classes.c:2519-2556 | after any sequence of adds and removes the list holds exactly what was added and not removed since |
| `ObjectList.ElementReadsBack` | src/bacnet_classes.c:2898-2906 | an element read decodes to the object at its index; it fails exactly beyond the end |
| `ObjectList.WholeIsJoined` | src/bacnet_classes.c:2907-2919 | the whole property is the concatenation of its element reads if it fits, else fails |
| `ReadPropertyMultiple.Mark` | src/bacnet_classes.c:3293-3309 | a mark is written before its bound is checked; it is kept exactly if it fits |
| `ReadPropertyMultiple.AnswerReference` | src/bacnet_classes.c:3325-3390 | all properties a reference stands for are answered in order, or the response cannot fit |
| `ReadPropertyMultiple.AnswerObject` | src/bacnet_classes.c:3301-3397 | one object's list is answered up to its end, or the outcome is that of the whole request |
| `ReadPropertyMultiple.AnswerRequest` | src/bacnet_classes.c:3271-3407 | the single-pass loop terminates with the outcome of parsing first and answering then |
| `ReadPropertyMultiple.OverflowIsFinal` | src/bacnet_classes.c:3293-3390 | a response that does not fit after some items makes the whole request abort |
| `ReadPropertyMultiple.TreeIsScanned` | src/bacnet_classes.c:3275-3397 | the scan meets exactly the items of the request tree, and completes iff the request parses |
| `ReadPropertyMultiple.TreeQueriesAsked` | src/bacnet_classes.c:3087-3111 | exactly the requested properties are asked, PROP_ALL expanded, in order and each under its own object |
| `ReadPropertyMultiple.ResponseIsComplete` | src/bacnet_classes.c:3271-3407 | a well-formed request gets the complete response tree, or an abort iff its encoding exceeds the limit; a malformed one never gets an acknowledgement |
| `ResponseReader.AllMeans` | src/bacnet_classes.c:3087-3111 | PROP_ALL stands for 21 properties of the device and five of any other object |
| `ResponseReader.AckReadsBack` | src/bacnet_classes.c:3271-3407 | whoever decodes the pieces of an acknowledgement reads from it, for each object asked about, in order, one answer for each property, as the application gave it |
| `ResponseReader.RequestIsUnderstood` | src/bacnet_classes.c:3301-3320 | a request written for a tree is parsed into that tree |

`ForgettingIsInvisible` asks that nothing outlives the time to live: `rate * ttl >= burst` for the three buckets of a
source, `ttl >= block_duration`, and `ttl >= flood_window` unless one violation blocks; and that no stretch of one time
to live sees more than `max_sources` addresses, which is what "few sources" means.

## Left out

- PHP and Zend plumbing, argument parsing, exceptions, INI parsing: callbacks are parameters that succeed or fail.
- Sockets and the codecs of the BACnet stack: decoders and encoders are parameters with length contracts; only object
  identifiers and unsigned integers of Object_List are encoded concretely.
- The text of network lists (`inet_pton`, `strtol`, comma splitting): an item carries its parsed address and prefix.
- Rounding of doubles, wrap-around of 64-bit counters and ticks, clocks that go back.
- Shared-memory locking and recovery, opening and closing the store, failing commits: every critical section and every
  transaction is one atomic step that succeeds.
- A clock that moves during one cache operation: every operation reads the time once.
- The PHP callback backend and its generation protocol; it promises nothing beyond the lifetimes.
- The byte limit of the second level as a bound: a prune deletes at most one entry for it
  (`OrderedStore.NamespacePassRemoves`).
- Which property belongs to which cache partition: the partition of a read is a parameter.
- `set_options` of the cache, which can fail after partial changes.
- Reconfiguration during a run of `WriteOnce` or of the other run theorems.
- Several processes putting the same key at once: that a hit is the latest put, and freshness after writes, are about
  sequential runs; under interleaving a hit is some earlier put (`CacheConcurrency`).
- Truncation of keys by `snprintf`: keys are unbounded strings (those of the extension fit their buffers). Without a second
  level the keys of the code say `none` where the model says `lmdb`.
- Cache segments shared by several namespaces: `TwoLevelCache` has one namespace per segment.
- Who-Is and COV handling in `poll`, ReadProperty of single properties, schedules, trend logs, value wrappers.
- RequestLoop.SendAndWait: a clock that passes the deadline between its two readings still lets the loop receive, as in
  the code; the timeout of that receive is not part of the model.
- ReadPropertyMultiple.AnswerRequest: read callbacks may keep state but an exception they throw is one more answer.
