# Inter-processor communication: verified models

This project models the stateful cores of an inter-processor communication
stack and proves what they promise, over every run and every interleaving.
Everything is Dafny; `dafny verify dfyconfig.toml` checks the whole project.

**RCM server** (`RcmJobs`, `RcmJobList`, `RcmScheduler`, `RcmInvariant`,
`RcmMoves`, `RcmPools`, `RcmStreams`, `RcmTheorems`, `RcmRouting`,
`RcmProgress`, `RcmFinalize`). One server
thread dispatches packets to per-pool ready queues, each with a counting
semaphore, or to per-job queues; any number of worker threads execute packets
and hand on the next packet of the same job. It is a transition system: what the
code does to the job list under the instance gate is one step, and putting on a
ready queue and posting its semaphore are two, between which other threads may
run. The states carry histories: the packets received, the log of packets
answered or freed, and for each job stream what dispatch accepted. The loops of
the gated sections are methods of a class over mutable job objects, proved
against the functions the transition system uses. A run may take any packets,
pools and workers, and may end in finalize.

**RCM function table** (`RcmFxnTable`, `RcmFxnTheorems`, `RcmFxnLookup`,
`RcmFxnTabs`). A static table and eight dynamic ones doubling in size, packed
indices, an 11-bit key against reuse. The class `FxnTabs` keeps an array of
arrays and updates it in place; its methods are proved against functions on
values, and the theorems are about all runs of those functions.

**NameServer** (`CrcTable`, `StringHash`, `NameTable`, `NameServer`,
`RemoteLookup`). The string hash with its 256-entry table, the linked name table
that compares hashes only, and the request/response lookup on other processors
with one shared reply slot. The name table is a finite map exactly as far as
hashes tell names apart, and each operation has its exact condition; the hash
theorem says which names are always told apart.

**MessageQ daemon** (`MessageQTable`, `MessageQDaemon`). The growing array of
queue objects, and the "MessageQ" name table that has to agree with it.

**LAD** (`LadClients`, `LadInfo`, `LadRpc`, `LadInvariant`, `LadSteps`,
`LadDaemon`, `LadTheorems`, `LadProgress`, `LadPaths`, `LadRule`, `LadRejoin`,
`LadSecond`, `LadExact`, `LadOverlap`). Client processes with many threads share
one command FIFO; a single-threaded daemon answers each through a response FIFO
of its own; a mutex in each process spans putting a command and getting its
answer. A thread may begin a call, a connect or a disconnect at any time, with
the checks, flags, files and pipes of the code. Not everything then goes well:
the calling rule (`LadRpc.Obeyed`) says when a thread may begin, in terms of what
the other threads of its own process are doing, and `LadExact.RuleExact` proves
it exact. The other theorems are about all runs in which the rule is kept. What
the daemon's services compute is a parameter. The client and daemon tables are
also classes over their parallel arrays.

**MessageQ_get** (`RoundRobin`) and **SysMin** (`TimeStamp`, `SysMin`). The
round-robin receive with its static cursor, and the line-buffered circular trace
log with its time stamps.

`Arithmetic`, `Bags` (sums over sequences) and `Options` serve the others.

## Findings

- Threads of one process that overlap a disconnect or a connect can break the
  LAD protocol (`linux/src/utils/LAD_client.c:109-287`,
  `linux/src/daemon/lad.c:226-507`). `LadOverlap.ResultGoesAstray`: a call past
  `LAD_findHandle` when another thread disconnects has its result written to the
  process that was given the slot in between, and that one's own next call
  returns it, before the daemon has taken its command.
  `LadOverlap.SecondConnectHangs`: of two threads that both pass the `stat`, the
  second opens the first one's FIFO and reads forever, with the mutex. The rule
  that excludes this is exact (`LadExact.RuleExact`): from every state reached by
  the rule, a beginning keeps it if and only if no run that follows without
  another beginning uses a closed file, fails, or leaves something that can never
  end.
- `NameServer_add` never sets `collide` on a node of the list
  (`linux/src/daemon/NameServer_daemon.c:780-812`), so the branches for colliding
  nodes are never taken, and a name whose hash another name has is answered with
  that name's value, cannot be entered and, removed, takes the other name out.
  `NameTable.GetExact`, `AddExact` and `RemoveExact` say that the table is right
  if and only if there is no such clash; `ClashExample` is a clash of two
  five-character names. Four neighbouring characters are the limit of what the
  hash always tells apart (`NameHash.NearNamesSeparate`, `FiveCanCollide`).
- A removed function index (`packages/ti/grcm/RcmServer.c:1708-1729`) is accepted
  again exactly when its slot's occupant was added a multiple of 2047 additions
  after it (`RcmFxnTheorems.IndexExact`); `StaleIndexAfter2047` builds such a run.
- `_MessageQ_grow` keeps the old table's byte size in 16 bits
  (`linux/src/daemon/MessageQ_daemon.c:423-458`). The new table has every entry
  and the new one if and only if it fits (`MessageQTable.GrownExact`); otherwise
  it has no slot for the new entry, which is written past its end. With 16384
  handles of 4 bytes nothing is copied (`GrowthLosesAll`).
- A time stamp (`packages/ti/trace/SysMin.c:147-208`) is exact if and only if the
  elapsed time is below 10^(10 + i) microseconds (`TimeStamp.StampExact`). The
  32-bit tick counter gets there: after 2 000 000 000 ticks of 5 microseconds the
  stamp shows zero (`StampWrong`).

## Model

| member | source | states |
|---|---|---|
| RcmJobs.SearchFindsFirst | packages/ti/grcm/RcmServer.c:1329-1348 | the id search returns the first id, in cyclic order after the tracker, that no listed job has, or 0 when all ids it may try are listed |
| RcmJobs.EveryIdTriedOnce | packages/ti/grcm/RcmServer.c:1329-1348 | from any tracker value the bounded loop comes to each of the 65535 non-zero ids once and only once |
| RcmJobs.AcquireIsSoundAndComplete | packages/ti/grcm/RcmServer.c:1308-1389 | an acquired id is non-zero, unused and the first free one; acquisition fails exactly when all 65535 ids are held |
| RcmJobs.TrackerAfterSearch | packages/ti/grcm/RcmServer.c:1329-1348 | the tracker stays a 16-bit value and is the id handed out |
| RcmJobList.JobList.FindJob | packages/ti/grcm/RcmServer.c:1464-1474 | the search of the job list finds the first job with the id, or none |
| RcmJobList.JobList.Acquire | packages/ti/grcm/RcmServer.c:1308-1389 | the nested loops pick the id and tracker the search function picks; a new idle job with an empty queue is appended exactly when an id was found, and no other job changes |
| RcmJobList.JobList.AdmitMsg | packages/ti/grcm/RcmServer.c:1461-1502 | the gated part of dispatch: an unknown job is an error, an idle one becomes busy and its packet goes to the ready queue, a busy one's queue gets the packet at its end |
| RcmJobList.JobList.NextMsg | packages/ti/grcm/RcmServer.c:2395-2428 | the gated part of the hand-over: the job's oldest waiting packet is taken, or the job turns idle when nothing waits |
| RcmJobList.JobList.Remove | packages/ti/grcm/RcmServer.c:2064-2084 | the gated part of release: the job taken off is the first with the id asked for, there is none exactly when no job has it, and the others stay as they are and in order |
| RcmMoves.StepMoves | packages/ti/grcm/RcmServer.c:1806-2028 | each step moves a packet between the ready queues, the job queues, the threads' hands and the log as conservation needs |
| RcmMoves.ConservedKept | packages/ti/grcm/RcmServer.c:2239-2290 | every step keeps each received packet in exactly one place |
| RcmPools.SemKept | packages/ti/grcm/RcmServer.c:2346-2376 | every step keeps the relation of a pool's semaphore count, its woken workers and its ready queue |
| RcmPools.PoolsKept | packages/ti/grcm/RcmServer.c:947-986 | the same for all pools, before, during and after finalize of each |
| RcmPools.SettledKept | packages/ti/grcm/RcmServer.c:883-936 | once finalize has joined the server thread no later step brings a job message into flight |
| RcmStreams.DispatchKeeps | packages/ti/grcm/RcmServer.c:1461-1502 | dispatch keeps every job stream in order, with at most one message in flight, and puts to the pool bits 7:0 of the pool id name (case by case: RcmRouting.RouteExact) |
| RcmStreams.HandTurnKeeps | packages/ti/grcm/RcmServer.c:2395-2484 | the hand-over keeps every job stream in order and passes the job's turn to its next message |
| RcmStreams.ReleaseKeeps | packages/ti/grcm/RcmServer.c:2064-2119 | taking a job off the list keeps every stream in order; the job taken is the one with the id asked for, what waits of it is with the releasing thread, and the id is not listed afterwards |
| RcmStreams.ReturnNextKeeps | packages/ti/grcm/RcmServer.c:2088-2112 | sending back a released job's messages one by one keeps their order |
| RcmStreams.AcquireKeeps | packages/ti/grcm/RcmServer.c:1360-1380 | a new job begins an empty stream and leaves the others alone |
| RcmTheorems.InvKept | packages/ti/grcm/RcmServer.c:2320-2488 | every enabled step keeps the whole invariant |
| RcmTheorems.RunInv | packages/ti/grcm/RcmServer.c:2132-2297 | every run keeps the whole invariant |
| RcmTheorems.EachPacketInOnePlace | packages/ti/grcm/RcmServer.c:1770-2037 | in every reachable state a received packet is in exactly one of: a ready queue, a job queue, one thread's hands, the log of answered or freed packets; and in no two of them |
| RcmTheorems.JobOrder | packages/ti/grcm/RcmServer.c:1461-1502 | for each job: processed, then the one in flight, then sent back on release, then still waiting, is what dispatch accepted, in dispatch order |
| RcmTheorems.OneInFlight | packages/ti/grcm/RcmServer.c:2395-2484 | two messages of one job are never in flight together, whatever the number of pools and workers |
| RcmTheorems.EmptyFlagExact | packages/ti/grcm/RcmServer.c:1481-1499 | a listed job's empty flag is true exactly when nothing of the job is queued, on a ready queue, held by a thread, or processed with the hand-over still to come |
| RcmTheorems.HandOverHasPool | packages/ti/grcm/RcmServer.c:2430-2464 | the worker's branch for a queued packet without a pool is never taken |
| RcmTheorems.PopFindsPacket | packages/ti/grcm/RcmServer.c:2365-2376 | a worker past the terminate check never finds its ready queue empty |
| RcmTheorems.CountWithinQueue | packages/ti/grcm/RcmServer.c:1449-1454 | before finalize's posts, a pool's semaphore count plus its woken workers is at most the length of its ready queue |
| RcmTheorems.PostedCanStep | packages/ti/grcm/RcmServer.c:954-963 | with a pool's posts made, each of its workers is marked and has left or can take a step |
| RcmTheorems.FinishedClean | packages/ti/grcm/RcmServer.c:940-1019 | after finalize every worker has left, all queues are empty, and every packet ever received was answered or freed exactly once |
| RcmTheorems.FinalizeFindsNoJobMessages | packages/ti/grcm/RcmServer.c:901-936 | entered with no job message in flight, finalize's drain of the job list finds only idle jobs with empty queues |
| RcmRouting.PacketsKeepToTheirPool | packages/ti/grcm/RcmServer.c:1735-1762 | in every reachable state a packet on a ready queue, with one of its workers, or on its way there is with the pool that bits 7:0 of its pool id name |
| RcmRouting.RouteExact | packages/ti/grcm/RcmServer.c:1417-1510 | case by case, for every reachable state: a packet is processed in-band, answered pool-not-found exactly when its pool number is not below the number of pools, put to its pool, answered job-not-found, or queued at the end of its busy job |
| RcmRouting.HandOverExact | packages/ti/grcm/RcmServer.c:2395-2464 | the hand-over puts the oldest message of exactly this job to the pool that message names, or marks the job idle, and leaves the other jobs alone |
| RcmRouting.ReleaseExact | packages/ti/grcm/RcmServer.c:2045-2084 | job-not-found is answered exactly when no job has the id; otherwise the job with the id, and no other, leaves the list, its queue is with the releasing thread, and the others stay as they are and in order |
| RcmRouting.DrainExact | packages/ti/grcm/RcmServer.c:2088-2112 | the released job's messages are answered unprocessed, oldest first, and then the release is answered with success |
| RcmRouting.AcquireExact | packages/ti/grcm/RcmServer.c:1968-1979 | an acquisition is answered with an error exactly when all 65535 ids are listed; otherwise with success, and one idle job with an id nobody had is at the end of the list |
| RcmRouting.AnswersExact | packages/ti/grcm/RcmServer.c:1806-2028 | for every reachable state and step: a packet is answered with a status exactly when that status is due by its kind, its result and the lists, and freed exactly when it is a command that succeeded; at most one answer a step |
| RcmRouting.ReadyFifo | packages/ti/grcm/RcmServer.c:2365-2376 | over every run, what was put on a ready queue is what was taken off it, in order, and then what is still there |
| RcmProgress.WorkDrops | packages/ti/grcm/RcmServer.c:2346-2484 | every step other than an arrival or a shutdown lowers a measure over queued, ready and held packets |
| RcmProgress.InternalRunsEnd | packages/ti/grcm/RcmServer.c:2346-2484 | without new arrivals a run has at most that many steps |
| RcmProgress.CanStep | packages/ti/grcm/RcmServer.c:2320-2488 | a thread that neither waits nor has left can always take its next step |
| RcmProgress.StuckReadyEmpty | packages/ti/grcm/RcmServer.c:2346-2376 | where no step is possible and each pool has a worker, every ready queue is empty |
| RcmProgress.StuckMeansDone | packages/ti/grcm/RcmServer.c:2346-2484 | where no step is possible every received packet was answered or freed once, every job is idle, and each job's accepted messages are those processed or sent back, in order |
| RcmFinalize.PostsSuffice | packages/ti/grcm/RcmServer.c:947-986 | finalize's one post per worker suffices: with the posts to a pool made, the workers' steps are bounded in number and, where none is left, every worker of the pool has left |
| RcmFinalize.EndingCanStep | packages/ti/grcm/RcmServer.c:901-1019 | past the join of the server thread, finalize or a worker can take a step until finalize has finished |
| RcmFinalize.FinalizeEnds | packages/ti/grcm/RcmServer.c:901-1019 | finalize always ends: a measure over workers and finalizer bounds the steps, and at their end every worker has left, every queue is empty and every packet received was answered or freed once |
| RcmFxnIndex.PackedFields | packages/ti/grcm/RcmServer.c:1254-1257 | key, table and offset packed into an index come back unchanged, and the index is not a static one |
| RcmFxnIndex.StaticFields | packages/ti/grcm/RcmServer.c:1586-1588 | the offset packed into a static index comes back and the index is recognised as static |
| RcmFxnIndex.IndexNumber | packages/ti/grcm/RcmServer.c:1194 | as a number a dynamic index is its key times 2^20, plus its table times 2^12, plus its offset |
| RcmFxnTheorems.AddPuts | packages/ti/grcm/RcmServer.c:1136-1202 | an addition fills one free slot with the function, its name and the next key, and leaves every other slot as it was |
| RcmFxnTheorems.FreePlaceIsFirst | packages/ti/grcm/RcmServer.c:1136-1178 | the slot taken is the first free one; a table is allocated only when all before it are full |
| RcmFxnTheorems.ShapeKept | packages/ti/grcm/RcmServer.c:1136-1202 | every addition and removal keeps the allocated tables a prefix, their sizes doubling from 32 to 4096, and keys within 11 bits |
| RcmFxnTheorems.FullExactlyAt8160 | packages/ti/grcm/RcmServer.c:1136-1202 | "table full" is reported exactly when all 8160 dynamic slots are taken, and then nothing changes |
| RcmFxnTheorems.KeysCycle | packages/ti/grcm/RcmServer.c:1708-1729 | keys are non-zero, none comes back within 2046 additions, and the 2047th brings it back |
| RcmFxnTheorems.LiveIndexResolves | packages/ti/grcm/RcmServer.c:1606-1642 | after any run that does not clear its slot, an index resolves to exactly its function; one issued for offset 0 resolves to a null create function |
| RcmFxnTheorems.RemovedIndexRejected | packages/ti/grcm/RcmServer.c:1606-1642 | once its slot was cleared an index is rejected throughout the 2046 additions after its own, even when the slot is used again |
| RcmFxnTheorems.LookupReturnsIssued | packages/ti/grcm/RcmServer.c:1651-1701 | looking up a name nobody else has returns the index issued for it, after any run that neither removes nor re-adds it |
| RcmFxnTheorems.StaleIndexAfter2047 | packages/ti/grcm/RcmServer.c:1708-1729 | the bound of 2046 is exact: a run with 2047 additions makes the removed index resolve to another function |
| RcmFxnTheorems.IndexExact | packages/ti/grcm/RcmServer.c:1606-1642 | for every run, an issued index is accepted exactly when its slot is occupied by a function added a multiple of 2047 additions after it (0 for its own), and then resolves to the occupant |
| RcmFxnTheorems.ShapeFromStart | packages/ti/grcm/RcmServer.c:1136-1202 | from a newly created instance every run keeps the tables in shape with at most 8160 dynamic slots taken |
| RcmFxnLookup.NamePlaceExact | packages/ti/grcm/RcmServer.c:1666-1692 | the name search comes to the first slot with the name, static table first, and to none exactly when nobody has it |
| RcmFxnLookup.LookupExact | packages/ti/grcm/RcmServer.c:1651-1701 | a name is not found exactly when nobody has it; otherwise the index is that of the first slot with it: bit 31 and the offset for a static one, else key, table and offset in their places |
| RcmFxnLookup.RemoveExact | packages/ti/grcm/RcmServer.c:1222-1270 | a removal clears the first slot with the name and no other; it is refused, changing nothing, for a static function and an unknown name |
| RcmFxnLookup.StaticResolves | packages/ti/grcm/RcmServer.c:1585-1603 | after any run from a new instance a static index resolves to the function at its offset in the static table as it was given, to the create function for offset 0, and to nothing past the end |
| RcmFxnLookup.StaticIndexOf | packages/ti/grcm/RcmServer.c:1585-1603 | the index made of bit 31 and an offset is such an index, for every 16-bit offset |
| RcmFxnLookup.StaticNameResolves | packages/ti/grcm/RcmServer.c:1651-1701 | after any run, looking up a static name gives an index that resolves to the first function of that name in the static table, and removing it is refused |
| RcmFxnTabs.FxnTabs.GetNextKey | packages/ti/grcm/RcmServer.c:1708-1729 | the key counts down from 2047 and skips 0 |
| RcmFxnTabs.FxnTabs.FindSlot | packages/ti/grcm/RcmServer.c:1136-1178 | the nested search stops at the first free place, allocating the next table only when all before it are full |
| RcmFxnTabs.FxnTabs.Add | packages/ti/grcm/RcmServer.c:1111-1214 | the array of arrays after an addition, and the index returned, are those of the addition on values |
| RcmFxnTabs.FxnTabs.FindName | packages/ti/grcm/RcmServer.c:1663-1686 | the nested loops find the first slot with the name, if there is one |
| RcmFxnTabs.FxnTabs.SymIdx | packages/ti/grcm/RcmServer.c:1651-1701 | the index of a name is that of the lookup on values |
| RcmFxnTabs.FxnTabs.Remove | packages/ti/grcm/RcmServer.c:1222-1272 | exactly the slot found for the name is cleared; static and unknown names are refused without change |
| RcmFxnTabs.FxnTabs.FxnAddr | packages/ti/grcm/RcmServer.c:1575-1642 | the address or the rejection of an index is that of the resolution on values, static (RcmFxnLookup.StaticResolves) and dynamic (RcmFxnTheorems.IndexExact) |
| CrcTable.TopByteInjective | linux/src/daemon/NameServer_daemon.c:182-226 | the top bytes of the 256 table entries are all different |
| CrcTable.TableIsCrc | linux/src/daemon/NameServer_daemon.c:182-226 | every entry of the literal table is that of the reflected CRC-32 of section 8 of RFC 1952 |
| NameHash.StringHash | linux/src/daemon/NameServer_daemon.c:228-238 | the loop computes the hash of the name, starting from its length |
| NameHash.StepInjective | linux/src/daemon/NameServer_daemon.c:233-235 | taking in a character is invertible on hash states |
| NameHash.SuffixInjective | linux/src/daemon/NameServer_daemon.c:233-235 | different states stay different over any common suffix |
| NameHash.WindowInjective | linux/src/daemon/NameServer_daemon.c:233-235 | from one state, different windows of up to four characters lead to different states |
| NameHash.NearNamesSeparate | linux/src/daemon/NameServer_daemon.c:228-238 | names of one length that differ only within four neighbouring characters have different hashes, for every prefix and suffix |
| NameHash.FiveCanCollide | linux/src/daemon/NameServer_daemon.c:228-238 | five is too many: two five-character names with one hash |
| NameTable.GetExact | linux/src/daemon/NameServer_daemon.c:1139-1213 | getLocal gives the stored value, its first len bytes or all of it when shorter, and not-found on an absent name, if and only if no other name on the list has the hash |
| NameTable.AddExact | linux/src/daemon/NameServer_daemon.c:737-819 | add enters the name and refuses exactly a present one, if and only if there is no clash |
| NameTable.RemoveExact | linux/src/daemon/NameServer_daemon.c:837-906 | remove takes out exactly the name and fails exactly on an absent one, if and only if there is no clash |
| NameTable.ClashExample | linux/src/daemon/NameServer_daemon.c:737-906 | what goes wrong for two names with one hash |
| NameTable.StepRefines | linux/src/daemon/NameServer_daemon.c:737-931 | each operation on names the hash tells apart answers and acts as on a finite map |
| NameTable.TableRefinesMap | linux/src/daemon/NameServer_daemon.c:737-931 | over every run on names the hash tells apart the answers are those of a finite map, the table holds that map, and count is its size |
| NameTable.NearNamesSeparated | linux/src/daemon/NameServer_daemon.c:228-238 | any set of names that differ only within one window of four characters is such a set |
| NameServer.Instance.FindNode | linux/src/daemon/NameServer_daemon.c:756-773 | the traversal stops at the first node with the hash |
| NameServer.Instance.Add | linux/src/daemon/NameServer_daemon.c:737-819 | the linked list, the count and the result after add, with duplicates refused and clashing names hung aside; no listed node is ever marked colliding |
| NameServer.Instance.Remove | linux/src/daemon/NameServer_daemon.c:837-906 | the list and count after remove; the branches for colliding nodes are never taken |
| NameServer.Instance.RemoveEntry | linux/src/daemon/NameServer_daemon.c:909-931 | exactly the entry leaves the list, and the count drops by one |
| NameServer.Instance.GetLocal | linux/src/daemon/NameServer_daemon.c:1139-1213 | the value of the first node with the hash, its first len bytes or all of it; the branch for colliding nodes is never taken |
| RemoteGet.Get | linux/src/daemon/NameServer_daemon.c:1052-1115 | with no processor list: the local value, else the status and value of the first other processor whose answer ends the search, else not-found |
| RemoteLookup.InvKept | linux/src/daemon/NameServer_daemon.c:240-300 | every step of the lookup, the listener and the remote processors keeps at most one request, reply or wake-up under way, belonging to the processor being asked |
| RemoteLookup.OneUnderWay | linux/src/daemon/NameServer_daemon.c:946-1047 | in every run the requests out, replies in transit, reply being stored and pending wake-ups are one during a wait and none otherwise |
| RemoteLookup.EveryGetReturns | linux/src/daemon/NameServer_daemon.c:946-1115 | without new requests and lookups the steps are bounded in number, and where none is left no lookup is under way |
| RemoteLookup.GetReturnsFirst | linux/src/daemon/NameServer_daemon.c:1052-1115 | in every run, names coming and going between lookups, a get returns the value of the first processor holding the name (self, then ascending, skipping those without a socket), and not-found exactly when none does |
| RemoteLookup.NotStuck | linux/src/daemon/NameServer_daemon.c:946-1047 | a waiting lookup's answer is always on its way: the remote, the listener or the lookup itself can take a step |
| RemoteLookup.AnswerStep | linux/src/daemon/NameServer_daemon.c:240-285 | a response sent to another processor says found exactly when the own table has the name, with its value; each step answers at most the oldest request taken |
| RemoteLookup.RequestsAnsweredInOrder | linux/src/daemon/NameServer_daemon.c:240-285 | over every run each processor's requests are answered once, in the order made, but for those still waiting |
| MessageQTable.CreateKeeps | linux/src/daemon/MessageQ_daemon.c:294-354 | create keeps slots, ids and the name table in agreement, never uses slot 0, and gives the queue a key exactly when its name was new |
| MessageQTable.DeleteKeeps | linux/src/daemon/MessageQ_daemon.c:359-402 | delete keeps the agreement and takes exactly the queue's own name out of the table |
| MessageQTable.CreateDoes | linux/src/daemon/MessageQ_daemon.c:294-354 | creation puts one queue, without owner, in the lowest free slot, under its name if that is new, and leaves every other queue and name as it is |
| MessageQTable.DeleteDoes | linux/src/daemon/MessageQ_daemon.c:359-402 | deletion frees one slot and takes out its own name, and leaves every other queue and name as it is |
| MessageQTable.CleanupExact | linux/src/daemon/MessageQ_daemon.c:489-500 | cleanup removes exactly that process's queues and their names |
| MessageQTable.OwnedQueueGoes | linux/src/daemon/MessageQ_daemon.c:482-500 | a queue given an owner keeps it through any run that does not touch this queue, and the clean-up after that process frees its slot and takes out its name |
| MessageQTable.AllDeletedEmptiesTable | linux/src/daemon/MessageQ_daemon.c:236-280 | with every queue deleted the name table is empty |
| MessageQTable.RegistryTheorem | linux/src/daemon/MessageQ_daemon.c:294-402 | over every run the name table holds exactly the name and id pairs of the live queues that have a key, ids name their slots and are unique, slot 0 is never used, and a destroy leaves the name table empty |
| MessageQTable.CreateExact | linux/src/daemon/MessageQ_daemon.c:294-354 | a creation keeps slots, ids and names in agreement if and only if no other name present has the new name's hash |
| MessageQTable.GrownExact | linux/src/daemon/MessageQ_daemon.c:423-458 | the new table is the old one with the new entry if and only if the old table's byte size fits 16 bits; otherwise it has no slot for the new entry |
| MessageQTable.GrowthLosesAll | linux/src/daemon/MessageQ_daemon.c:428-438 | with 16384 handles of 4 bytes nothing is copied |
| MessageQTable.CreateAnyExact | linux/src/daemon/MessageQ_daemon.c:309-325 | creation fills the lowest hole or a new last slot if and only if there is a hole or the growth fits |
| MessageQTable.BytesRoundTrip | linux/src/daemon/NameServer_daemon.c:823-834 | the four bytes stored for a 32-bit id read back as the id |
| MessageQDaemon.Module.constructor | linux/src/daemon/MessageQ_daemon.c:192-231 | set-up makes an empty queue table of the configured size and an empty name table |
| MessageQDaemon.Module.FindHole | linux/src/daemon/MessageQ_daemon.c:309-320 | the search finds the lowest free slot from 1 on |
| MessageQDaemon.Module.Grow | linux/src/daemon/MessageQ_daemon.c:423-458 | the array after growth, for every size: what the truncated byte size lets be copied, and the new queue if there is a slot for it |
| MessageQDaemon.Module.Create | linux/src/daemon/MessageQ_daemon.c:294-354 | the queue array, its objects and the name table after create, for every name and size, are those of create on values, and in order if there is no clash and growth fits |
| MessageQDaemon.Module.SetQueueOwner | linux/src/daemon/MessageQ_daemon.c:482-487 | the queue has the owner given, its id and name stay, and no other queue changes |
| MessageQDaemon.Module.Delete | linux/src/daemon/MessageQ_daemon.c:359-402 | the low 16 bits of the id name the queue's own slot, which alone is cleared, and its name leaves the table |
| MessageQDaemon.Module.CleanupOwner | linux/src/daemon/MessageQ_daemon.c:489-500 | the loop over all queues does the cleanup on values |
| MessageQDaemon.Module.Destroy | linux/src/daemon/MessageQ_daemon.c:236-280 | the last destroy reaches the deletion of the name table with its count at 0; an earlier one only lowers the reference count |
| LadClients.Clients.AssignClientId | linux/src/daemon/lad.c:524-539 | the lowest open slot, or -1 when all 32 are taken |
| LadClients.Clients.BeginConnect | linux/src/daemon/lad.c:586-657 | the slot, the status and the FIFO file of a connect request up to opening its FIFO, for mismatched versions, full tables and an existing file too |
| LadClients.Clients.EndConnect | linux/src/daemon/lad.c:674-698 | a granted client's slot is taken with its pid and pipe; a refused client's FIFO file is removed |
| LadClients.Clients.DoDisconnect | linux/src/daemon/lad.c:730-742 | exactly that slot becomes open and its FIFO file goes |
| LadClients.Clients.CleanupDeparted | linux/src/daemon/lad.c:545-580 | exactly the slots of departed processes become open, their FIFO files go, and their pids are handed to the queue cleanup in slot order |
| LadInfo.ClientInfo.FindClient | linux/src/utils/LAD_client.c:89-104 | the first entry the process is connected through, or 32 |
| LadInfo.ClientInfo.SetUp | linux/src/utils/LAD_client.c:195-199 | exactly the assigned entry becomes connected and open |
| LadInfo.ClientInfo.Reset | linux/src/utils/LAD_client.c:283-284 | exactly that entry is no longer connected |
| LadSteps.BeginKeeps | linux/src/utils/LAD_client.c:149-154 | a connect, disconnect or call begun by the rule keeps the invariant |
| LadDaemon.Front | linux/src/daemon/lad.c:226-260 | the command at the head of the FIFO is the one its live sender is busy with, and the slot it names exists |
| LadDaemon.HandleKeeps | linux/src/daemon/lad.c:226-507 | taking any command keeps the invariant |
| LadDaemon.ConnectKeeps | linux/src/daemon/lad.c:586-659 | a connect request always finds its FIFO name free, so it is always answered |
| LadDaemon.GrantKeeps | linux/src/daemon/lad.c:674-691 | answering a granted connect request keeps the invariant |
| LadDaemon.RefusalKeeps | linux/src/daemon/lad.c:684-691 | answering a refused connect request, whose FIFO file is still there, keeps the invariant |
| LadDaemon.RefuseKeeps | linux/src/daemon/lad.c:693-698 | removing a refused client's FIFO afterwards keeps the invariant |
| LadDaemon.NoReopen | linux/src/utils/LAD_client.c:164-176 | by the rule, no client opens a FIFO that the daemon has open already |
| LadTheorems.StepKeeps | linux/src/utils/LAD_client.c:109-350 | every step of any thread, process or the daemon, beginnings being by the rule, keeps the invariant |
| LadTheorems.CallReturnsItsResult | linux/src/utils/LAD_client.c:292-350 | by the rule, a call that got as far as the mutex returns the result the daemon computed for that very command, executed for its own process, after exactly the commands and clean-ups before it |
| LadTheorems.NothingFails | linux/src/utils/LAD_client.c:109-287 | by the rule, a connect fails only for a wrong version or a full table, a disconnect never, and no code uses a file it has closed |
| LadTheorems.FifoOrder | linux/src/daemon/lad.c:226-507 | commands taken followed by the command FIFO are the commands written, in order, and for any services the daemon's state is that of the taken commands one after another, each after the clean-ups for its departed processes |
| LadTheorems.ServicesAsked | linux/src/daemon/lad.c:226-507 | what the daemon asks of its services in any run is, for each command taken, the clean-up after each departed process one by one and then the command |
| LadTheorems.BeginExact | linux/src/utils/LAD_client.c:109-350 | which calls, connects and disconnects are turned away before the mutex, and with which status: a connect exactly while the process has a slot or its request is being answered or refused |
| LadTheorems.OneOutstanding | linux/src/utils/LAD_client.c:292-350 | a process has at most one command or answer outstanding, and while it has one its mutex is held, a disconnect waiting for its FIFO to go excepted |
| LadTheorems.GateIsHeldByOne | linux/src/utils/LAD_client.c:318-350 | a thread has the mutex exactly between its lock and its unlock; every return is without it |
| LadTheorems.FifoFilesExact | linux/src/daemon/lad.c:586-742 | a response FIFO file exists exactly when one slot is connected under its name, or the daemon is answering its connect request or about to remove a refused client's; no two slots share a name |
| LadTheorems.LinkedHasSlot | linux/src/utils/LAD_client.c:182-216 | a connected process owns the slot, with its pipe, that its entry names, until it begins to leave; with no entry connected and no answer to be read it has no slot |
| LadTheorems.GrantExact | linux/src/daemon/lad.c:610-637 | a connection is granted exactly when versions agree and a slot is open, with the lowest open slot; a version mismatch has its own status |
| LadTheorems.ConnectToldTrue | linux/src/utils/LAD_client.c:182-216 | the answer to a connect request is true when it is read: on success the slot is the client's own, otherwise it has none |
| LadTheorems.DepartedCleaned | linux/src/daemon/lad.c:545-580 | before each command the services clean up after exactly the departed and still connected processes, once each and in slot order, and then execute the command; none of these processes keeps a slot or a FIFO file |
| LadProgress.WorkDrops | linux/src/utils/LAD_client.c:109-350 | every step that starts no call and ends no process lowers a measure |
| LadProgress.CanStep | linux/src/utils/LAD_client.c:109-350 | while some thread of a live process is inside a call, some such step is possible |
| LadProgress.EveryCallReturns | linux/src/utils/LAD_client.c:109-350 | by the rule, every started call returns: the steps are bounded in number, and at their end all threads are idle, the command FIFO is empty and the daemon waits |
| LadPaths.Drain | linux/src/utils/LAD_client.c:109-350 | from every state reached by the rule, everything under way but any threads held back at the mutex can come to its end |
| LadRule.BehindLeaver | linux/src/utils/LAD_client.c:227-287 | a call or disconnect begun while another thread is disconnecting can come to use a file that one has closed |
| LadRule.BeforeCaller | linux/src/utils/LAD_client.c:227-287 | a disconnect begun while another thread is between LAD_findHandle and the mutex can make that one use a closed file |
| LadRejoin.BesideLeaver | linux/src/utils/LAD_client.c:264-284 | a connect begun when a disconnecting thread's FIFO is gone but its entry not reset can make that thread wait forever |
| LadSecond.BesideJoiner | linux/src/utils/LAD_client.c:149-179 | a second connect past the stat before the first one's FIFO is there can hang, or fail, whether the first is granted or refused |
| LadExact.RuleSuffices | linux/src/utils/LAD_client.c:109-350 | by the rule nothing ever breaks |
| LadExact.RuleExact | linux/src/utils/LAD_client.c:109-350 | from every state reached by the rule, a beginning keeps it if and only if no run that follows without another beginning breaks anything |
| LadOverlap.ResultGoesAstray | linux/src/daemon/lad.c:448-500 | a run from the start in which one process's call returns another process's result |
| LadOverlap.SecondConnectHangs | linux/src/utils/LAD_client.c:149-182 | a run from the start in which the second of two connecting threads reads forever, with the mutex |
| RoundRobin.Receiver.Get | linux/src/api/MessageQ.c:592-681 | the message is taken from the first ready endpoint going around from the cursor, which then moves one past it, within as many probes as there are processors; timeouts and unblocking leave the cursor alone |
| RoundRobin.ServingApproaches | linux/src/api/MessageQ.c:646-672 | serving another endpoint moves the cursor past at least one endpoint on the way to a waiting one |
| RoundRobin.BoundedBypass | linux/src/api/MessageQ.c:592-681 | an endpoint ready at every call that fetches is served within nProcessors - 1 such calls |
| RoundRobin.BypassBoundReached | linux/src/api/MessageQ.c:646-672 | the bound is exact: nProcessors - 2 fetching calls can pass a ready endpoint |
| TraceLines.SplitJoins | packages/ti/trace/SysMin.c:170-232 | the whole lines and the rest of any character stream make up the stream; a line ends at its first newline or at 256 characters |
| TraceLines.SplitUnique | packages/ti/trace/SysMin.c:170-232 | that is the only such splitting |
| SysMin.Log.Output | packages/ti/trace/SysMin.c:105-112 | one character goes out; the circular buffer holds the last of the output, the index at its length modulo the size |
| SysMin.Log.OutputStamp | packages/ti/trace/SysMin.c:191-208 | the characters output are a bracketed stamp that shows the elapsed time, in the digits and the layout below |
| SysMin.Log.EndLine | packages/ti/trace/SysMin.c:223-232 | at a newline or a full line buffer the line goes out whole, and otherwise nothing does |
| SysMin.Log.Putch | packages/ti/trace/SysMin.c:119-240 | each character is put once; exactly before the first character of a line a stamp goes out that shows the elapsed time of this call, as below; without a buffer nothing happens; all lines and the ring stay as below |
| SysMin.LogHolds | packages/ti/trace/SysMin.c:105-240 | whatever was put, the bodies of the lines copied out and the line buffer are the characters put, the line index is below 256, and the ring holds exactly the last of the stamped output |
| TimeStamp.Configure | packages/ti/trace/SysMin.c:147-162 | the loop finds the number of trailing decimal zeros of the tick period, at most 6, and the range of places to print |
| TimeStamp.FieldAt | packages/ti/trace/SysMin.c:192-194 | each place of the 17-wide field shows its decimal digit, or a blank before the first digit |
| TimeStamp.ReadBody | packages/ti/trace/SysMin.c:195-205 | the printed places read as a number are those digits of the elapsed time |
| TimeStamp.StampShows | packages/ti/trace/SysMin.c:191-208 | for every elapsed time and tick period the stamp shows the next ten digits above the i that the tick period leaves zero, in the layout below, blank exactly where the time has no digit yet |
| TimeStamp.StampExact | packages/ti/trace/SysMin.c:191-208 | the digits of such a stamp, times 10^i, are the elapsed microseconds if and only if those are below 10^(10 + i) |
| TimeStamp.StampWrong | packages/ti/trace/SysMin.c:191-208 | after 2 000 000 000 ticks of 5 microseconds, which the tick counter can reach, every such stamp shows zero |
| TimeStamp.StampLayout | packages/ti/trace/SysMin.c:195-205 | the stamp is bracketed, with a space behind; the decimal point stands 6 - i digits from the right, and is left out for i = 6; blanks only lead, and the last digit of the seconds is always printed |

## Left out

RCM server:

- Packets are distinct objects, as in the MessageQ build; the RPMessage build cannot put its packets on job queues.
- Every pool id has bit 15 set; for others `RcmServer_getPool_P` leaves its result unset.
- A packet the server thread processes itself, because the default pool has no threads, carries no job id.
- A released job id is not issued again while a message with that id is in flight.
- Semaphore posts and allocations succeed; message functions are terminating actions with any of the results the code distinguishes.
- Finalize goes past the join of the server thread with no job-stream message in flight, and no request to acquire or release a job either: the code deletes the job list before it joins the workers.
- RcmProgress.StuckMeansDone: asks that acquisitions under way do not meet an id still in flight, as above, and that each pool has a worker.
- The status of a DPC reply after a failed lookup, unanswered symbol additions, unknown message types, logging and thread priorities.
- RcmFxnTabs.FxnTabs.FxnAddr: a forged index whose offset is beyond its table, where the code reads past the table's end; and the caller's function pointer at offset 0, which is not written.

NameServer and MessageQ daemon:

- NameServer.Instance.RemoveEntry: an entry hung aside for a clashing name, which was never linked into the list it would be unlinked from.
- Characters enter the hash as unsigned, as on targets where `char` is; with signed characters other names clash.
- Lookups with an explicit processor list, send failures, timeouts and the late replies after them.
- Several NameServer instances, their creation and reference counts; an instance is one table.
- RemoteLookup.GetReturnsFirst: no table changes while a lookup is under way; between lookups any does.
- MessageQTable.CreateKeeps: a name whose hash another present name has is excluded; CreateExact says what happens then.
- MessageQDaemon.Module.Create: after a clash, or growth that does not fit, the array and the name table are given but no longer in order, and operations on such a module are not modelled; a byte size that does not fit is cut to whole handles, as it is for 4 and 8 bytes.
- MessageQDaemon.Module.Delete: of a live queue only; a queue deleted twice is not caught by the code either.

LAD:

- Process ids are not used again.
- A signal handler that calls in on top of a call of its own thread: the mutex is recursive (`linux/src/utils/LAD_client.c:69-74`), so the handler's command would take the interrupted call's answer.
- After code has used a closed file C defines nothing; what the model does from there has no meaning.
- A process does not die with a command of its own still with the daemon.
- Timeouts, failures of FIFO system calls, FIFO files of an earlier session, unrecognised commands and the exit command.
- What the NameServer and MessageQ commands compute is a parameter; arguments and results are values.
- A daemon writing to a FIFO whose reader is gone is not stopped by a signal.

MessageQ_get and SysMin:

- A failing `select`, and queues sharing the cursor: one queue per process.
- The variant of SysMin for several cores, and interrupt control.
- SysMin.Log.Putch: elapsed times of more than 17 digits, which overflow the code's time stamp buffer.
- SysMin.Log.OutputStamp: the same.

Sockets, FIFOs, semaphores and events are channels, counters and sets. Multi-processor set-up, shared-memory
heaps, service management, power management, remote function marshalling and the front ends for other systems are
not part of this model.
