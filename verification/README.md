# The redirector's data structures and protocols

The repository is a macOS kernel extension that redirects the files of chosen applications to a protected directory. This
project models what the extension itself decides, apart from the kernel calls around it, and proves properties of that model.

* **Hash table** (`Arithmetic`, `Sequences`, `HashModel`, `EntryLists`, `TableFacts`, `HashTable`, `HashRuns`, `HashCache`,
  `TableRuns`, `HashIteration`). `HashTable.Table` is the linked structure itself: an array of bucket chains, bucket counters, and
  an age list through the same entries, all updated in place. Each method is proved against a function of `HashModel` on plain
  sequences and maps, by the predicate `Represents`. `HashRuns` and `HashCache` prove what whole runs of those functions guarantee:
  a finite map with an insertion order, a least-recently-used cache per bounded bucket. `TableRuns` carries this over to runs of
  the methods on the linked table, and `HashIteration` has a whole iteration over it with removals between the steps.
* **CRC** (`Crc`). The table-driven loop against long division one bit at a time, by linearity and by evaluating nine entries.
* **Hooking of vnode operation vectors** (`VopVector`, `HookProtocol`, `HookSafety`, `HookSlots`, `HookCounting`, `HookTally`,
  `HookCalls`, `HookOverlap`). `VopVector` has the two loops over a vector in memory. `HookProtocol` interleaves any number of
  threads in `QvrGetOriginalVnodeOp`, `QvrHookVnodeVop` and `QvrUnHookVnodeVop`, one shared access at a time: each place in the
  code has a constructor, and `GetMove`, `HookMove` and `UnhookMove` say where it leads and what it does. `HookTally` has the exact
  meaning of a vector's vnode counter, told by the calls of the run, and `HookCalls` what every call comes to. The vnode counter of
  a vector covers its recorded vnodes until a thread forgets a vnode that is not recorded, counts down an entry that has left the
  table, or takes out an entry whose counter is not zero: `CountsKeptIffFits` says that these steps, and no others, break it. The
  source expects a second thread to be about to take out the same vector, and to find no entry then. That alone breaks nothing, but
  if the vector is hooked again in between, the second thread takes out the new entry: from every state with such a pair of
  threads, `OverlapUnhooks` gives a continuation in which a recorded vnode is left unhooked.
* **Requests to the daemon** (`ReplyProtocol`, `ReplySafety`, `ReplyResults`, `ReplyAnswers`, `ReplyProgress`). Any number of
  calling threads, one queue, and the daemon with its reply, one shared access at a time. `WaitingList::signal` wakes the thread
  before it takes the key out of the list, and the woken thread needs no lock to go on. If it returns and calls again from the same
  stack frame in that moment, its new entry is taken out with the old one and it does not wait. The promise that every caller gets
  the answer to its own message holds exactly when no caller enters the list under an address still in it. It also needs the queue
  to take the message: a caller whose message is refused never returns; all the others can. `ReplyAnswers` tells what each caller
  is answered from the steps of the run alone: what it asked, and which of its allocations failed.
* **Client registration** (`ClientRegistration`, `ClientAnswers`). The compare-and-swap slot, the pending flag and the count of
  calls: what every step keeps, and what getting, registering and unregistering the client answer.
* **Vnode hooks** (`VnodeMaps`, `VnodeOutcomes`, `VnodeHooks`). The maps that own references, and the hooks that look up, create,
  rename and reclaim vnodes. What the file system, the allocator and the daemon answer is given to a hook; what other threads do
  between any two steps is arbitrary (`Vnodes.Others`). A hook's contract says which vnode and error it gives for these answers, by
  the functions of `VnodeOutcomes`, about which it is then proved whom a controlled file is given to; and that `mine`, the multiset
  of references the thread holds, changes by exactly what the hook returns. What a hook does to the maps is stated for the case
  that the thread is `alone`; a ghost result `backed` tells whether the shadow turned out to be backed in the others.
* **Paths** (`Paths`) and **page-wise copying** (`PhysicalCopy`). Buffers with in-place shifts and chunked copies, against
  functions on strings and a bytewise copy.
* **Maps on circular lists** (`RingLists`, `DataMaps`). The intrusive list operations, the map on them, what any run of calls on it
  answers, and the recursion flag.

`Options` holds the option type that stands for the source's NULL results.

## Model

| member | source | states |
|---|---|---|
| HashTable.TableSize | VFSFilter0/VFSFilter0/CommonHashTable.cpp:400-407 | the sizing loop ends with the least power of two at or above the request, and the mask is one less (requests up to 2^30) |
| HashModel.SizeForIsLeastPower | VFSFilter0/VFSFilter0/CommonHashTable.cpp:400-407 | the size of a table is a power of two, and no smaller power of two is large enough |
| Arithmetic.MaskIsModulus | VFSFilter0/VFSFilter0/CommonHashTable.cpp:407 | a hash masked by a power of two less one is the hash modulo that power |
| HashModel.BucketIsModulus | VFSFilter0/VFSFilter0/CommonHashTable.cpp:536 | the bucket of a key is its hash modulo the table size |
| Arithmetic.MaskSplits | VFSFilter0/VFSFilter0/CommonHashTable.cpp:549-554 | one more mask bit sends a hash to its old bucket or to the one a table size further on |
| HashTable.Table.Create | VFSFilter0/VFSFilter0/CommonHashTable.cpp:380-454 | creation gives that table, or nothing exactly when an allocation fails |
| HashTable.Table.constructor | VFSFilter0/VFSFilter0/CommonHashTable.cpp:380-454 | the table that is filled in when memory suffices stands for the empty one of the least sufficient size, in both its linked structures, its counters and its settings |
| EntryLists.LinkToFront | VFSFilter0/VFSFilter0/CommonHashTable.cpp:87-114 | moving an entry to the front rewrites the next and prev links into the same chain with that entry first, in every position |
| EntryLists.LinkUp | VFSFilter0/VFSFilter0/CommonHashTable.cpp:45-82 | transposing exchanges an entry with the one before it, at the front and elsewhere, and leaves a well-linked chain |
| TableFacts.SearchChain | VFSFilter0/VFSFilter0/CommonHashTable.cpp:157-208 | the search finds the entry of a key if it is on the chain, and then applies exactly the heuristic asked for; a miss leaves the chain alone |
| HashTable.Table.SearchInBucket | VFSFilter0/VFSFilter0/CommonHashTable.cpp:157-208 | the whole table afterwards stands for the one with that chain rearranged; without a heuristic no link is written at all |
| HashTable.Table.RemoveFromChain | VFSFilter0/VFSFilter0/CommonHashTable.cpp:118-149 | an entry leaves its chain and the age list together; both stay doubly linked and the heads, the oldest and the newest are right |
| HashTable.Table.Get | VFSFilter0/VFSFilter0/CommonHashTable.cpp:615-640 | answers with the stored datum or nothing; only the chain of the key is rearranged, and without a heuristic no link changes, which readers under a shared lock rely on |
| HashTable.Table.Replace | VFSFilter0/VFSFilter0/CommonHashTable.cpp:645-674 | stores a new datum under a present key, answers with the old one, and touches the chain as a lookup does |
| HashTable.Table.Remove | VFSFilter0/VFSFilter0/CommonHashTable.cpp:680-720 | the key leaves the map, its chain, the age list, the bucket counter and the item count; the answer is its datum |
| HashTable.Table.Insert | VFSFilter0/VFSFilter0/CommonHashTable.cpp:521-610 | already present, out of memory, or inserted, each exactly when; growth, with whatever entries it loses, eviction and both lists come out as specified, and the evicted pair is reported |
| HashTable.Table.PlaceInFull | VFSFilter0/VFSFilter0/CommonHashTable.cpp:566-594 | in a full bounded bucket the last entry of the chain leaves both lists as the new one enters them |
| HashTable.Table.Rehash | VFSFilter0/VFSFilter0/CommonHashTable.cpp:849-916 | the table built anew holds, under the new size, the entries that found memory, inserted oldest first |
| HashTable.Table.Rebuilt | VFSFilter0/VFSFilter0/CommonHashTable.cpp:873-887 | after i steps of the copying loop the temporary table holds those of the i oldest entries that found memory, in order |
| HashTable.Table.TakeOver | VFSFilter0/VFSFilter0/CommonHashTable.cpp:902-911 | buckets, lists and counters pass to the old table, its settings stay |
| HashTable.Table.First | VFSFilter0/VFSFilter0/CommonHashTable.cpp:724-747 | an iteration starts at the oldest entry, with the next newer one saved |
| HashTable.Table.Next | VFSFilter0/VFSFilter0/CommonHashTable.cpp:766-792 | an iteration step goes to the saved entry and saves the one after it |
| HashTable.Table.RemovalKeepsPlace | VFSFilter0/VFSFilter0/CommonHashTable.h:444-449 | the entry an iteration has saved keeps its place when any other entry is removed, behind it or ahead; if it is the one removed, the iteration is left with an entry of no key |
| HashModel.InsertWellFormed | VFSFilter0/VFSFilter0/CommonHashTable.cpp:521-610 | inserting keeps keys unique and in their buckets, chain and age list in agreement, also when it rehashes and memory runs out; growth adds nothing, and with memory keeps map and order |
| HashModel.RemoveWellFormed | VFSFilter0/VFSFilter0/CommonHashTable.cpp:680-720 | removing keeps the same invariants |
| HashModel.TouchWellFormed | VFSFilter0/VFSFilter0/CommonHashTable.cpp:45-114 | a lookup's rearrangement keeps them |
| HashModel.ReplaceWellFormed | VFSFilter0/VFSFilter0/CommonHashTable.cpp:645-674 | replacing keeps them |
| HashModel.PlaceEvicts | VFSFilter0/VFSFilter0/CommonHashTable.cpp:566-594 | entering a full bucket is removing the last entry of its chain, which is not the new one, and then entering |
| HashModel.RehashKeepsContents | VFSFilter0/VFSFilter0/CommonHashTable.cpp:849-916 | rehashing keeps the map and the oldest-to-newest order exactly but for the keys whose entries found no memory, and otherwise only size, mask and chains change |
| HashRuns.ApplyKeeps | VFSFilter0/VFSFilter0/CommonHashTable.cpp:521-720 | every operation keeps the structure and the relation of mask, size and hash |
| HashRuns.RunsAsDictionary | VFSFilter0/VFSFilter0/CommonHashTable.cpp:521-916 | every run on an unbounded table answers as a finite map with an insertion order, whatever the hash, heuristics and rehashes; only a rehash that runs out of memory takes keys out of it, and exactly those |
| HashRuns.NewTableIsDictionary | VFSFilter0/VFSFilter0/CommonHashTable.cpp:380-454 | so does every run from a new table |
| HashRuns.LookupOnlyPermutes | VFSFilter0/VFSFilter0/CommonHashTable.cpp:615-640 | a lookup permutes one chain and changes nothing else; without a heuristic it changes nothing |
| HashRuns.LookupRearranges | VFSFilter0/VFSFilter0/CommonHashTable.cpp:45-114 | a lookup that finds its key moves it up by one place, to the front or nowhere, as the table's heuristic says, and the others keep their order |
| HashRuns.InsertedWhereHashed | VFSFilter0/VFSFilter0/CommonHashTable.cpp:549-564 | a new key is first in the bucket its hash selects under the mask then in force, also when its insertion rehashed |
| HashCache.BoundedTableIsLru | VFSFilter0/VFSFilter0/CommonHashTable.cpp:566-594 | a bounded table with move-to-front and no rehash answers, and evicts, as a per-bucket cache that drops the key least recently inserted, fetched or replaced |
| HashCache.NewBoundedTableIsLru | VFSFilter0/VFSFilter0/CommonHashTable.cpp:491-500 | so does one made bounded when new |
| HashCache.DoublingSplits | VFSFilter0/VFSFilter0/CommonHashTable.cpp:549-564 | the keys of a bucket of the doubled table come from one bucket of the old |
| HashCache.GrowthRespectsLimit | VFSFilter0/VFSFilter0/CommonHashTable.cpp:549-594 | with a limit set on the empty table, no run with automatic rehashing overfills a bucket |
| TableRuns.Perform | VFSFilter0/VFSFilter0/CommonHashTable.cpp:521-916 | each operation on the linked table answers, reports evictions and leaves the table as the model's operation does |
| TableRuns.RunOps | VFSFilter0/VFSFilter0/CommonHashTable.cpp:521-916 | so does any run of operations, rehashes and evictions included |
| TableRuns.ShortRunsAreSized | VFSFilter0/VFSFilter0/CommonHashTable.cpp:549-554 | no run of at most 2^30 operations asks for too many buckets by itself |
| TableRuns.RunAsDictionary | VFSFilter0/VFSFilter0/CommonHashTable.cpp:380-916 | a new linked table answers any such run as a finite map with an insertion order, and ends up holding that map in that order |
| TableRuns.RunAsCache | VFSFilter0/VFSFilter0/CommonHashTable.cpp:521-720 | a new linked table with bounded buckets and move-to-front answers any such run, and reports its evictions, as a least-recently-used cache per bucket |
| HashIteration.Iterate | VFSFilter0/VFSFilter0/CommonHashTable.cpp:724-792 | an iteration over the linked table, with look-ups, replacements and removals of any entry but the saved next one between its steps, visits what these leave to visit, and the table ends as they alone leave it |
| HashIteration.IterateRemoving | VFSFilter0/VFSFilter0/CommonHashTable.h:444-449 | if it removes only the current entry and ones already visited, it visits every entry there was, once and oldest first |
| HashIteration.VisitsInOrder | VFSFilter0/VFSFilter0/CommonHashTable.h:444-449 | no entry is visited twice, the order is by age, and every entry that is not removed is visited |
| HashIteration.VisitsAllOnce | VFSFilter0/VFSFilter0/CommonHashTable.h:444-449 | removals of visited entries never take the saved next one and leave all others to be visited |
| Crc.CrcHash | VFSFilter0/VFSFilter0/CommonHashTable.cpp:992-1005 | the table-driven loop computes bit-at-a-time division by 0x04C11DB7, most significant bit first, preset and complemented (section 3.2.9 of IEEE 802.3), for every byte string |
| Crc.TableStepDivides | VFSFilter0/VFSFilter0/CommonHashTable.cpp:1002-1003 | one table step divides eight message bits |
| Crc.Shift8IsLinear | VFSFilter0/VFSFilter0/CommonHashTable.cpp:1002-1003 | shifting the register by eight is linear |
| Crc.Shift8TakesByteIn | VFSFilter0/VFSFilter0/CommonHashTable.cpp:1002-1003 | a byte added at the top of the register and shifted through divides its bits |
| Crc.TableEntry | VFSFilter0/VFSFilter0/CommonHashTable.cpp:920-954 | each of the 256 entries is its index shifted through the register |
| VopVector.HooksAreDescribed | VFSFilter0/VFSFilter0/VNodeHook.cpp:43-83 | every hooked operation has its descriptors, none is hooked twice, and none is the strategy operation that the loop would skip |
| VopVector.FindDescriptor | VFSFilter0/VFSFilter0/VNodeHook.cpp:90-105 | a descriptor search finds the first descriptor of an operation, or tells that there is none |
| VopVector.HookVector | VFSFilter0/VFSFilter0/VNodeHook.cpp:376-463 | the patching loop saves each hooked slot's function, puts the hook there and touches no other slot |
| VopVector.UnhookVector | VFSFilter0/VFSFilter0/VNodeHook.cpp:578-628 | the restoring loop puts every saved function back and touches no other slot |
| VopVector.HookThenUnhook | VFSFilter0/VFSFilter0/VNodeHook.cpp:331-634 | hooking and then unhooking a vector is the identity on it |
| HookSafety.LockStep | VFSFilter0/VFSFilter0/VNodeHook.h:297-345 | readers and the writer of the table lock are exactly the threads in locked sections, and exclude each other, after every step |
| HookSafety.RefsStep | VFSFilter0/VFSFilter0/VNodeHook.cpp:824-905 | an entry's retain count is the number of threads that hold it plus one while the table does, after every step |
| HookSlots.SafeStep | VFSFilter0/VFSFilter0/VNodeHook.cpp:127-641 | any step of any thread in looking up, hooking or unhooking keeps lock, counts, slots, saved functions and what each thread relies on |
| HookSlots.RunsAreSafe | VFSFilter0/VFSFilter0/VNodeHook.cpp:127-641 | so every state of every run of any number of threads is safe |
| HookSlots.SlotsOfFreeLock | VFSFilter0/VFSFilter0/VNodeHook.cpp:331-469 | whenever the exclusive lock is free, a slot holds the hook exactly if its operation is hooked and its vector is in the table, whose entry then keeps the file system's own function; otherwise the slot holds that function |
| HookSlots.UnhookingRestores | VFSFilter0/VFSFilter0/VNodeHook.cpp:544-634 | a vector hooked and fully unhooked again is as it was at the start |
| HookSlots.OriginalIsNative | VFSFilter0/VFSFilter0/VNodeHook.cpp:127-223 | the look-up of an original function never gives a hook, also when the entry vanishes between its two searches |
| HookSlots.UsedEntriesLive | VFSFilter0/VFSFilter0/VNodeHook.cpp:824-905 | no thread uses a freed entry, and the table never points to one |
| HookCounting.CountsKeptIffFits | VFSFilter0/VFSFilter0/VNodeHook.cpp:533-568 | a step of any thread leaves the counters right if and only if a vnode being forgotten is recorded (or the counter has one to spare), an entry being counted down is in the table, and the counter of an entry being taken out is zero |
| HookCounting.CountsKeptIffStepsFit | VFSFilter0/VFSFilter0/VNodeHook.cpp:533-568 | in every run the counters stay right exactly as long as every step is such |
| HookCounting.RecordedStaysHooked | VFSFilter0/VFSFilter0/VNodeHook.cpp:473-570 | as long as they do, the vector of a recorded vnode stays hooked, its counter at least the number of its recorded vnodes |
| HookCounting.CountersAreSound | VFSFilter0/VFSFilter0/VNodeHook.h:199-219 | and counters are never negative, and zero for every entry that is outside the table or freed (what they count is `HookTally.CounterOfEntry`) |
| HookCounting.CalmRunsFit | VFSFilter0/VFSFilter0/VNodeHook.cpp:525-568 | while no two threads unhook the same vnode or wait to take out the same vector, every step is such |
| HookCounting.CalmRunsAreCounted | VFSFilter0/VFSFilter0/VNodeHook.h:199-219 | and each thread finds in the table the entry it counts on |
| HookCounting.UnhookFindsEntry | VFSFilter0/VFSFilter0/VNodeHook.cpp:518-568 | then unhooking a recorded vnode finds the vector's entry, and takes it out only with its counter at zero |
| HookTally.CounterOfEntry | VFSFilter0/VFSFilter0/VNodeHook.cpp:289-468 | in every run, the counter of an entry in the table is the number of hook calls on its vector that have got past their count since it entered the table, less the number of unhook calls with that entry that have got past their count-down; both are told by where the calls are, not by their effect on the counter |
| HookTally.CounterIsTally | VFSFilter0/VFSFilter0/VNodeHook.cpp:289-570 | between any two states, the counter changes by just that difference |
| HookTally.StaysUntilCountedDown | VFSFilter0/VFSFilter0/VNodeHook.cpp:533-568 | as long as every step fits, a vector with counter k stays in the table until k more unhook calls have counted it down |
| HookTally.ToldHookedStaysHooked | VFSFilter0/VFSFilter0/VNodeHook.cpp:289-316 | a hook call that tells its caller the vector is hooked leaves it hooked until as many unhook calls have counted it down as had hooked it |
| HookCalls.HookCallEnds | VFSFilter0/VFSFilter0/VNodeHook.cpp:253-469 | a hook call counts its vector up exactly if the vnode is regular and nothing fails, and records the vnode exactly if also the vector was missing when first looked for and there is memory for the record |
| HookCalls.CallsBegin | VFSFilter0/VFSFilter0/VNodeHook.cpp:127-508 | an idle thread's step begins the call it makes and changes nothing shared |
| HookCalls.CallsKeepVnode | VFSFilter0/VFSFilter0/VNodeHook.cpp:253-641 | a call of hooking or unhooking keeps to its vnode until it ends |
| HookCalls.RecordedByCalls | VFSFilter0/VFSFilter0/VNodeHook.cpp:473-528 | a vnode is recorded only by a hook call on it that ends, and taken out only by an unhook call on it that goes on to count down |
| HookCalls.UnhookCallsCount | VFSFilter0/VFSFilter0/VNodeHook.cpp:500-528 | an unhook call ends without counting down only for an irregular or unrecorded vnode, or when its vector is not in the table |
| HookCalls.LookUpAnswers | VFSFilter0/VFSFilter0/VNodeHook.cpp:127-223 | a look-up keeps to its vnode and operation, ends with the file system's own function for them, and asks for the lock again only if the vector was missing |
| HookCalls.LocksExclusively | VFSFilter0/VFSFilter0/VNodeHook.cpp:318-331 | the lock is asked for exclusively only by a hook call that missed its vector and an unhook call that counted it down to zero |
| HookCalls.HeldUpByLock | VFSFilter0/VFSFilter0/VNodeHook.h:297-345 | in every run a thread is held up only by the lock: for sharing exactly while another owns it, for owning exactly while others share or own it |
| HookCalls.NotStuck | VFSFilter0/VFSFilter0/VNodeHook.cpp:127-641 | while a call is under way, some thread in a call can move: there is no deadlock |
| HookCalls.CallsEnd | VFSFilter0/VFSFilter0/VNodeHook.cpp:127-641 | no call takes more than fifty steps of its own |
| HookOverlap.OverlapUnhooks | VFSFilter0/VFSFilter0/VNodeHook.cpp:544-568 | from every safe state with right counters in which a thread takes out a vector that another waits to take out, steps of these two lead to a recorded vnode whose vector is not hooked |
| HookOverlap.RecordedVnodeUnhooked | VFSFilter0/VFSFilter0/VNodeHook.cpp:537-568 | two threads and two vnodes get there from the start |
| ReplySafety.SafeMove | VFSFilter0/VFSFilter0/VFSFilter0UserClient.cpp:163-291 | any step of a calling thread keeps the protocol's invariant, provided it does not enter the waiting list under an address still in it |
| ReplySafety.SafeDaemonMove | VFSFilter0Client/VFSFilterClient/main.cpp:91-171 | any step of the daemon and of the reply it makes keeps the invariant |
| ReplySafety.ClearRunsAreSafe | VFSFilter0/VFSFilter0/WaitingList.h:35-77 | so every state of every such run of any number of threads satisfies it |
| ReplyResults.BlockedIsAwaited | VFSFilter0/VFSFilter0/WaitingList.h:40-77 | a blocked caller is in the waiting list, and exactly one message of its call is queued, at the daemon or in a reply that has not signalled, unless the queue refused its message, and then none is |
| ReplyResults.NobodyBlockedWhenQuiet | VFSFilter0/VFSFilter0/WaitingList.h:40-77 | with no message on its way and none refused, nobody is blocked |
| ReplyResults.WritesToLiveOwner | VFSFilter0/VFSFilter0/VFSFilter0UserClient.cpp:336-358 | when the reply writes, its target is still inside the call the message belongs to |
| ReplyResults.ReturnsOwnAnswer | VFSFilter0/VFSFilter0/VFSFilter0UserClient.cpp:232-290 | a caller that returns has the daemon's answer to its own message; one that sent none, or is not in the map of those registered for an answer, has the answer no (when it is in the map is `ReplyAnswers.CallsAreAnswered`) |
| ReplyAnswers.CallsAreAnswered | VFSFilter0/VFSFilter0/VFSFilter0UserClient.cpp:232-290 | in every clear run, a call whose message was sent and taken returns yes if and only if it asked for a decision, had memory at the step that registers it for the answer, and the daemon answered yes to its own message; all but the answer is read off the steps |
| ReplyAnswers.WritesToRegistered | VFSFilter0/VFSFilter0/VFSFilter0UserClient.cpp:336-358 | when the reply has looked a message up, it is going to write to the message's owner, exactly if that call asked for a decision and had memory to register |
| ReplyAnswers.GotInOrder | VFSFilter0/VFSFilter0/VFSFilter0UserClient.cpp:720-735 | nothing is lost or overtaken: what the daemon has got, followed by what is queued, is all that calls and audits gave to the queue, in its order |
| ReplyResults.SafeIffClear | VFSFilter0/VFSFilter0/WaitingList.h:62-77 | a step of a caller keeps the invariant if and only if it does not enter the list under an address still in it |
| ReplyResults.UnclearReturnsEarly | VFSFilter0/VFSFilter0/WaitingList.h:62-77 | a caller that does so can return while its message is still in the queue |
| ReplyResults.SecondCallReturnsEarly | VFSFilter0/VFSFilter0/WaitingList.h:62-77 | one thread that calls twice from the same stack frame reaches such a state, because the wake-up comes before the removal |
| ReplyProgress.RefusedNeverReturns | VFSFilter0/VFSFilter0/VFSFilter0UserClient.cpp:724-730 | a caller whose message the queue refused never returns |
| ReplyProgress.StepsDecrease | VFSFilter0/VFSFilter0/VFSFilter0UserClient.cpp:163-373 | every step other than a new call or audit record brings the end of all calls nearer |
| ReplyProgress.NotStuck | VFSFilter0/VFSFilter0/WaitingList.h:40-77 | while a call whose message was not refused is under way, some thread or the daemon can move: no wake-up is lost |
| ReplyProgress.StopsOnlyAtRest | VFSFilter0/VFSFilter0/WaitingList.h:40-77 | nothing can happen without a new call exactly when every caller has returned but those whose message was refused, who are blocked |
| ReplyProgress.Drains | VFSFilter0/VFSFilter0/VFSFilter0UserClient.cpp:163-373 | from every safe state all calls whose message was not refused can return, within a bounded number of steps and with no further refusal |
| ClientRegistration.SafeMove | VFSFilter0/VFSFilter0/VFSFilter0.cpp:153-280 | any step of any thread in registering, unregistering, getting or putting the client keeps the invariant |
| ClientRegistration.RunsAreSafe | VFSFilter0/VFSFilter0/VFSFilter0.cpp:153-280 | so every state of every run with each client registered once satisfies it |
| ClientRegistration.CallsAreCounted | VFSFilter0/VFSFilter0/VFSFilter0.cpp:226-280 | the count of invocations is the number of threads between their increment and their decrement (when a call gives the client is `ClientAnswers.GetAnswers`) |
| ClientRegistration.UsedIsNotReleased | VFSFilter0/VFSFilter0/VFSFilter0.cpp:174-191 | a client that was got and not yet put back has not been released |
| ClientRegistration.ReleasedOnce | VFSFilter0/VFSFilter0/VFSFilter0.cpp:189-219 | a client is retained and released at most once each, and released only after it has left the slot for good |
| ClientAnswers.GetAnswers | VFSFilter0/VFSFilter0/VFSFilter0.cpp:226-265 | a call through which a client stays registered with nobody unregistering gives it; one that gives none saw an empty slot, a set flag or a changed slot at some state of its own; one that gives a client saw it in the slot |
| ClientAnswers.GetChecks | VFSFilter0/VFSFilter0/VFSFilter0.cpp:237-262 | a call counts itself only if it saw a client in the slot and the flag not set, and gives a client only if it saw it there twice and the slot not empty a third time |
| ClientAnswers.RegisterAnswers | VFSFilter0/VFSFilter0/VFSFilter0.cpp:199-219 | registering puts the client into the empty slot and retains it, unless an unregistration was pending or another client registered at some state of the call; and not if one was pending throughout |
| ClientAnswers.UnregisterAnswers | VFSFilter0/VFSFilter0/VFSFilter0.cpp:153-195 | unregistering has released its client by its end, unless it found the slot without it |
| ClientAnswers.UnregisterChecks | VFSFilter0/VFSFilter0/VFSFilter0.cpp:158-166 | unregistering sets the flag only if it saw its client in the slot |
| ClientAnswers.PendingIsOwned | VFSFilter0/VFSFilter0/VFSFilter0.cpp:168-192 | the flag is set only while some thread is unregistering |
| ClientAnswers.FlagStaysSet | VFSFilter0/VFSFilter0/VFSFilter0.cpp:168-192 | the flag set by a thread stays set until the thread clears it, while no other thread clears it |
| ClientAnswers.CallsEnd | VFSFilter0/VFSFilter0/VFSFilter0.cpp:153-280 | no call takes more than eight steps of its own, but that unregistering waits while calls are in flight |
| VnodeMaps.Vnodes.SwapShadow | VFSFilter0/VFSFilter0/VNode.h:67-96 | adding a shadow entry keeps references equal to map entries and holders, also when an entry is overwritten and when the insertion then fails |
| VnodeMaps.Vnodes.TakeShadow | VFSFilter0/VFSFilter0/VNode.h:98-115 | a removed shadow entry hands over its reference |
| VnodeMaps.Vnodes.RefShadow | VFSFilter0/VFSFilter0/VNode.h:117-131 | a look-up of a shadow entry takes one reference |
| VnodeMaps.Vnodes.AddBacking | VFSFilter0/VFSFilter0/VNode.h:150-166 | a backing entry is added, with its reference, only for a key without one |
| VnodeMaps.Vnodes.TakeBacking | VFSFilter0/VFSFilter0/VNode.h:168-185 | a removed backing entry hands over its reference |
| VnodeMaps.Vnodes.RefBacking | VFSFilter0/VFSFilter0/VNode.h:187-201 | a look-up of a backing entry takes one reference |
| VnodeMaps.Vnodes.ReleaseAllBacking | VFSFilter0/VFSFilter0/VNode.h:203-218 | the loop ends with an empty map, the thread's references as before and every reference left owned by the other map or a thread, whatever other threads do between its locked sections but add to the map |
| VnodeMaps.Vnodes.ReleaseAllShadow | VFSFilter0/VFSFilter0/VNode.h:133-148 | the same for the shadow map |
| VnodeMaps.EntryAdded | VFSFilter0/VFSFilter0/VNode.h:150-166 | one more entry is one more reference for its vnode and none for others |
| VnodeHooks.GetBackingVnode | VFSFilter0/VFSFilter0/VFSHooks.cpp:290-393 | on every exit the thread holds exactly one more reference per returned backing vnode; with no other thread about, the one recorded comes back if there is one, else the one found, which is then recorded if memory allows |
| VnodeHooks.OpenShadow | VFSFilter0/VFSFilter0/VFSHooks.cpp:600-727 | the vnode found on the shadow path, or else the one created there, with exactly one reference also when a later step fails; it is recorded as the shadow unless it is the original |
| VnodeHooks.LookUpShadow | VFSFilter0/VFSFilter0/VFSHooks.cpp:563-845 | the shadow that was opened comes back exactly if it opens and is backed; what is held is the returned vnode and the shadow |
| VnodeHooks.LookUpRedirected | VFSFilter0/VFSFilter0/VFSHooks.cpp:886-1031 | the redirected file if there is one, else the plain one, else the error of the one or the other, with exactly the reference of the vnode it returns |
| VnodeHooks.LookUpHook | VFSFilter0/VFSFilter0/VFSHooks.cpp:415-1071 | every exit gives back what it took, and the vnode and error are those of `VnodeOutcomes.LookUpOutcome`: the file system's own vnode only if the call is settled by it, the shadow exactly if it opens and is backed, else what the path lookup gives |
| VnodeHooks.CreateShadow | VFSFilter0/VFSFilter0/VFSHooks.cpp:1212-1290 | the created shadow is returned exactly when it is backed, with one reference, recorded as the original's shadow unless memory is short |
| VnodeHooks.CreateHook | VFSFilter0/VFSFilter0/VFSHooks.cpp:1089-1327 | the same for create: of a controlled file the shadow, if it is backed, and nothing otherwise; nothing is returned on an error |
| VnodeHooks.CloseHook | VFSFilter0/VFSFilter0/VFSHooks.cpp:1332-1362 | close keeps the thread's references and writes back the backing vnode, if there is one |
| VnodeHooks.InactiveHook | VFSFilter0/VFSFilter0/VFSHooks.cpp:1367-1424 | inactive keeps the thread's references, and with no other thread about exactly the backing association of the vnode is gone, with its reference, after its backing vnode was written back |
| VnodeHooks.RenameHook | VFSFilter0/VFSFilter0/VFSHooks.cpp:2124-2677 | rename keeps the thread's references on all its exits, restores the vnodes of the call and makes exactly the renamings its answers call for, in order; with no other thread about it forgets whose shadow the vnode was exactly when a redirected rename succeeds |
| VnodeHooks.GetattrHook | VFSFilter0/VFSFilter0/VFSHooks.cpp:2811-2920 | getattr keeps the thread's references and restores the vnode of the call; the file system is asked about the vnode that is shadowed, if one is, and then the size is fetched from the backing vnode |
| VnodeHooks.ReclaimHook | VFSFilter0/VFSFilter0/VFSHooks.cpp:2925-2957 | reclaim keeps the thread's references, and with no other thread about exactly the two associations of the vnode are gone, with theirs |
| VnodeHooks.RunHooks | VFSFilter0/VFSFilter0/VFSHooks.cpp:415-2957 | over any run of these hooks, with any outcomes and any moves of other threads, a thread ends up with exactly the references returned to it |
| VnodeOutcomes.ControlledIsRedirected | VFSFilter0/VFSFilter0/VFSHooks.cpp:563-1031 | a controlled regular file is given as its backed shadow or, failing that, as what the redirected path has; the vnode of the plain path lookup comes back only where that finds no regular file or the redirected path nothing |
| VnodeOutcomes.LookUpGives | VFSFilter0/VFSFilter0/VFSHooks.cpp:415-1071 | a lookup gives a vnode exactly when it succeeds |
| VnodeOutcomes.ShadowIsKnown | VFSFilter0/VFSFilter0/VFSHooks.cpp:563-845 | with no other thread about, a shadow that is given leads to its backing vnode, and to the original unless memory was short; no other shadow changes |
| VnodeOutcomes.CreatedIsShadow | VFSFilter0/VFSFilter0/VFSHooks.cpp:1212-1290 | a controlled file that is created is given as its backed shadow or not at all, and the shadow leads to the original unless memory was short |
| VnodeOutcomes.RenamesAll | VFSFilter0/VFSFilter0/VFSHooks.cpp:2124-2677 | a redirected rename succeeds exactly when the redirected file, the vnodes of the call and the original were all renamed, in this order; a failure stops it |
| Paths.ConvertToShadowCopyPath | VFSFilter0/VFSFilter0/VFSHooks.cpp:67-143 | the buffer holds the shadow path, every access inside it, or there is no buffer for want of memory |
| Paths.SqueezeIn | VFSFilter0/VFSFilter0/VFSHooks.cpp:119-131 | the overlapping move and the prefix yield directory, prefix and name with the terminator |
| Paths.ShadowStaysInDirectory | VFSFilter0/VFSFilter0/VFSHooks.cpp:67-143 | the directory is kept and the name is the old one if it had the prefix in either case of letters, else the prefix and the old one |
| Paths.ShadowIsIdempotent | VFSFilter0/VFSFilter0/VFSHooks.cpp:111-117 | a shadow path is its own shadow path |
| Paths.ShadowNames | VFSFilter0/VFSFilter0/VFSHooks.cpp:65-117 | the names taken for shadow names are those that start with .QS_, its letters in either case |
| Paths.ShadowsCollide | VFSFilter0/VFSFilter0/VFSHooks.cpp:67-143 | two paths share a shadow path exactly when they are equal or one is the other's shadow path |
| Paths.ShadowRoundTrip | VFSFilter0/VFSFilter0/VFSHooks.cpp:67-143 | taking the prefix out again gives the path back |
| Paths.ConvertToRedirectedPath | VFSFilter0/VFSFilter0/VFSHooks.cpp:173-243 | the buffer holds the redirected path, every access inside it, or there is no buffer |
| Paths.RedirectedIsDirAndName | VFSFilter0/VFSFilter0/VFSHooks.cpp:181-216 | the full redirected path is the directory, a slash and the name computed without a directory, exactly when the path is not empty and does not start with two slashes |
| Paths.OneSlashAfterDirectory | VFSFilter0/VFSFilter0/VFSHooks.cpp:222-238 | after the directory a redirected rooted path has no slash but the leading one |
| Paths.RedirectedRoundTrip | VFSFilter0/VFSFilter0/VFSHooks.cpp:173-243 | dropping the directory and mapping dollars back to slashes undoes redirection exactly for paths without dollars |
| Paths.RedirectionsCollide | VFSFilter0/VFSFilter0/VFSHooks.cpp:173-243 | two rooted paths are redirected to one file exactly when they differ at most in slashes against dollars |
| Paths.ConvertToShadowAndThenRedirectedPath | VFSFilter0/VFSFilter0/VFSHooks.cpp:256-285 | the buffer holds the redirected shadow path |
| Paths.ShadowThenRedirectRoundTrip | VFSFilter0/VFSFilter0/VFSHooks.cpp:256-285 | for a rooted path without dollars that is not a shadow path, both steps can be undone |
| Paths.ShadowThenRedirectIsInjective | VFSFilter0/VFSFilter0/VFSHooks.cpp:256-285 | so two such paths never share a redirected shadow path |
| Paths.RenamedInDirectory | VFSFilter0/VFSFilter0/VFSHooks.cpp:2314-2340 | the full path rename uses is the redirection directory, a slash and the name it passes beside it |
| PhysicalCopy.VirtToPhys | VFSFilter0/VFSFilter0/VmPmap.cpp:17-48 | zero exactly for unmapped pages, else an address in the frame of the page, at the same offset |
| PhysicalCopy.ChunkSize | VFSFilter0/VFSFilter0/VmPmap.cpp:84-94 | a chunk is not empty, crosses no page on either side, and is as long as that and the remaining length allow |
| PhysicalCopy.WriteWired | VFSFilter0/VFSFilter0/VmPmap.cpp:52-106 | memory ends as after copying whole chunks in turn, also for ranges that share frames, and if source and destination share no byte as after copying the returned number of bytes one at a time; that is short of the length only at a byte unmapped on one side |
| PhysicalCopy.ChunkIsBytes | VFSFilter0/VFSFilter0/VmPmap.cpp:84-103 | one page-wise chunk is its bytes copied one at a time |
| PhysicalCopy.CopiedExactly | VFSFilter0/VFSFilter0/VmPmap.cpp:52-106 | every destination byte, at its offset in the frame of its page, gets what was at the source byte's offset in the frame of its own page |
| PhysicalCopy.OthersStay | VFSFilter0/VFSFilter0/VmPmap.cpp:52-106 | every byte that differs in frame or offset from all destination bytes stays |
| RingLists.InitializeHead | VFSFilter0/VFSFilter0/Common.h:97-104 | a fresh head is a ring of one |
| RingLists.IsEmpty | VFSFilter0/VFSFilter0/Common.h:106-113 | a list is empty exactly when its ring is the head alone |
| RingLists.InsertHead | VFSFilter0/VFSFilter0/Common.h:180-194 | the ring with the entry after the head |
| RingLists.InsertTail | VFSFilter0/VFSFilter0/Common.h:163-177 | the ring with the entry before the head |
| RingLists.RemoveEntry | VFSFilter0/VFSFilter0/Common.h:115-129 | the ring without the entry; the answer tells whether only the head is left |
| RingLists.RemoveHead | VFSFilter0/VFSFilter0/Common.h:131-145 | the first entry comes back and the ring is without it; of an empty list the head comes back |
| RingLists.RemoveTail | VFSFilter0/VFSFilter0/Common.h:147-161 | the last entry comes back and the ring is without it |
| RingLists.AppendTail | VFSFilter0/VFSFilter0/Common.h:196-209 | the two rings become one, in order |
| DataMaps.DataMap.FindEntryByKey | VFSFilter0/VFSFilter0/RecursionEngine.h:32-56 | the search gives the entry of a key, or nothing when there is none |
| DataMaps.DataMap.AddDataByKey | VFSFilter0/VFSFilter0/RecursionEngine.h:80-109 | a present key is updated in place, a new one enters at the head, a failed allocation changes nothing |
| DataMaps.DataMap.RemoveKey | VFSFilter0/VFSFilter0/RecursionEngine.h:111-124 | exactly the entry of the key goes |
| DataMaps.DataMap.RemoveFirst | VFSFilter0/VFSFilter0/RecursionEngine.h:127-154 | the first entry goes and its key and datum come back, or nothing of an empty map |
| DataMaps.DataMap.GetDataByKey | VFSFilter0/VFSFilter0/RecursionEngine.h:159-172 | the datum of the key, or nothing |
| DataMaps.DataMap.Empty | VFSFilter0/VFSFilter0/RecursionEngine.h:174-177 | whether there is no key |
| DataMaps.PutUpdates | VFSFilter0/VFSFilter0/RecursionEngine.h:80-109 | adding updates a finite map at one key and keeps keys unique |
| DataMaps.DropRemoves | VFSFilter0/VFSFilter0/RecursionEngine.h:111-124 | removing takes exactly one key out of the map |
| DataMaps.RunsAsMap | VFSFilter0/VFSFilter0/RecursionEngine.h:80-177 | any run of adding, removing, removing first, looking up and asking for emptiness answers as a finite map whose keys come out last in, first out |
| DataMaps.CallAll | VFSFilter0/VFSFilter0/RecursionEngine.h:61-177 | so does the linked list itself, from new, whichever allocations fail |
| DataMaps.FlagIsOwn | VFSFilter0/VFSFilter0/RecursionEngine.h:188-196 | a thread's recursion flag depends only on what it did last itself, whatever other threads do |

## Left out

- HashTable.TableSize: requests above 2^30 are excluded, because the loop's shift overflows there.
- HashTable.Table.Insert: an automatic rehash to more than 2^30 buckets is excluded for the same reason; NULL data and eviction
  callbacks that call back into the table are not modelled.
- HashTable.Table.Rehash: the temporary table itself can be created; the source asserts this and goes on without it otherwise.
  Allocations of the entries copied into it may fail.
- TableRuns.RunOps: at each insertion that rehashes, and for each rehash asked for, the size asked for is at most 2^30.
- HashIteration.Iterate: insertion and rehash during an iteration are not modelled.
- HashRuns.RunsAsDictionary: setting a bucket limit in the middle of a run is not an operation of the run.
- VopVector.HookVector: the skip of a device's strategy slot is left out, because no strategy operation is hooked
  (`HooksAreDescribed`) and only regular files get that far.
- HookSlots.RunsAreSafe: the vector of a vnode does not change between its hooking and its unhooking; the check for a vnode being
  recycled is an arbitrary choice at the start of hooking. Look-ups name hooked operations, as those of all callers do.
  A look-up with its retain, and an insertion with its retain, are one step each, under the lock. The threads are a state machine on
  values, not objects updated in place.
- HookCounting.CalmRunsAreCounted: only an inequality, because hooking a vector already hooked counts without recording the vnode;
  the counter as an exact tally of calls is `HookTally.CounterOfEntry`.
- ReplySafety.ClearRunsAreSafe: the daemon replies once to each message and does not die; dequeuing does not fail. The threads, the
  waiting list and the queue are a state machine on values, not objects updated in place. The owner kept with a waiting-list key and
  the serial numbers of calls are not in the source and only serve to state properties.
- ReplyResults.ReturnsOwnAnswer: the answer a caller gets when there is no client at all is not modelled.
- ClientRegistration.RunsAreSafe: each client is registered once, and its caller keeps it alive while registering. The sleep of the
  unregistering thread is a poll of the count, as its one-second timeout makes it; wake-ups are left out. State machine on values.
- VnodeHooks.LookUpHook: a lookup or open gives one reference exactly when it succeeds, `vnode_close` drops one and `vnode_get`
  succeeds. Whether a vnode has been redirected before, is a regular file and is controlled is given, as are sizes; the map of
  application data, which holds no references, and the messages to the daemon are left out. Error codes other than those the code
  compares are one. The constant switches of the source keep their values. Use counts are not modelled, only I/O counts: the pair of
  calls that drops the use count after an open changes no other reference.
- VnodeHooks.RunHooks: what a hook does to the maps while other threads are about is stated only by the references it keeps.
- VnodeHooks.CreateHook: nested recursion marks are left out; they change no reference.
- VnodeMaps.Vnodes.ReleaseAllBacking: other threads do not add to the map being released; with such adds the loop need not end.
- PhysicalCopy.WriteWired: addresses do not wrap around, every mapped page lies in memory, and the kernel's copy of one chunk reads it
  all before it writes.
- PhysicalCopy.CopiedExactly: destination addresses are mapped to different bytes.
- RingLists.RemoveEntry: the entry is not the head.
- DataMaps.DataMap.AddDataByKey: a null key is not refused, a null datum is excluded, as the source only asserts both.
- The exchange, read, write, pagein, pageout and open hooks, the UPL and pager work: kernel calls with no decisions of their own.
- The one-at-a-time and rotating hash functions: the table's properties hold for every hash function.
- Structure layouts and offsets per system version: only that each hooked operation has a slot of its own.
- Message layout, audit contents, logging, the application table, and the client program apart from its reply loop.
- `QvrVnodeHooksHashTable::free` and the destructor of the waiting list.
