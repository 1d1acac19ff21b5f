# A verified model of NetLock

NetLock is a lock manager for distributed transactions. A programmable switch keeps one
circular queue of requests per lock and grants locks in the data plane; a lock server
serves the locks the switch has no room for and buffers the requests that overflow a ring;
clients play traces of transactions that take several locks each, time out, roll back and
retry. This project models these programs in Dafny and proves what they promise together.

The policy both lock managers implement is `RwLock`: requests are served in arrival order,
and the granted ones are a leading run of the queue - its head alone if that is exclusive,
the longest shared prefix otherwise.

| files | what they hold |
|---|---|
| `Types.dfy`, `RwLock.dfy` | requests, modes, the policy and its runs |
| `LockRing.dfy`, `LockRun.dfy` | one lock of the switch as a state machine whose packets interleave: arrivals, first passes of releases, recirculated passes |
| `SlotArithmetic.dfy`, `SwitchRegisters.dfy` | the register arrays, every table of `acquire_lock` and `release_lock`, and the ring they represent |
| `LinkedQueue.dfy`, `LockServer.dfy` | the linked list and the lock server's two roles |
| `Interleaving.dfy` | the registers under packets of a lock that interleave freely |
| `Agreement.dfy` | the two lock managers on the same events |
| `Overflow.dfy`, `Refill.dfy`, `RefillRun.dfy`, `HandOff.dfy` | requests that overflow into the server and come back, and what a hand-off leaves behind |
| `Controller.dfy` | the slot layout and the reset after a switch failure |
| `Trace.dfy` | how a client's trace is built from a file |
| `ClientMachine.dfy`, `ClientInvariant.dfy`, `ClientRace.dfy` | the transmit and receive loops of a client |
| `LockSystem.dfy`, `System*.dfy`, `Conservation.dfy` | clients, switch and all packets between them, and every reachable state of the whole |
| `SwitchFollows.dfy` | the registers of all locks in a run of the whole system |

How the parts fit:

* A lock's queue is a log of every request that entered its ring plus the number taken
  out. Position `p` of the log is stored in slot `left + p % capacity`. `Represents` ties
  the registers of a lock to such a log; every method of `Switch` is one trip of one packet
  and keeps it, for its own lock and, untouched, for every other.
* A recirculated packet is a `Scan`: it reads whatever the slot of its position holds *now*
  (`Visible`), which later arrivals may have overwritten. `LockRing.Inv` says that the
  requests which are due and not yet granted are exactly those that the one live scan will
  still reach. It is kept when arrivals, further releases and other scans come between two
  passes, as long as no arrival is written into a slot that a packet in recirculation still
  has to read (`NoScanOverrun`). `OneByOneIsInTime` shows that this assumption is not needed
  when a release of a lock is processed only after the scan of the one before has ended,
  `InTimeExactly` that it is exactly what every later pass needs, and
  `LateScanBreaksExclusion` gives a run without it in which exclusion fails.
* The steps of every run are asked only to be possible: the packet is there and the state has
  the shape to apply it to. The invariants are proved of the runs, and `OfferedIsPossible` and
  `OfferedIsEnabled` that no packet ever finds another shape.
* The client is a loop over its trace; a timeout is a choice. Its invariant gives the lock
  manager what it takes for granted: only holders release, each grant once. The world of
  `LockSystem` puts both together. Its links lose nothing but may reorder packets; `places`,
  `status` and `tags` are history that no program reads.
* Ring, grant and exclusion theorems are about runs up to the first hand-off. The counter of
  requests in the server and the order of overflowing requests are proved for every run.

Where comments and code differ, the code is followed. The switch computes `size_of_queue` as
`right - left`, which is one less than the number of slots, so a ring of a single slot hands
every release over (`HandOffExactly`). The comment at netlock.p4:264 says that an empty switch
queue gets requests back from the server; the code asks for them but leaves the released
request in the counts. If it or the first request to enter is exclusive, `acquire_lock` grants
none of the requests pushed back, and nobody gets the lock again (`ServiceResumesExactly`) -
unless a packet was still in recirculation, which may then grant one of them
(`PacketsMayGrantExactly`, `LatePacketGrants`). The hand-off also counts the slot of the
released request as empty while the head still points to it, so a refill as large as the ring
overwrites it (`SparesExactly`, `FullRefill`). If the last grant of a transaction arrives
between the client's two tests of txn_r, the client prints that something must be wrong and
goes on without releasing it (`RaceIsSafeExactly`). A trace keeps the mode of the first request for
an object except in task `g`, so reading and then writing an object takes it in shared mode
(`UpgradeLost`).

## Model

| member | source | states |
|---|---|---|
| `SystemTheorems.MutualExclusion` | switch_code/netlock/p4src/netlock.p4:179-358 | in every reachable state of all clients, the switch, its recirculating packets and all packets under way, a client that holds a lock exclusively is its only holder |
| `SystemSerial.SerialIsReachable` | switch_code/netlock/p4src/netlock.p4:242-358 | a run of possible steps in which a release of a lock is processed only after the scan of the one before has ended overwrites no slot a scan still reads: the theorems hold of it with nothing assumed on the speed of recirculation |
| `SystemRuns.RunKeepsInv` | dpdk_code/client_code/client.c:458-645 | every run from the start, of steps that are only asked to be possible and in time, keeps the system invariant: every packet under way and every grant in a list belongs to a ring position in the matching stage, and to the client's current attempt |
| `SystemTheorems.ReachableInv` | dpdk_code/client_code/client.c:458-645 | and so it holds in every reachable state |
| `SystemAccounting.RunAccounts` | dpdk_code/client_code/client.c:470-645 | and nothing is lost: in every run each granted request has its grant under way, is held in its client's list, or has its release under way, and each acquire not yet at the switch is under way to it |
| `Conservation.RunConserves` | switch_code/netlock/p4src/netlock.p4:179-358 | for every lock in every world of a run: grants held + grants under way + releases under way + grants the scan owes, counted over the packets and lists, are as many as the policy's leading run is long |
| `Conservation.LeadingRunIsAccounted` | switch_code/netlock/p4src/netlock.p4:179-358 | the same equality from the two invariants of one world |
| `SystemRuns.NextKeepsInv` | dpdk_code/client_code/client.c:470-645 | every single step keeps it: a turn of a client, a grant received, an acquire, a release or a recirculated packet at the switch |
| `SystemRuns.OfferedIsEnabled` | switch_code/netlock/p4src/netlock.p4:458-470 | no packet under way is ever refused for the state it finds: a release finds a request to pop, a grant its client's list, a recirculated packet its entry; and a client can always take a turn |
| `SystemTheorems.OnlyHoldersRelease` | switch_code/netlock/p4src/blackboxs.p4:272-289 | any release under way belongs to a request that has the lock, its lock's queue is not empty and its mode is the mode of the head it will pop |
| `SystemTheorems.CommittedHoldsAll` | dpdk_code/client_code/client.c:581-600 | a transaction counted as committed holds, at that moment, a lock in the right mode for every acquire the trace has for it |
| `SystemTheorems.NothingStale` | dpdk_code/client_code/client.c:541-616 | when an attempt has sent at most its first acquire, no acquire or grant of an earlier attempt is left anywhere and every earlier acquire has been granted and given back |
| `SystemTheorems.RollBackResumes` | dpdk_code/client_code/client.c:601-614 | a roll-back takes the trace up again at the first row of the transaction it gives up: a row whose predecessor belongs to another transaction, or row 0 |
| `SystemPlays.FirstAcquireIsFirstRow` | dpdk_code/client_code/client.c:79-80 | in every run the first acquire a client sends is the first row of its trace |
| `SystemPlays.RunPlays` | dpdk_code/client_code/client.c:581-616 | in every world of a run each client's attempt began at the first row of a transaction, and a client that has sent nothing yet stands at row 0 |
| `SystemSends.GrantAnswers` | dpdk_code/client_code/client.c:905-914 | a grant under way answers an acquire of its client's current attempt, by transaction id, that no entry of the grant list answers yet; and the list is shorter than the acquires sent |
| `SystemStamps.TurnStamps` | dpdk_code/client_code/client.c:636-638 | the packet of a turn carries the row's mode and transaction, the client's address and number, and the two halves of the clock of that turn, in this order |
| `SystemStamps.GrantCarriesClock` | switch_code/netlock/p4src/actions.p4:284-294 | in every run the grant that answers an acquire carries the same six fields back, the two clock halves of the turn that sent it among them |
| `SystemReleases.ReleaseKeepsInv` | dpdk_code/client_code/client.c:486-569 | the release loops, at a commit, a roll-back or a timeout, turn exactly the held requests they name into releases under way |
| `SystemArrivals.ArriveKeepsInv` | switch_code/netlock/p4src/netlock.p4:179-240 | an acquire of any client may reach the switch between any two passes of a scan |
| `SystemSwitch.ReleaseAtSwitchKeepsInv` | switch_code/netlock/p4src/netlock.p4:242-261 | a release that is not handed over may reach the switch at any time, also while scans of its lock are in flight |
| `SystemSwitch.PassKeepsInv` | switch_code/netlock/p4src/netlock.p4:310-348 | a recirculated pass sends a grant only for a waiting request, to the client that asked |
| `LockSystem.ExclusiveHolderIsAlone` | switch_code/netlock/p4src/blackboxs.p4:230-289 | two holdings of a lock of which one is exclusive are one client's, for one request |
| `LockSystem.AllAnswered` | dpdk_code/client_code/client.c:481 | as many grants as acquires in an attempt means every single acquire of it is answered, by a different grant |
| `LockRun.MutualExclusion` | switch_code/netlock/p4src/netlock.p4:242-358 | on one lock, in any interleaving of packets, an exclusive request whose grant, holding or release is outstanding is the only outstanding one |
| `LockRun.RunRefinesPolicy` | switch_code/netlock/p4src/netlock.p4:242-358 | in any interleaving of possible packets in time the ring goes through states of the policy for the same events, every event legal, and whenever nothing recirculates exactly the policy's leading run has been granted |
| `LockRun.PassGrantsOldest` | switch_code/netlock/p4src/netlock.p4:310-348 | the live scan wakes requests in queue order: nothing in front of the one it grants is still due |
| `LockRun.ArrivalOvertakesExactly` | switch_code/netlock/p4src/blackboxs.p4:230-248 | an arrival that is granted at once overtakes a waiting request if and only if a live scan is in flight, and then one the scan is about to wake |
| `LockRun.StatusAdvances` | switch_code/netlock/p4src/netlock.p4:310-348 | no packet moves a request back or two stages on: a request is granted once and no other packet undoes it |
| `LockRun.OneByOneIsInTime` | switch_code/netlock/p4src/netlock.p4:333-346 | with one scan at a time no slot is rewritten before the packet marked for it has read it, in any run of possible packets |
| `LockRun.ApplyKeepsInv` | switch_code/netlock/p4src/netlock.p4:179-358 | every packet keeps the invariant of one lock: outstanding requests match the head, and the live scan covers exactly the pending ones |
| `LockRun.OfferedIsPossible` | switch_code/netlock/p4src/netlock.p4:242-261 | a packet that is there finds a state it can be applied to; in particular a release never finds an empty ring |
| `LockRun.InTimeExactly` | switch_code/netlock/p4src/netlock.p4:310-319 | in a state with room, whatever request enters next, every recirculating packet still grants only requests that wait and are due, if and only if none has yet to read the slot that is written |
| `LockRun.LateScanBreaksExclusion` | switch_code/netlock/p4src/netlock.p4:310-319 | without the timing assumption mutual exclusion is false: an explicit run from an empty lock of two slots ends with two clients holding it exclusively |
| `LockRing.HandOffExactly` | switch_code/netlock/p4src/netlock.p4:250-274 | a release of a non-empty ring is handed to the server if and only if it takes the last request while some are in the server, or the ring has one slot |
| `LockRing.HoldersMatchHead` | switch_code/netlock/p4src/blackboxs.p4:272-289 | every outstanding request has the head's mode, so decrementing by the packet's mode removes the popped entry whichever holder released |
| `LockRing.QuietMeansGrantedRun` | switch_code/netlock/p4src/netlock.p4:310-348 | with nothing recirculating, a request waits if and only if it lies behind the leading run: scans skip none and grant none too many |
| `LockRing.OwedFillTheRun` | switch_code/netlock/p4src/netlock.p4:179-358 | in every state the requests that are granted, held or being released, together with those the scan still owes a grant, are as many as the policy's leading run is long |
| `LockRing.EnterKeepsInv` | switch_code/netlock/p4src/netlock.p4:195-237 | an arrival between passes lies behind every saved tail and is granted or queued without disturbing a scan |
| `LockRing.ReleaseKeepsInv` | switch_code/netlock/p4src/netlock.p4:244-261 | a release pops the head and its scan reaches every request that is now due, also with other scans in flight |
| `LockRing.PassGrantsPending` | switch_code/netlock/p4src/netlock.p4:310-319 | a pass reads the entry it was marked for, and grants it if and only if it is the live scan; the request was waiting and is due |
| `LockRing.PassCovers` | switch_code/netlock/p4src/netlock.p4:321-348 | the packet that goes round again covers exactly the positions the old one covered, but for the one just read |
| `LockRing.PassNext` | switch_code/netlock/p4src/netlock.p4:326-345 | the distance from the saved head to the saved tail shrinks at every recirculation |
| `LockRun.ReleaseEnds` | switch_code/netlock/p4src/netlock.p4:326-345 | in any interleaving the packet of a release comes round no more often than there were requests left behind the one it popped |
| `LockRing.PassReadsItsEntry` | switch_code/netlock/p4src/actions.p4:205-211 | the slot of a position still holds its entry if and only if fewer than a ring of requests entered after it |
| `Agreement.ReleaseFollowsPolicy` | switch_code/netlock/p4src/netlock.p4:242-358 | an undisturbed release grants what the policy grants, in its order, and goes round no more often than there are requests left behind the popped one |
| `Agreement.SweepGrants` | switch_code/netlock/p4src/netlock.p4:338-341 | a sweep wakes the shared run in front of it and stops at the first exclusive request |
| `Agreement.SwitchRun` | switch_code/netlock/p4src/netlock.p4:179-358 | the packets of any events that do not overflow the ring send exactly the policy's grants |
| `Agreement.ServerRun` | dpdk_code/lock_server_code/server.c:547-663 | so does the server's primary role |
| `Agreement.SameGrants` | dpdk_code/lock_server_code/server.c:547-663 | switch and server send the same grants in the same order, though one counts down by the packet's mode and the other by the dequeued entry's |
| `Interleaving.TakeAll` | switch_code/netlock/p4src/netlock.p4:179-358 | however the packets of a lock interleave at the switch, the registers represent the ring of that run, the recirculating headers are those of its scans, and the grants sent are those of the run in its order |
| `Interleaving.PacketsPlayARun` | switch_code/netlock/p4src/netlock.p4:179-358 | such a sequence of packets is a run of the lock, so exclusion, exactly-once granting and refinement hold of the registers |
| `Interleaving.SentIsGranted` | switch_code/netlock/p4src/netlock.p4:310-319 | a packet sends at most one grant, exactly for the request whose state it changes to granted, with the fields that request arrived with |
| `SwitchFollows.Follow` | switch_code/netlock/p4src/netlock.p4:447-470 | in every run of the whole system the registers of all locks represent the rings of the world the run is in, and the packets in recirculation carry its scans |
| `SwitchFollows.StepMoves` | switch_code/netlock/p4src/netlock.p4:447-470 | a step of the system moves exactly the lock its packet is for, as that packet moves the lock alone; turns and deliveries move no ring |
| `SwitchFollows.SentAreNew` | switch_code/netlock/p4src/netlock.p4:310-319 | the grant packets that a step adds to the world are those the switch sends for it |
| `RwLock.GrantsFollowArrivalOrder` | switch_code/netlock/p4src/netlock.p4:310-348 | over any run the grants are the requests behind the first holders in arrival order, without gap or repetition |
| `RwLock.BoundedWaiting` | dpdk_code/lock_server_code/server.c:612-663 | a request with p requests in front of it has been granted once p releases were processed, whatever else arrived |
| `RwLock.GrantEndGrows` | dpdk_code/lock_server_code/server.c:547-663 | no event takes the lock from a request that has it |
| `RwLock.ReleaseGrants` | dpdk_code/lock_server_code/server.c:618-663 | whom a release wakes: the next request if exclusive, the shared run behind an exclusive head, nobody otherwise |
| `RwLock.NoExclusiveCounted` | switch_code/netlock/p4src/blackboxs.p4:230-270 | the exclusive count is zero exactly if the queue is shared to its end, and both counts add up to the queue |
| `SwitchRegisters.Switch.AcquireLockTable` | switch_code/netlock/p4src/blackboxs.p4:230-270 | the request is counted, and the output is 0 if and only if nothing that excludes it was counted before |
| `SwitchRegisters.Switch.EnqueueTables` | switch_code/netlock/p4src/netlock.p4:201-227 | the six arrays get the request at the old tail, the tail wraps at the right bound, and no other lock is disturbed |
| `SwitchRegisters.Switch.AcquirePass` | switch_code/netlock/p4src/netlock.p4:179-240 | a client's acquire is forwarded, granted or queued as the policy says; its request enters its own ring's log and every other ring stays as it was |
| `SwitchRegisters.Switch.AcquireOrPushBack` | switch_code/netlock/p4src/netlock.p4:179-240 | the same control for any registers a hand-off may have left: a push-back is never forwarded and lowers the count of empty slots, wrapping at 0; an acquire is forwarded exactly when no slot is counted empty or a request is in the server; otherwise the counts decide the grant and the request is written to the tail slot, whatever is there; no other lock is disturbed |
| `SwitchRegisters.Switch.MarkToResubmit` | switch_code/netlock/p4src/actions.p4:172-183 | on any registers: with the next slot the one behind the popped one, around the wrap, the packet goes round, flagged 1, if and only if that is not the tail, with the next slot, the tail and the popped mode saved |
| `SwitchRegisters.Switch.ReleaseAny` | switch_code/netlock/p4src/netlock.p4:242-276 | the first pass of a release on any registers, also those a hand-off left: in a ring of two slots at least it is sent to the server if and only if a request is there and the slots counted empty are right less left; then head and counts stay, otherwise the head wraps on, the packet's mode is counted down and the popped entry decides what goes round; one more slot is counted empty either way |
| `SwitchRegisters.HeaderOfPop` | switch_code/netlock/p4src/actions.p4:172-183 | on registers that represent a ring, that header is the one of the first scan: the packet goes round exactly if requests are left behind the popped one |
| `SwitchRegisters.Switch.ReleasePass` | switch_code/netlock/p4src/netlock.p4:242-358 | a holder's release pops its ring's head and starts its scan, or is handed over; then only the empty count changes and the registers no longer represent the popped queue |
| `SwitchRegisters.Switch.RecirculatedPass` | switch_code/netlock/p4src/netlock.p4:256-348 | the pass grants the request now stored in its slot, with all its six fields, or not, and goes round or not, as the abstract scan does; no register changes |
| `SwitchRegisters.EntryArrays.Write` | switch_code/netlock/p4src/blackboxs.p4:192-228 | the six parallel arrays together change in one slot, to the new request |
| `SwitchRegisters.EntryArrays.Read` | switch_code/netlock/p4src/blackboxs.p4:29-71 | what is read from a slot is the request last written there, field by field |
| `SwitchRegisters.RepresentsEntered` | switch_code/netlock/p4src/blackboxs.p4:164-176 | with the entry written at the old tail, slots, counts, head and tail represent the longer log, around the wrap as well |
| `SwitchRegisters.RepresentsPopped` | switch_code/netlock/p4src/blackboxs.p4:178-190 | the head slot holds the oldest request, its mode's count is positive, and after the pop the registers represent the shorter queue |
| `SwitchRegisters.CountsDecide` | switch_code/netlock/p4src/blackboxs.p4:230-270 | the counts alone decide a grant exactly as the policy does on the queue |
| `SwitchRegisters.HeadMeetsTail` | switch_code/netlock/p4src/netlock.p4:324-333 | stepping the head wraps as the head register does, and head and tail slots differ if and only if requests are left between them |
| `SwitchRegisters.HandOffDoesNotPop` | switch_code/netlock/p4src/netlock.p4:250-274 | counts that were not decremented represent no popped queue |
| `SlotArithmetic.SlotsDiffer` | switch_code/netlock/p4src/blackboxs.p4:164-190 | two requests in one ring at the same time never share a slot |
| `SlotArithmetic.NextSlot` | switch_code/netlock/p4src/blackboxs.p4:164-190 | wrapping at the right bound is stepping to the next position of the log |
| `LinkedQueue.Queue.Enqueue` | dpdk_code/lock_server_code/include/lock_queue.h:29-53 | the list grows by one node at its end and keeps all others in place |
| `LinkedQueue.Queue.Dequeue` | dpdk_code/lock_server_code/include/lock_queue.h:55-76 | the oldest value leaves the list, the rest keeps its order |
| `LinkedQueue.Queue.Clear` | dpdk_code/client_code/txn_queue.c:55-67 | walking the nodes by the size field ends with an empty list |
| `LockServer.Primary.Acquire` | dpdk_code/lock_server_code/server.c:547-583 | the policy's step and exactly its grants, with counters and list kept in agreement with the queue |
| `LockServer.Primary.Release` | dpdk_code/lock_server_code/server.c:612-663 | the same for a release |
| `LockServer.Primary.WakeShared` | dpdk_code/lock_server_code/server.c:648-661 | walking the pointers notifies exactly the shared requests before the first exclusive one |
| `LockServer.Secondary.Buffer` | dpdk_code/lock_server_code/server.c:541-545 | the request is kept behind all the others |
| `LockServer.Secondary.Refill` | dpdk_code/lock_server_code/server.c:592-611 | the requests pushed back and those that stay are together the old buffer in order, and as many go as the switch has slots or the buffer requests |
| `Overflow.OverflowIsConserved` | switch_code/netlock/p4src/blackboxs.p4:73-100 | in every run, hand-offs included, the length-in-server register is the number of requests on the way to the server, in its buffer and on the way back |
| `Overflow.NoOvertaking` | switch_code/netlock/p4src/blackboxs.p4:73-93 | in every run the ring is entered in the order in which acquires reached the switch; while any request is outside, a new one queues up behind all of them |
| `Overflow.PushBackIsCounted` | switch_code/netlock/p4src/blackboxs.p4:95-100 | a request that is pushed back is always still counted, so the counter never goes below zero |
| `Overflow.AcquireFollows` | switch_code/netlock/p4src/netlock.p4:179-196 | the link's counters stay those of the ring over an acquire, and it is sent to the server exactly if the ring's packet is forwarded |
| `Overflow.ReleaseFollows` | switch_code/netlock/p4src/netlock.p4:244-274 | over a release too; before any hand-off a refill is asked for exactly at the ring's hand-off, which leaves every slot counted as empty |
| `Overflow.HandsOverExactly` | switch_code/netlock/p4src/netlock.p4:244-274 | at any moment, hand-offs before it included: a release asks the server for one refill and pops nothing if and only if a request is in the server and the slots counted empty, before it, are size_of_queue; with size_of_queue 0 if and only if either is zero; otherwise it pops and asks for nothing |
| `Overflow.ServerStep` | dpdk_code/lock_server_code/server.c:541-611 | the secondary role's list is the link's buffer after every packet, and what it sends is what the link has under way back |
| `Refill.PushBackFindsRoom` | switch_code/netlock/p4src/blackboxs.p4:95-100 | in every run in which a release is handed over only once the last refill is back, the count of empty slots is positive whenever a request comes back, and so never wraps |
| `Refill.FitExactly` | dpdk_code/lock_server_code/server.c:599-611 | the requests on their way back each find the count of empty slots positive if and only if they are no more than it says |
| `Refill.RunKeepsDrift` | switch_code/netlock/p4src/blackboxs.p4:142-155 | in every run the count of empty slots is the slots, one more for every hand-off, less the positions between head and tail, in 32 bits |
| `Refill.SparesExactly` | switch_code/netlock/p4src/blackboxs.p4:95-100 | until it wraps, a request written at the tail spares every position from the head on if and only if more slots are counted empty than releases were handed over |
| `Refill.TailMeetsHead` | switch_code/netlock/p4src/blackboxs.p4:164-190 | otherwise it is written to the head's slot, as long as no more than a ring lies behind the head |
| `Refill.RefillSparesExactly` | dpdk_code/lock_server_code/server.c:599-611 | a whole refill spares the head if and only if it is empty or it and the hand-offs are together no more than the empty slots |
| `Refill.FullRefill` | switch_code/netlock/p4src/netlock.p4:244-253 | on the registers: after the hand-off of a ring's last request a refill as large as the ring overwrites the entry the head points to, though every push-back finds a positive count, and the next pop will see head meet tail |
| `RefillRun.TwoRefillsAreTooMany` | switch_code/netlock/p4src/blackboxs.p4:95-100 | an explicit run from an empty lock, every release sent by a holder, in which two refills are outstanding and a request comes back when no slot is counted empty: the counter wraps |
| `HandOff.HandOffLeavesNoHolder` | switch_code/netlock/p4src/netlock.p4:263-274 | a release that is handed over comes from the last outstanding request of its lock |
| `HandOff.ServiceResumesExactly` | switch_code/netlock/p4src/netlock.p4:250-274 | after a hand-off with nothing recirculating, the first request to enter is granted if and only if it and the released one are shared; otherwise no later run of arrivals, push-backs, releases and passes ever gives the lock to anybody |
| `HandOff.NobodyGetsItAgain` | switch_code/netlock/p4src/netlock.p4:250-274 | an explicit run from an empty lock with three exclusive requests that ends with such a hand-off, nothing recirculating: the request in the server, and every later one, waits for ever |
| `HandOff.PacketsMayGrantExactly` | switch_code/netlock/p4src/netlock.p4:310-348 | a packet of the lock may yet grant one of at most a ring of requests that enter after a hand-off if and only if one was recirculating at that moment |
| `HandOff.LatePacketGrants` | switch_code/netlock/p4src/netlock.p4:310-348 | an explicit run in which that happens: the counts admit neither of two exclusive requests pushed back, and the late packet grants the second |
| `Controller.RegionsAreIsolated` | switch_code/netlock/controller_init/test.py:466-491 | no slot belongs to two locks, and all lie between 1 and the total |
| `Controller.Script.RegionsApart` | switch_code/netlock/controller_init/test.py:466-491 | the same of the registers a set-up leaves: no slot is between the bounds of two locks |
| `Controller.Script.InitTables` | switch_code/netlock/controller_init/test.py:464-492 | the running bound gives lock 1 the region from slot 1 on, every other lock the region right behind the one before, each as large as its empty count; registers that represent empty queues, and lists that record both |
| `Controller.Script.InitTablesUniform` | switch_code/netlock/controller_init/test.py:395-409 | the layout computed from the index gives the same, lists included, as equal shares, slots divided by locks, with a running bound |
| `Controller.Script.FailureSim` | switch_code/netlock/controller_init/test.py:563-582 | after either set-up, whatever queues, counters and entries are left, every lock is back to the empty queue of its own region and the switch serves again |
| `ClientMachine.TransmitLoop.OneTurn` | dpdk_code/client_code/client.c:458-645 | one turn of the transmit loop, over linked lists, does what the client's transition function says, packet for packet |
| `ClientMachine.ReleaseNodes` | dpdk_code/client_code/client.c:488-524 | following the pointers past the first txn_s nodes, exactly the received and unreleased grants of the list are released, in order |
| `ClientMachine.EnqueueIn` | dpdk_code/client_code/client.c:905-914 | a grant goes to the end of its own transaction's list; the nodes of all other lists stay where they are |
| `ClientInvariant.TurnKinds` | dpdk_code/client_code/client.c:479-642 | a transaction ends only with all its acquires sent and granted; it commits only if nothing of it was released before, and a turn releases nothing twice |
| `ClientInvariant.TurnDecides` | dpdk_code/client_code/client.c:479-616 | which of the five a turn is, both ways: it sends if the next row is of the current transaction; at a row of another it commits if every lock has been granted and nothing timed out, rolls back if every lock has been granted and something did, and otherwise releases what it has or waits, by the clock |
| `ClientInvariant.OthersAreSkipped` | dpdk_code/client_code/client.c:470-645 | a row that is not an acquire is passed over, sends nothing and releases nothing, and no other turn is |
| `ClientInvariant.CommitMovesOn` | dpdk_code/client_code/client.c:581-600 | a commit starts the next attempt at the row behind the committed ones, or at row 0 behind the last, and sends that row |
| `ClientInvariant.ReceiveKeepsInv` | dpdk_code/client_code/client.c:905-914 | a grant received at any moment of an attempt keeps the client's invariant |
| `ClientInvariant.AttemptReleasesExactly` | dpdk_code/client_code/client.c:481-577 | over any interleaving of grants and timeouts, the releases of an ended attempt are the grants received in it, each once, in order, as many as its acquires; a turn of it timed out if and only if it is rolled back; a commit had released none before |
| `ClientInvariant.RunStaysExact` | dpdk_code/client_code/client.c:541-577 | at every moment the first txn_s grants of the list have been released once, in order, and no other |
| `ClientInvariant.PlaysFromTheStart` | dpdk_code/client_code/client.c:79-80 | over any run of turns and grants the first acquire asked for is row 0, an attempt begins with the first row of a transaction, and what it asked for are the rows from there on in order |
| `ClientRace.RaceIsSafeExactly` | dpdk_code/client_code/client.c:481-581 | with grants arriving between the reads of txn_r in one turn, the client stays in a proper attempt if and only if the last grant does not arrive between the equality test and the less-than test; if it does, the transaction's locks are all kept and none is released |
| `Trace.BuildIsTrace` | dpdk_code/client_code/include/new_order.h:144-206 | the trace is the first request of a transaction for each object, in order; in task g exclusive if and only if some request joined to it is of type 2 or 9 |
| `Trace.AskedAreLines` | dpdk_code/client_code/include/new_order.h:153-161 | the requests are the lines that are no releases, in order, each for the line's object plus one, in task g the batch of that object plus one, in the uniform benchmark the line's draw below 7000000 plus one |
| `Trace.RowIsLine` | dpdk_code/client_code/include/new_order.h:153-192 | every row comes from such a line: its transaction, that object, that action, and its mode by the types 7, 8, 1 and 9, 2, unless in task g a later line of the same stretch of the transaction makes it exclusive |
| `Trace.RowsInOrder` | dpdk_code/client_code/include/new_order.h:144-206 | the lines the rows come from are in the order of the file |
| `Trace.LineIsKept` | dpdk_code/client_code/include/new_order.h:153-178 | every line that is no release has a row of its transaction and object, exclusive if it is of type 2 or 9 in task g; that row comes from a line with no request of another transaction between the two |
| `Trace.NoObjectTwice` | dpdk_code/client_code/include/new_order.h:163-176 | between two rows for one object the transaction id changes |
| `Trace.EveryRequestIsKept` | dpdk_code/client_code/include/new_order.h:163-178 | every request of the file has a row for its transaction and object, exclusive if it asks for that in task g |
| `Trace.UpgradeIsLostExactly` | dpdk_code/client_code/include/new_order.h:166-171 | a row has the strongest mode asked for if and only if modes are merged, its first request is exclusive, or none is |
| `Trace.UpgradeLost` | dpdk_code/client_code/include/new_order.h:166-173 | a shared request followed by an exclusive one gives a shared row outside task g, an exclusive one in it |
| `Trace.ModesExactly` | dpdk_code/client_code/include/new_order.h:184-195 | every row has one of the two modes of the switch if and only if each first request is of a known type or merged with an exclusive one |
| `Trace.NoLockTwiceExactly` | dpdk_code/client_code/client.c:463-468 | no transaction of a trace asks for a lock twice, whatever the file, if and only if there is one object to a lock |
| `Trace.RowAsksFor` | dpdk_code/client_code/client.c:463-468 | a row asks for the lock of its object's number up to extensive_locks; behind that the j-th group of obj_per_lock objects asks for lock extensive_locks + 1 + j |
| `Trace.TraceIsGood` | dpdk_code/client_code/include/new_order.h:180-204 | a file of acquires and releases whose first and last transactions differ gives a workload that satisfies what the transmit loop relies on, counts included |
| `Trace.FileIsGood` | dpdk_code/client_code/include/new_order.h:144-204 | the same said of the lines of the file: its first and last line that is no release have different transactions, and its other lines are acquires |
| `Trace.SameLock` | dpdk_code/client_code/include/new_order.h:163-176 | the backward scan over the arrays finds the row of the same transaction and object, or that there is none |
| `Trace.GetTraces` | dpdk_code/client_code/include/new_order.h:144-206 | the five arrays hold the trace; every line that is no release has a row of its transaction and its object, said by line, batch map or draw, and every row comes from such a line; locks_each_txn grows by the acquires of the trace and by nothing else |

## Left out

- SwitchRegisters.Switch.AcquirePass: takes fewer than 2^32 requests of one lock to be in the server at a time; the register would wrap otherwise. `Interleaving.TakeAll` and `SwitchFollows.Follow` take the same of their runs.
- SwitchRegisters.Switch.AcquireOrPushBack: takes that bound too, and a push-back only when a request is counted in the server (`PushBackIsCounted`).
- Refill.PushBackFindsRoom: takes rings of two slots at least, of which the server's len_in_switch is not larger, and an empty count below the register's width.
- SwitchRegisters.Switch.ReleasePass: takes the queue not to be empty and the packet's mode to be the head's, which `OnlyHoldersRelease` derives for the whole system.
- SystemTheorems.MutualExclusion: its runs end before the first hand-off and overwrite no slot that a packet in recirculation still has to read; `SerialIsReachable` does without the second.
- Controller.Script.InitTables: takes shares of fewer than 2^32 slots, which the registers' width demands; `InitTablesUniform` and `FailureSim` likewise.
- Overflow.NoOvertaking: takes the two links between switch and server to be first-in first-out.
- LinkedQueue.Queue.Dequeue: asks for a non-empty list, because the source leaves its outputs unset otherwise; freeing of nodes and failing allocation are not modelled.
- ClientMachine.TransmitLoop.OneTurn: a turn is one step; what grants arriving in the middle of it change is stated by `RaceIsSafeExactly`, and the runs of the whole system have turns of one step. A timeout is a choice instead of a clock reading.
- Trace.GetTraces: the objects drawn in the uniform benchmark are given, not random, and the file is given as its lines; read errors are not modelled.
- Ring, grant and exclusion claims after a hand-off, beyond what `HandOff` says.
- Several clients that share a transmit core and its `last_txn`: a client has its own core, as in the TPC-C set-up.
- Traces whose first and last transaction ids are equal.
- Lock modes other than shared and exclusive: `Played` counts them as exclusive, where the source sends them as they are and the switch, having no entry for them, would grant without counting them. `ModesExactly` says when a trace has none.
- Locks that live in the server only are not part of the whole-system world; `LockServer` and `Agreement` treat them one lock at a time.
- The tenant meter and rejected requests, which the client sends again.
- Changing the bounds of a ring: the dispatch is commented out, so the shrink flag is always 0.
- The client's failure detection and roll-back, and the server's clearing of queues on a failure notification.
- The synchronous mode's table of busy locks, think time, back-off after a roll-back, statistics.
- Parsing, routing, mirroring, byte order and packet layout: packets are records, and a grant reaches the client whose address it carries.
- The table of locks the switch is responsible for, and how the controller's file is chosen.
- The generation of random workloads and the batch map's file.
