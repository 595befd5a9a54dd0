# FissLock, ParLock and NetLock in Dafny

This project models the lock managers of the FissLock repository and proves what they are
for: that a lock excludes, that no request is lost or granted twice, and that programs which
are meant to do the same thing do.

`dafny verify dfyconfig.toml` checks everything.

## What is modelled

**The FissLock protocol.** A lock is split between a *decider* in the switch (registers for
free, read/write mode, agent and an 8-bit notification count) and an *agent* on one of the
hosts (mode, agent role, notification count, holders, wait queue, early releases). They talk
only through packets. `Protocol` is the transition system for one lock, any number of hosts
and any number of tasks: a task asks or releases, or the switch or a host handles one packet.
`Invariant` counts what hosts and packets hold of each kind of *item* (a waiting request, a
grant, a holder entry, a notification, the agent role, a counted notification), and the
`*Steps` modules prove that every step keeps the equations between these totals. `Safety` and
`GrantOnce` have the safety results for every state of every run. The other half is that the
protocol does serve: `Outcomes` and `Returns` say, again for every state of every run, what
comes of each request and packet (who is granted, who waits where, to whom the lock goes, what
comes back), and `QueueOrder` and `ArrivalOrder` in which order waiters are granted. What
depends on the past, as the number of times a host sent a request back or the order of arrival,
is counted along the run and not read from the hosts' fields.

The environment, as `Protocol.Enabled` and the channels state it: packets are neither lost
nor duplicated; a host's server port is a FIFO; packets to the switch and to client ports
arrive in any order; an acquisition has a fresh (host, task); only a task that holds the lock
releases it; local grants are on. A host handler is atomic, because it holds the mutex of the
lock, and so is a packet at the switch. Nothing is claimed about whether a packet is ever
delivered or a holder ever releases.

The handshake compares 8-bit counts. It is sound just as long as no positive multiple of 256
grants goes unreported when a FREE or TRANSFER reaches the switch (`CompareExactly`), so the
run results assume that (`Legal`), and `Wraparound` shows a run of two hosts that breaks
exclusion without it.

`InnetLocks.InnetLock` runs the host handlers in place and `TofinoSwitch.Tofino` and
`Bmv2Switch.Bmv2` run the two switch programs on register arrays; each is proved equal to the
functions that the protocol uses.

**One reader-preference lock, four managers.** `RwLocks` is a granted set and a waiting
sequence. ParLock's server, ParLock's local client (both in the waiters-only layout and with
holders in the queue), NetLock's primary server and FissLock's fallback for locks outside the
switch's range are classes and methods proved to implement it.

**NetLock's queue in the switch.** A ring over shared register arrays, with a release that
recirculates to grant the next run of requests (`NetLockRings`, `NetLockSwitches`); all runs of
it, with arrivals, releases and the passes of any number of recirculating releases interleaved
(`NetLockRuns`, `NetLockSafety`, `NetLockWitnesses`); and the requests that spill to the server
and come back, with their grants (`NetLockSpills`, `NetLockNotices`, `NetLockSpillWitnesses`).

**Checksums** of the frames that the BMv2 network code injects.

## Where the code does less than one would expect

- FissLock's fallback ignores the release of a waiting request, and after an exclusive
  hand-off even grants the lock again: it follows the abstract lock exactly on releases by
  holders (`Fallback.ReleaseRefinesExactly`, `Fallback.WithdrawalBreaksExclusion`).
- NetLock's primary server cannot tell a release that matches no request from a holder's: it
  ignores it exactly if the lock is not held in that mode (`NetLockServers.StrayRelease`).
  Otherwise it may grant the holder again or free the lock under a reader
  (`NetLockServers.StrayGrantsAgain`, `NetLockServers.StrayBreaksExclusion`).
- A release that recirculates in NetLock's switch reads slots. If a request is stored in a slot
  that a packet still has to read, the packet finds the wrong request, and exclusion can break
  (`NetLockWitnesses.StaleReadBreaksExclusion`). Packets find the requests they were sent for
  throughout a run exactly if no arrival does that (`NetLockSafety.ReadsOwnExactly`), and then
  two holders are always readers and no request is granted twice.
- NetLock's switch takes the head off the queue whichever reader released. Exclusion holds all
  the same, but the holders are the granted part of the leading run itself, at every state of a
  run, exactly if every release comes from the head of the queue
  (`NetLockSafety.HoldersAreRunExactly`, `NetLockWitnesses.OutOfOrder`). Looking only when
  nothing recirculates would not tell (`NetLockWitnesses.DisorderPasses`).
- A FissLock host that gets a refused TRANSFER back puts its queue behind the requests that it
  queued ahead of time since. A later writer then stands before an earlier one and is granted
  first (`Overtaking`). Wait queues stand in the order of arrival throughout a run exactly if
  every refused TRANSFER finds an empty queue and every queue that comes with the agent role
  comes to stand behind older requests (`ArrivalOrder.ArrivalOrderExactly`). Whatever the order
  is, no writer is granted before a request that stands before it (`QueueOrder`).
- A request that is pushed back into NetLock's switch while no slot is free overwrites one. That
  can happen even if every packet arrives in turn (`NetLockSpillWitnesses.PushBackOverwrites`).
  The ring is what was written into it less what was taken off, and grants go to exactly the
  requests taken off and the leading run, exactly if that does not happen
  (`NetLockSpills.RingKeepsExactly`, `NetLockSpills.GrantsFollowExactly`).
- If the notice that NetLock's ring is empty overtakes a request on its way to the server, that
  request and all later ones wait for ever (`NetLockSpillWitnesses.OvertakingStrands`,
  `NetLockNotices.StrandedForever`). If no notice does, none is ever stranded
  (`NetLockNotices.NoneStranded`).
- Comments in lib/lock.cc:517-518 and 545-548 say that the notification count is reset when the
  lock is acquired; the code does not reset it there, and the model follows the code.
- The comment in lib/lock.cc:514-516 calls a grant with mode FREE a transfer; the code tests the
  transferred bit.

## Model

| member | source | states |
|---|---|---|
| `Safety.MutualExclusionAlways` | lib/lock.cc:384-722 | in every state of every run, a request with an exclusive grant in flight or held excludes every other such request |
| `Safety.RequestsConservedAlways` | lib/lock.cc:344-378 | in every state each ungranted request is in exactly one ACQUIRE, wait queue, or TRANSFER head or payload, and nothing else is queued |
| `Safety.OneAgentAlways` | switch/p4/lock.p4:88-110 | exactly one of free switch, grant with agent, agent host, FREE/TRANSFER has the agent role; the switch names that host and has its mode |
| `Safety.AssertionsNeverFire` | lib/lock.cc:507-511 | the debug assertions on a redundant agent, a mode that is not free and the release of a free lock hold whenever they are evaluated |
| `Safety.CountAlways` | switch/p4/counter.p4:20-42 | the switch count is congruent modulo 256 to host counts, counts in FREE/TRANSFER, notifications in flight and unprocessed first grants; nothing is left over in exclusive mode |
| `Safety.CompareExactly` | switch/p4/counter.p4:33-42 | the switch accepts exactly multiples of 256 unreported notifications, and accepting means none exactly if the multiple is not positive |
| `Safety.CompareSound` | switch/p4/ingress.p4:201-206 | with fewer than 256 unreported, an accepted FREE or TRANSFER means no notification is in flight and every reader has released |
| `GrantOnce.GrantedOnceAlways` | lib/lock.cc:159-190 | in every run exactly one grant has been issued for a request that does not wait any more, by the switch, by a new agent or on the spot, and none for any other |
| `Outcomes.RequestOutcome` | lib/lock.cc:893-934 | in every state of every run a request is granted on the spot if and only if it is shared, the lock is shared and its host is the agent that the switch names; otherwise it waits, at the end of the agent's queue or in a packet to the switch |
| `Outcomes.AcquireOutcome` | switch/p4/lock.p4:34-110 | a request at the switch is granted if and only if the lock is free or both are shared; its host becomes agent, or the agent is notified, or the agent gets the request |
| `Outcomes.GiveUpOutcome` | switch/p4/ingress.p4:201-206 | a FREE or TRANSFER comes from the agent and is taken exactly if the lock was exclusive or the counts agree: the lock is free, or the next request is granted and its host agent; a refused packet goes back to its sender unchanged |
| `Outcomes.RelayOutcome` | switch/p4/ingress.p4:168-238 | a RELEASE goes to the agent and a host's grant to the host of its request, and the switch's registers stay |
| `Outcomes.LocalReleaseOutcome` | lib/lock.cc:1059-1111 | a release at the agent's host hands over exactly if no holder is left, by a TRANSFER to the first waiter with the others behind it in order, or a FREE if nobody waits |
| `Outcomes.ReleaseOutcome` | lib/lock.cc:617-672 | a RELEASE crosses off its holder; the lock is handed over, in the same form, exactly if the host has the agent role and no holder is left |
| `Outcomes.RemoteReleaseOutcome` | lib/lock.cc:1116-1123 | a release at another host sends one RELEASE to the switch and changes no host |
| `Outcomes.GrantOutcome` | lib/lock.cc:498-561 | a grant with the agent role tells its task; under a reader the transferred readers are granted at once in order and the writers queued in order, under a writer all are queued in order |
| `Outcomes.PlainGrantOutcome` | lib/lock.cc:563-588 | a grant without the role tells its task, at either port |
| `Outcomes.NotifyOutcome` | lib/lock.cc:431-457 | a notification reaches the agent, is counted, and records a holder exactly if its task has not released |
| `Returns.AskOutcome` | lib/lock.cc:436-495 | an ACQUIRE at a host without the agent role goes back to the switch unless it is exclusive and that host has sent it back three times, counted over the run; then, and at the agent, it is queued |
| `Returns.QueueWithoutRole` | lib/lock.cc:463-479 | only writers that a host has sent back three times are in its queue while it is not agent |
| `Returns.RefusedOutcome` | lib/lock.cc:677-718 | a refused FREE or TRANSFER is sent again with the added count exactly if its host has no holder and crossed one off since it lost the role; else the host is agent again with mode, count and queue |
| `QueueOrder.FirstQueuedFirst` | lib/lock.cc:344-378 | over any run from any reached state: of two requests in one wait queue, the later a writer, the later has no grant before the earlier has, across hand-over, refusal, restoring and digest |
| `QueueOrder.FirstGoesAlone` | lib/lock.cc:159-190 | in one step the later is not granted, and the earlier is granted or still before it |
| `QueueOrder.StepInTurn` | lib/lock.cc:384-722 | the same for any state of the protocol invariant |
| `ArrivalOrder.ArrivalOrderExactly` | lib/lock.cc:703-714 | in every run all wait queues stand in order of first queueing exactly if each refused TRANSFER finds an empty queue and each transferred queue that is not digested away meets only older requests |
| `ArrivalOrder.StepSortedExactly` | lib/lock.cc:694-718 | one step keeps all queues in order of arrival exactly if the queues it joins meet in order |
| `ArrivalOrder.RestoreMeets` | lib/lock.cc:703-714 | a restored queue is in order with the host's own exactly if that one is empty |
| `ArrivalOrder.EarlierGrantedFirst` | lib/lock.cc:344-378 | while queues join in order, of two requests in one queue the one that was queued first is granted first, if the other is a writer |
| `Overtaking.RestoreBreaksOrder` | lib/lock.cc:703-714 | a run of two hosts in which a restored writer comes to stand behind one that was queued ahead of time after it |
| `Overtaking.LaterGrantedFirst` | lib/lock.cc:703-714 | in any continuation of that run the later writer is granted first |
| `Safety.StepKeeps` | lib/lock.cc:384-722 | every step of a task, host or switch keeps the protocol invariant |
| `Safety.InvExcludes` | switch/p4/ingress.p4:168-238 | the invariant implies mutual exclusion |
| `EpochSteps.AcceptedEndsEpoch` | lib/lock.cc:326-341 | when the compare succeeds the agent has no holder and no grant of the epoch is outstanding |
| `EpochSteps.TransferKeeps` | switch/p4/lock.p4:55-61 | an accepted TRANSFER starts a new epoch and keeps the invariant |
| `EpochSteps.FreeKeeps` | switch/p4/lock.p4:63-67 | an accepted FREE ends the epoch and keeps the invariant |
| `EpochSteps.FirstGrantKeeps` | switch/p4/lock.p4:34-40 | the first grant of a free lock keeps the invariant |
| `SwitchSteps.MulticastKeeps` | switch/p4/lock.p4:43-48 | granting a reader by multicast, with the agent's notification, keeps the invariant |
| `SwitchSteps.RefusalKeeps` | switch/p4/ingress.p4:201-206 | sending a FREE or TRANSFER back keeps the invariant |
| `HostSteps.AcquireKeeps` | lib/lock.cc:436-495 | a delegated request, queued, bounced or appended ahead of time, keeps the invariant |
| `HostSteps.NotifyKeeps` | lib/lock.cc:431-457 | a notification keeps the invariant |
| `HostSteps.ReleaseFindsHolder` | lib/lock.cc:617-651 | a RELEASE finds its holder recorded, since its notification came before it |
| `HostSteps.ReleaseKeeps` | lib/lock.cc:590-672 | a RELEASE, with the FREE or TRANSFER it may cause, keeps the invariant |
| `HostSteps.RestoreKeeps` | lib/lock.cc:694-718 | taking a refused FREE or TRANSFER back keeps the invariant |
| `HostSteps.RetryKeeps` | lib/lock.cc:685-692 | sending a refused FREE or TRANSFER again with the new count keeps the invariant |
| `GrantSteps.PromotionKeeps` | lib/lock.cc:498-561 | becoming agent keeps the invariant |
| `GrantSteps.DigestKeeps` | lib/lock.cc:159-190 | becoming agent by a shared transfer and granting the queued readers keeps the invariant |
| `ClientSteps.RequestKeeps` | lib/lock.cc:876-934 | asking for the lock keeps the invariant |
| `ClientSteps.LocalUnlockKeeps` | lib/lock.cc:1044-1114 | releasing at the agent's host keeps the invariant |
| `ClientSteps.RemoteUnlockKeeps` | lib/lock.cc:1116-1123 | releasing at another host keeps the invariant |
| `Wraparound.UnsafeWithoutBound` | switch/p4/counter.p4:33-42 | a run of two hosts that is not within the bound and ends with a writer and 256 readers holding the lock |
| `InnetLocks.InnetLock.Process` | lib/lock.cc:384-722 | the fields, packets and notified tasks after any packet are those of the protocol's host function, of which `AskOutcome`, `ReleaseOutcome`, `GrantOutcome`, `NotifyOutcome` and `RefusedOutcome` say what comes of each packet |
| `InnetLocks.InnetLock.AcquireLock` | lib/lock.cc:876-934 | a local acquisition is the protocol's, of which `RequestOutcome` says when it is granted on the spot |
| `InnetLocks.InnetLock.Release` | lib/lock.cc:1044-1126 | a local release is the protocol's, of which `LocalReleaseOutcome` says when and to whom the lock goes |
| `InnetLocks.InnetLock.DigestWq` | lib/lock.cc:159-190 | the loop grants exactly the readers of the queue, in order, records them as holders and queues exactly the writers, in order |
| `InnetLocks.InnetLock.EraseWaiter` | lib/lock.cc:619-627 | the scan finds a queued request exactly if there is one and removes its first entry only |
| `InnetLocks.InnetLock.HandlePushBack` | lib/lock.cc:677-718 | a refused packet is sent again or restores mode, role, count and wait queue |
| `Wire.HostReadsModes` | lib/post.h:60-65 | the host macros read back the mode, old mode, granted and transferred bits as the switch header lays them out |
| `TofinoSwitch.IngressDecides` | switch/p4/ingress.p4:168-238 | on a host's packet the tables leave the decider's registers and the two multicast copies decode to the decider's deliveries |
| `TofinoSwitch.UninitIrrelevant` | switch/p4/ingress.p4:122-150 | no table outcome depends on metadata that no action wrote |
| `TofinoSwitch.Tofino.Process` | switch/p4/ingress.p4:168-238 | the sliced register files act as one record per lock, and a packet leaves the records of other locks alone; a packet of a lock out of range changes no register and leaves as one copy with the same message |
| `TofinoSwitch.OutOfRangeShows` | switch/p4/ingress.p4:193-199 | out of range a host's grant leaves for the client port of its requester and any other packet for the server port of the host in its agent field, and each decodes to the message sent |
| `TofinoSwitch.Tofino.ProcessAll` | switch/p4/ingress.p4:179-231 | over any packet sequence the three slices are one flat map on ids below 3 * 2^19 |
| `TofinoSwitch.Tofino.ApplyCounter` | switch/p4/counter.p4:14-95 | the counter table increments, compares and clears, or resets one cell and no other |
| `TofinoSwitch.Tofino.ApplyLock` | switch/p4/lock.p4:34-110 | the fission table writes one agent cell and rewrites the header by its action |
| `TofinoSwitch.SameRange` | lib/lock.cc:128-130 | the host's out-of-range test agrees with the switch's for every id |
| `TofinoSwitch.NoSharing` | switch/p4/ingress.p4:179-192 | two ids of one slice never share an index |
| `Bmv2Switch.TablesAgree` | switch/p4_bmv2/fisslock_bmv2.p4:254-377 | the counter, mode and lock tables of the two programs, entry by entry, select the same actions for every key |
| `Bmv2Switch.IngressAgrees` | switch/p4_bmv2/fisslock_bmv2.p4:390-428 | one packet leaves the same registers, header and multicast target in the BMv2 and Tofino programs; the granted bit agrees exactly if the packet came without it |
| `Bmv2Switch.RunsAgree` | switch/p4_bmv2/fisslock_bmv2.p4:192-279 | any packet sequence leaves the same registers for ids below 1024, and each packet the same header, multicast flag and target, in spite of the split compare and clear |
| `Bmv2Switch.Bmv2.Process` | switch/p4_bmv2/fisslock_bmv2.p4:390-428 | the register program computes the ingress function for its lock and changes no other lock |
| `Bmv2Switch.Bmv2.ProcessAll` | switch/p4_bmv2/fisslock_bmv2.p4:390-428 | over any packet sequence each lock's registers are those of its own packets |
| `RwLocks.AlwaysSound` | baseline/ParLock/lib/server.cc:239-285 | in every well-formed history: readers together or one writer, nobody waits for a free lock, no reader waits on readers |
| `RwLocks.Excludes` | baseline/ParLock/lib/server.cc:101-170 | two holders at a time are readers |
| `RwLocks.ServedInOrder` | baseline/ParLock/lib/lock_queue.cc:125-144 | for readers and for writers, the grants followed by the waiters are the arrivals in order, less the withdrawn ones |
| `RwLocks.GrantsExactly` | baseline/ParLock/lib/server.cc:101-170 | after any history an arrival is granted exactly if it can hold together with every holder; a release grants exactly if it is the last holder's, and then the first waiter, and with a reader all waiting readers |
| `RwLocks.OutstandingExactly` | baseline/ParLock/lib/server.cc:233-285 | after any history each request made and not released holds or waits and not both, and the holders are the earlier ones and the newly granted less the released one |
| `RwLocks.AlwaysPlaced` | baseline/ParLock/lib/server.cc:12-99 | grants go only to requests that were made, and a waiting request has none |
| `ParLocks.StateMeaning` | baseline/ParLock/lib/server.cc:239-285 | free means empty queue and zero counter; shared means the counter is the number of readers and only writers wait; exclusive means one holder, a writer |
| `ParLocks.LockQueue.EraseLockRequest` | baseline/ParLock/lib/lock_queue.cc:154-194 | removes the first match, with the return value of either layout |
| `ParLocks.LockQueue.DequeueSharedRequests` | baseline/ParLock/lib/lock_queue.cc:125-144 | a stable partition: returns exactly the readers in order, leaves exactly the writers in order |
| `ParLocks.LockQueue.GetSharedRequests` | baseline/ParLock/lib/lock_queue.cc:145-153 | returns exactly the readers in order |
| `ParLocks.LockQueue.ServerExclusiveLock` | baseline/ParLock/lib/server.cc:12-33 | the abstract acquisition, in both layouts |
| `ParLocks.LockQueue.ServerSharedLock` | baseline/ParLock/lib/server.cc:57-79 | the abstract acquisition, in both layouts |
| `ParLocks.LockQueue.ServerExclusiveUnlock` | baseline/ParLock/lib/server.cc:101-170 | the abstract release or withdrawal, in both layouts |
| `ParLocks.LockQueue.ServerSharedUnlock` | baseline/ParLock/lib/server.cc:233-285 | the abstract release or withdrawal, in both layouts; no abnormal condition is reported |
| `ParLocks.LockQueue.AcquireLockLocal` | baseline/ParLock/lib/client.cc:8-57 | the client's own branches make the abstract acquisition in both layouts; a granted requester is woken |
| `ParLocks.LockQueue.ReleaseLockLocal` | baseline/ParLock/lib/client.cc:103-229 | the client's own branches make the abstract release or withdrawal in both layouts; next holders are woken or sent a packet by host, in order; no abnormal condition is reported |
| `ParLocks.ExclusiveUnlockCases` | baseline/ParLock/lib/server.cc:106-170 | the handler's tests tell holder from waiter in both layouts, and the hand-off represents the abstract one |
| `ParLocks.SharedUnlockCases` | baseline/ParLock/lib/server.cc:238-285 | the same for a reader; the head left behind is never a reader |
| `ParLocks.ServeBoth` | baseline/ParLock/lib/lock_queue.cc:154-194 | on every well-formed history the two layouts grant the same requests in the same order at every step, those of the abstract lock |
| `ParLocks.ServesInOrder` | baseline/ParLock/lib/server.cc:101-170 | a manager that issues the abstract grants at every step, as the outputs of `ServeBoth` and `ServeAll` are, serves readers and writers each in order of arrival: its grants, one after the other, then the waiters of that mode |
| `NetLockServers.RequestQueue.EraseLockRequest` | baseline/NetLock/lib/request.cc:140-153 | removes the first match; the result is its index, or 0 if there is none |
| `NetLockServers.RequestQueue.PrimaryAcquire` | baseline/NetLock/lib/lock_server.cc:40-78 | the fields and grants of any acquisition; for a new request they are the abstract ones |
| `NetLockServers.RequestQueue.PrimaryRelease` | baseline/NetLock/lib/lock_server.cc:83-171 | for an outstanding request the abstract release or withdrawal, and the sequence number advances exactly when the lock becomes free |
| `NetLockServers.PrimaryReleaseRefines` | baseline/NetLock/lib/lock_server.cc:86-166 | the server's tests decide the release of an outstanding request as the abstract lock does |
| `NetLockServers.PrimaryAcquireRefines` | baseline/NetLock/lib/lock_server.cc:40-78 | enqueueing first and granting by the state is the abstract acquisition |
| `NetLockServers.StrayRelease` | baseline/NetLock/lib/request.cc:148-152 | a release that matches no request is ignored exactly if the lock is not held in its mode |
| `NetLockServers.StrayGrantsAgain` | baseline/NetLock/lib/lock_server.cc:126-142 | a writer holds and another waits: a stray exclusive release grants the holder a second time |
| `NetLockServers.StrayBreaksExclusion` | baseline/NetLock/lib/lock_server.cc:86-121 | a reader holds: after a stray shared release the next writer is granted beside it |
| `NetLockServers.RequestQueue.SecondaryRelease` | baseline/NetLock/lib/lock_server.cc:189-208 | pushes back the first min(server length, switch length) requests in order and keeps the rest |
| `Fallback.HandleAcquireLm` | lib/lock.cc:264-292 | new fields and grant of a fallback acquisition |
| `Fallback.HandleReleaseLm` | lib/lock.cc:296-323 | new fields of a fallback release, and when the caller must reply |
| `Fallback.ReleaseOf` | lib/lock.cc:597-615 | a release with the caller's reply to the head of the queue |
| `Fallback.AcquireRefines` | lib/lock.cc:264-292 | a fallback acquisition is the abstract one |
| `Fallback.ReleaseRefines` | lib/lock.cc:296-323 | a holder's release is the abstract one, though an exclusive holder may not be recorded |
| `Fallback.ReleaseRefinesExactly` | lib/lock.cc:296-323 | among outstanding requests the release follows the abstract lock exactly if the request is a holder |
| `Fallback.WithdrawalBreaksExclusion` | lib/lock.cc:1018-1037 | three writers, the third of which gives up waiting and is granted the lock that the second holds |
| `Fallback.ServeAll` | lib/lock.cc:597-615 | on every well-formed history without withdrawals ParLock's server code, ParLock with the client's code for local requests, NetLock primary and the fallback issue the same grants at every step |
| `NetLockRings.EnqueueAppends` | baseline/NetLock/switch/p4/ingress.p4:96-155 | with a free slot, storing appends to the queue that the ring stands for, and grants exactly a reader without queued writers or a writer without queue |
| `NetLockRings.ReleasePops` | baseline/NetLock/switch/p4/ingress.p4:960-991 | the first pass takes the head off the queue, keeps the counts true, and asks the server exactly if the queue is empty |
| `NetLockRings.PushBackExactly` | baseline/NetLock/switch/p4/ingress.p4:111-120 | a pushed back request is appended exactly if a slot is free, and granted exactly if it is a reader without queued writers or a writer without queue |
| `NetLockRings.RunAppend` | baseline/NetLock/switch/p4/ingress.p4:122-144 | a request joins the leading run exactly when the counts grant it |
| `NetLockSwitches.Registers.AcquireLock` | baseline/NetLock/switch/p4/ingress.p4:434-495 | the register actions compute the ring function of their lock and leave the queues of other locks alone |
| `NetLockSwitches.Registers.ReleasePass` | baseline/NetLock/switch/p4/ingress.p4:960-998 | likewise for the first pass of a release |
| `NetLockSwitches.Registers.RecirculatedPass` | baseline/NetLock/switch/p4/ingress.p4:1028-1069 | one later pass grants and continues as the ring function says |
| `NetLockSwitches.Registers.ReleaseLock` | baseline/NetLock/switch/p4/ingress.p4:960-1071 | with all its passes a release takes the head off and, unless readers of its run remain, grants exactly the new leading run in order; it ends |
| `NetLockRuns.StepKeeps` | baseline/NetLock/switch/p4/ingress.p4:960-1071 | an arrival that spares the slots still to be read, any release by a holder and any pass keep the invariant of ring, packets, grants and holders |
| `NetLockRuns.PassReads` | baseline/NetLock/switch/p4/ingress.p4:1028-1064 | a pass reads the request its packet was sent for, grants it exactly if the packet is to grant it, and goes on exactly after a reader before the tail |
| `NetLockRuns.ClosedRun` | baseline/NetLock/switch/p4/ingress.p4:960-991 | a release that ends a run finds every earlier request granted and released, and no packet still to grant anything |
| `NetLockRuns.LaunchWants` | baseline/NetLock/switch/p4/ingress.p4:1041-1063 | the packet that a release sends round is to grant exactly the new leading run, or nothing if readers of the old one remain |
| `NetLockRuns.ArriveIntactExactly` | baseline/NetLock/switch/p4/ingress.p4:146-155 | an arrival leaves every packet the requests it was sent for exactly if it spares their slots |
| `NetLockSafety.ReadsOwnExactly` | baseline/NetLock/switch/p4/ingress.p4:146-155 | over a run packets find the requests they were sent for exactly if every arrival spares the slots still to be read |
| `NetLockSafety.MutualExclusion` | baseline/NetLock/switch/p4/ingress.p4:122-144 | in every state of such a run two holders are readers, whatever order holders release in and whatever recirculates |
| `NetLockSafety.GrantedExactlyOnce` | baseline/NetLock/switch/p4/ingress.p4:1028-1064 | the ring is the FIFO of the requests not taken off, and a request has one grant if it is before the end of the leading run and no packet is still to grant it, else none |
| `NetLockSafety.HeldMatchesRun` | baseline/NetLock/switch/p4/ingress.p4:484-494 | holders and requests still to be granted are together as many as the leading run, and the holders have its mode |
| `NetLockSafety.HoldersAreRunExactly` | baseline/NetLock/switch/p4/ingress.p4:558-592 | at every state of a run the holders are the granted part of the leading run exactly if every release comes from the head of the queue |
| `NetLockWitnesses.StaleReadBreaksExclusion` | baseline/NetLock/switch/p4/ingress.p4:1028-1064 | a run in which an arrival is stored where a late packet is to read, and the packet grants a reader while a writer holds |
| `NetLockWitnesses.OutOfOrder` | baseline/NetLock/switch/p4/ingress.p4:558-568 | two readers of which the second releases first: the first holds the lock, the queue keeps the second |
| `NetLockWitnesses.DisorderPasses` | baseline/NetLock/switch/p4/ingress.p4:558-568 | once the first has released too and nothing recirculates, no trace is left of that order |
| `NetLockSpills.SpillAccounting` | baseline/NetLock/switch/p4/ingress.p4:96-120 | in every run the register counts exactly the requests on their way to the server, queued there and on their way back, and each arrival was written into the ring once or is one of them |
| `NetLockSpills.RingKeepsExactly` | baseline/NetLock/switch/p4/ingress.p4:111-120 | throughout a run of releases by holders the ring is what was written into it less what was taken off exactly if every push-back finds a free slot |
| `NetLockSpills.StoredExactly` | baseline/NetLock/switch/p4/ingress.p4:96-109 | in every run an arrival is written into the ring exactly if a slot is free and no request is outside the switch, else it goes to the server |
| `NetLockSpills.GrantsFollowExactly` | baseline/NetLock/switch/p4/ingress.p4:434-495 | throughout a run of releases by holders the grants go, in order, to exactly the requests taken off and the leading run, and a request written on arrival or by push-back is granted at once exactly if it joins that run, if and only if every push-back finds a free slot |
| `NetLockSpills.HeadGranted` | baseline/NetLock/switch/p4/ingress.p4:484-494 | the head of a queue that is not empty has its grant |
| `NetLockNotices.NoneStranded` | baseline/NetLock/switch/p4/ingress.p4:975-989 | if no notice overtakes a request, and the server takes the ring to have a slot, then while the ring is empty the requests outside the switch are on their way back or a notice that will find one is on its way |
| `NetLockNotices.StrandedForever` | baseline/NetLock/lib/lock_server.cc:189-208 | with an empty ring, requests at the server and nothing on its way back, no request is ever written or granted again, since nobody is left to release |
| `NetLockSpillWitnesses.OvertakingStrands` | baseline/NetLock/lib/lock_server.cc:189-208 | a run in which a notice overtakes a request and the lock ends in that state |
| `NetLockSpillWitnesses.PushBackOverwrites` | baseline/NetLock/switch/p4/ingress.p4:441-450 | two slots, every packet in turn: two batches overlap and the last push-back overwrites a request that holds the lock |
| `NetLockSpills.ArrivalOrder` | baseline/NetLock/lib/lock_server.cc:176-208 | with packets in order, requests enter the ring in order of arrival, by the server or not |
| `Checksums.ChecksumFold` | lib/bmv2/bmv2_net.cc:83-88 | folding ends and yields the 16-bit value congruent modulo 0xFFFF, zero only for zero |
| `Checksums.OnesSumIsResidue` | lib/bmv2/bmv2_net.cc:83-88 | the end-around-carry sum of RFC 1071 is the folded plain sum |
| `Checksums.SumWords` | lib/bmv2/bmv2_net.cc:99-121 | the 32-bit loop computes the exact sum of the words, odd byte padded, without overflow |
| `Checksums.SumPseudoHeader` | lib/bmv2/bmv2_net.cc:108-114 | the sum over the pseudo header of RFC 768 |
| `Checksums.FixIpv4UdpChecksums` | lib/bmv2/bmv2_net.cc:91-128 | after the fix a receiver's sums over IP header and pseudo header with datagram are 0xFFFF, the UDP checksum is not zero, and no other byte changed |

## Left out

- Failure recovery (lib/lock.cc:1128-1252, lib/fault.cc, rpc/main.cc).
- Aborts of waiting tasks in the FissLock agent: a release is only made by a task that holds the lock.
- The `FISSLOCK_BMV2` and `TPCC_ENB_LOCAL` blocks of lib/lock.cc, and the mode without local grants.
- That packets are delivered and holders release, and with it liveness of the protocol: an agent can sit idle after an early release.
- Safety.CountAlways: the host's 32-bit notification count is an unbounded number; only its low eight bits are sent.
- TofinoSwitch.IngressDecides: host ids fit the multicast groups (1 to 127), and the agent register is zero exactly for a free lock, which the protocol invariant keeps.
- Bmv2Switch.IngressAgrees: packet emission and the fixed multicast ports of BMv2 are not compared.
- Wire.HostReadsModes: byte order and the layout of the other header fields are not modelled.
- Packing of (host, task) into one integer, with tasks below 2^30 (lib/lock.h:59-63): identities are pairs.
- The limit on the length of a transferred wait queue (lib/lock.cc:1100-1101).
- ParLock's branches without `PARLOCK_READER_FIRST`, and NetLock's exclusive counter, tickets and payloads, which these paths do not read.
- NetLockSafety.MutualExclusion: for runs in which no arrival is stored in a slot that a recirculating packet still has to read; the condition is exact for what packets read, not for exclusion, since a wrong read need not do harm.
- NetLockSwitches.Registers.AcquireLock: the registers are unbounded numbers, so counts beyond 2^32 are not modelled, and the queue size option is the zero that the control plane writes.
- NetLockSpills.RingKeepsExactly: releases are taken to be in the mode of the head, as those of holders are; the passes of a release are one step here, and interleaved only in `NetLockRuns`.
- Timers, statistics, DPDK and pcap input and output, RPC, the Java sidecar, control-plane set-up, traces and scripts.
