# Cluster locking: models and proofs

The repository is a Linux kernel tree in which the distributed lock manager (`fs/dlm`) and the two cluster file
systems above it (`fs/gfs2`, `fs/ocfs2`) have been extended by "self-owner" locks: a node that creates a file
becomes master of its lock at once and only announces it to the directory. This project models the state machines
that decide who may touch what, and proves what they are for: two owners never hold incompatible locks.

There are four parts, and each builds on a small set of functions that say what one step does.

**The lock manager, one resource on its master.** `Modes` has the compatibility table, `Resource` the three queues and
the four operations as functions, and `Engine` the lock block and the resource block as classes with mutable fields,
lists and loops, proved to compute exactly those functions. On them are proved: pairwise compatibility for every flag
(`Shape`, `Safety`), what an operation does to the *other* locks (`Evolution`, `Operations`), that one call of
`grant_pending_locks` reaches a fixpoint, for every flag (`Quiescence`), exactly when an operation loses a grant, for
every flag (`NoLostGrant`), exactly which conversions can make an owner lose its lock (`KeptLocks`, `LostLocks`), that
no conversion deadlock is ever queued and that locks are served in order (`Order`), that nobody changes places on a
queue (`Places`), what an operation answers, said by modes and flags alone without the granting predicate (`Answers`),
and all of this over every run (`Runs`, `Turns`).

**The lock manager, between nodes.** `Wire` adds any number of nodes with process copies and ordered channels to the
master of `Resource`, with requests, conversions, unlocks and cancels that may cross the grants they come too late
for; `WirePhases` is the list of phases a single lock can be in; `WireSafety` proves mutual exclusion in the whole
cluster, and what a node has been told, which is how far it may trust its copy, `AltLimits` exactly which requests and
conversions with alternative modes break it, `CancelLimits` exactly which cancels do, and `UsableLimits` why a lock
does not count as usable while certain requests for it are outstanding. `Directory` is the protocol that decides who
the master is, with lookups, removals, recreation and announcements; `DirectorySafety` proves that there is never more
than one master as long as nobody else asks for a new name while its announcement is on the way, and that this rule
cannot be relaxed; `DirectoryRecord` proves the other direction, that the record is true and is erased when the master
gives up; `Children` proves that the counter in the parent's lock is enough to keep other nodes away from a name that
is still being announced. `Waiters` is the account of outstanding replies.

**GFS2.** `Recovery` is the account of journals to recover (a class over the three arrays, with the loops of the
control function), `JournalSafety` the protocol of all nodes over the shared value block, and `JournalLaws` what each
of their steps does to the journals' bits, said without the functions of `Recovery`. `Glock` is the glock state
machine (a class), `GlockSafety` its invariant over every run, and `GlockLaws` what no step loses: wishes, waiting
holders, answers.

**OCFS2.** `LockRes` is the lock resource and its critical sections (a class), `LockResSafety` every interleaving of
local users, callbacks and the downconvert thread, and `LockResLaws` what becomes of wishes, users and requests in
them.

Concurrency is modelled as a relation over steps, each as long as the source holds the lock that makes it atomic.
Timers, hold times and the unseen parts of a file system are nondeterministic choices. A step relation has no
fairness: everything here is safety, plus the termination of the loops, which Dafny requires.

## What turned out false

- Alternative modes on a conversion: the reply to a conversion does not make the requesting node adopt the
  alternative, so it believes in the mode it asked for. Mutual exclusion holds in every run with conversions to a
  mode with given flags exactly if the flags name no alternative for the mode or the mode is weaker than CW
  (`AltLimits.ConversionsAreSafeExactly`); every other conversion has a run that breaks it
  (`AltLimits.AltConversionBreaksExclusion`).
- Both alternative modes on a request for PR: the master grants CW, the node adopts PR. Mutual exclusion holds in
  every run with given requests exactly if they are not of this kind (`AltLimits.RequestsAreSafeExactly`), and each
  that is has a run that breaks it (`AltLimits.AltRequestBreaksExclusion`).
- An alternative mode that the lock already has, granted from the convert queue, leaves the lock there to be granted
  again in no mode at all. Conversions to a mode with given flags make nobody lose a lock, in any run, exactly if they
  name no alternative that could take the place of the mode, or have NOQUEUE or CONVDEADLK, or do not have NODLCKWT
  (`LostLocks.ConversionsKeepLocksExactly`); for every other conversion there is a run in which its owner loses the
  lock (`LostLocks.QueuedAlternativeLosesTheLock`).
- The master may demote a conversion with CONVDEADLK while it is queued, and tells nobody. If the node then cancels the
  conversion, it goes back to a mode the master has taken away, and another owner may hold EX. Cancelling queued
  conversions to a mode with given flags is safe, in every run, exactly if the flags do not have CONVDEADLK or the
  mode is CR or weaker (`CancelLimits.CancelsAreSafeExactly`); for every other conversion there is a run in which a
  cancel breaks mutual exclusion (`CancelLimits.CancelBreaksExclusion`).
- HEADQUE without NOORDER on a request can leave a grantable lock on a queue
  (`NoLostGrant.JumpingAheadLosesAGrant`), and so can a demotion that frees a NOORDER waiter
  (`NoLostGrant.DemotionLosesAGrant`). The exact conditions, for all flags, are in `NoLostGrant.RequestQuietExactly`
  and `NoLostGrant.ConvertQuietExactly`, and for whole runs in `Runs.RunsAreQuietExactly`; a condition on the flags
  alone under which nothing is lost is that of `NoLostGrant.RequestQuiet` and `NoLostGrant.ConvertQuiet`. What was
  lost is found by the next operation that re-examines the queues (`Runs.LostGrantsAreFound`).
- A confirmation that arrives twice makes the count of waiting replies wrong (`Waiters.RemovedAccountsExactly`).
- A second node that looks a new name up before the announcement arrives becomes a second master, whatever the
  directory, the creator and the second node are (`DirectorySafety.TooEarlyMeansTwoMasters`). In any state of any run
  it is safe to ask exactly if the announcement is not on its way or the creator itself asks
  (`DirectorySafety.AskIsSafeExactly`); the parent's lock is what keeps others from asking.
- A wish of another node that already suits the level kills the downconvert thread (`LockResSafety.SurpriseKills`);
  if none arrives, nothing does (`LockResSafety.TimelyRunsNeverDie`).
- A glock holder that any state would do for lets in holders behind it for which the state is not enough. A request
  does that in some run exactly if it has `LM_FLAG_ANY` and not `GL_EXACT` (`GlockSafety.RequestsCoverExactly`, with
  `GlockSafety.AnyLetsOthersIn` for every such request and `GlockSafety.HoldersStandTogether` for the others).

## Where code and documentation disagree

- The comment at `fs/dlm/lock.c:1380` says that granted locks are kept in order of granted mode; the code compares
  the requested mode of the entries (`fs/dlm/lock.c:1350`). The model does what the code does and claims no order.
- `fs/gfs2/glock.h:66-69` says that a request with `LM_FLAG_ANY` may be granted in another state; `do_xmote` removes
  the flag before it calls the lock manager (`fs/gfs2/glock.c:684`), so only a state that is already held is used.

## Model

| member | source | states |
|---|---|---|
| Modes.MatricesAgree | fs/dlm/lock.c:110-166 | the closed forms used in every proof are the two tables of the source, entry by entry |
| Modes.StrengthIsNumeric | fs/dlm/lock.c:269-280 | one mode is never more restrictive than another exactly when it is numerically no higher, middle pair apart |
| Engine.Rsb.QueueConflict | fs/dlm/lock.c:2013-2024 | the walk answers whether another lock on the list holds a mode incompatible with the one asked for |
| Engine.Rsb.ConversionDeadlockDetect | fs/dlm/lock.c:2067-2088 | the walk with its ahead flag finds a deadlock exactly when the recursive definition does |
| Engine.Rsb.CanBeGrantedNow | fs/dlm/lock.c:2106-2250 | the cascade of rules, on the real lists, decides the granting predicate, whose answers `Answers` pins by modes and flags alone |
| Engine.Rsb.CanBeGranted | fs/dlm/lock.c:2252-2309 | verdict, deadlock report, demotion and alternative mode together; nothing else on the lists changes |
| Engine.Rsb.LkbAddOrdered | fs/dlm/lock.c:1344-1358 | the position found is before the first entry whose requested mode is lower |
| Engine.Rsb.AddLkb | fs/dlm/lock.c:1362-1394 | the block ends on the list its status names and on no other; the lists still match all status words |
| Engine.Rsb.DelLkb | fs/dlm/lock.c:1396-1401 | the block is on no list afterwards and every other one stays where it was |
| Engine.Rsb.GrantLock | fs/dlm/lock.c:1923-1935 | a lock granted another mode moves to the granted list in its place; one granted the mode it has stays where it is |
| Engine.Rsb.RevertLock | fs/dlm/lock.c:1891-1916 | the three outcomes of giving up a request, by the list the lock is on |
| Engine.Rsb.GrantPendingConvert | fs/dlm/lock.c:2314-2381 | the restart loop terminates and computes the iterated walk, with the list of locks granted in order |
| Engine.Rsb.GrantPendingWait | fs/dlm/lock.c:2383-2401 | the single walk over the wait list |
| Engine.Rsb.GrantPendingLocks | fs/dlm/lock.c:2422-2456 | both walks, conversions first |
| Engine.Rsb.DoRequest | fs/dlm/lock.c:2924-2945 | the new lists and the return code of a request, as the operation on queues defines them |
| Engine.Rsb.DoConvert | fs/dlm/lock.c:2961-3013 | the same for the first half of a conversion, with the grants made before the reply; the code is the one of `Answers.ConvertAnswer` |
| Engine.Rsb.ConvertLock | fs/dlm/lock.c:3015-3031 | a conversion with its busy check and its effects: grants before and after the reply |
| Engine.Rsb.UnlockLock | fs/dlm/lock.c:3033-3044 | the lock is gone and the queues are re-examined |
| Engine.Rsb.CancelLock | fs/dlm/lock.c:3048-3065 | what was asked for is given up and the queues are re-examined if that changed them |
| Resource.ConvertStep | fs/dlm/lock.c:2318-2378 | each grant uses up some of the work left on the convert queue, which is why the restart loop ends |
| Safety.VerdictFits | fs/dlm/lock.c:2106-2250 | a positive verdict means the granted mode suits every other holder, also for the shortcut and alternative modes |
| Safety.SettleAllSafe | fs/dlm/lock.c:2422-2456 | re-examining the queues keeps holders pairwise compatible and takes nothing away from holders |
| Runs.EveryRunIsSafe | fs/dlm/lock.c:2924-3065 | over every run and all flags: holders pairwise compatible, every lock on one queue only |
| Operations.RequestEvolves | fs/dlm/lock.c:2924-2945 | the outcomes of a request for its own lock, and that no other lock is touched |
| Operations.StuckMeansDeadlock | fs/dlm/lock.c:2067-2088 | a holder of CW or PR that has to wait because others are queued is in a deadlock with one of them, provided somebody on the queue conflicts with a holder |
| Operations.ConvertEvolves | fs/dlm/lock.c:2961-3031 | the outcomes of a conversion that keeps its lock; every other lock is left alone or granted and reported once |
| Operations.UnlockEvolves | fs/dlm/lock.c:3033-3044 | the lock is gone; every other lock is left alone or granted and reported once |
| Operations.CancelEvolves | fs/dlm/lock.c:3048-3065 | the three outcomes of a cancel by where the lock is; every other lock is left alone or granted and reported once |
| Operations.DownConversionIsImmediate | fs/dlm/lock.c:3549-3564 | a conversion to a weaker mode is granted at once whatever is on the queues, so no reply is needed |
| Evolution.SettleAllEvolves | fs/dlm/lock.c:2314-2456 | queued locks are granted only in a mode their owner agreed to, each reported exactly once, unless a queued conversion names the mode it has as its alternative |
| Evolution.PlainIsGrantedAsAsked | fs/dlm/lock.c:2287-2306 | a conversion that names no alternative, or is to a mode weaker than CW, is granted in the mode asked for or not at all |
| Quiescence.SettleAllQuiet | fs/dlm/lock.c:2314-2456 | after one call nothing on either queue is grantable, for all flags (of a tidy resource, which every run leads to), although the wait queue is walked once |
| Quiescence.GrantKeepsBlocked | fs/dlm/lock.c:2383-2401 | a grant adds conflicts only, and gives no skipped waiter a better position |
| NoLostGrant.RequestQuiet | fs/dlm/lock.c:2924-2959 | a request leaves no grantable lock behind |
| NoLostGrant.ConvertQuiet | fs/dlm/lock.c:2961-3031 | nor does a conversion with its effects, demotion included, if its flags are orderly and no demotion meets a waiter that ignores the order |
| NoLostGrant.UnlockQuiet | fs/dlm/lock.c:3033-3044 | nor an unlock |
| NoLostGrant.CancelQuiet | fs/dlm/lock.c:3048-3065 | nor a cancel |
| NoLostGrant.RequestQuietExactly | fs/dlm/lock.c:2222-2248 | a request leaves a grantable lock behind exactly when it is put at the head of waiters it does not conflict with |
| NoLostGrant.JumpingAheadLosesAGrant | fs/dlm/lock.c:1374-1378 | a concrete resource where that happens |
| NoLostGrant.ConvertQuietExactly | fs/dlm/lock.c:2961-3031 | for all flags: a conversion with its effects leaves a grantable lock behind exactly when it is neither granted nor refused and is free to go from the queue, or its demotion freed it or a waiter that ignores the order |
| NoLostGrant.QueuedSelfExactly | fs/dlm/lock.c:2193-2215 | a lock put on the convert queue is grantable there exactly if, before, nothing stood in its way or in that of its alternative and its place would be foremost |
| NoLostGrant.DemotionLosesAGrant | fs/dlm/lock.c:2992-2999 | a concrete resource where a demotion frees such a waiter and nobody looks at it |
| Runs.NoGrantIsEverLost | fs/dlm/lock.c:2924-3065 | over every orderly run nothing that is queued could be granted |
| Runs.RunsAreQuietExactly | fs/dlm/lock.c:2924-3065 | over every run and all flags nothing that is queued could ever be granted exactly if no operation of the run loses a grant |
| Runs.LostGrantsAreFound | fs/dlm/lock.c:2422-2456 | over every run and all flags an unlock, a cancel that takes something back, or a granted conversion leaves nothing queued that could be granted |
| Runs.EveryRunIsTidy | fs/dlm/lock.c:2924-3065 | over every run and all flags a queued conversion may be queued and asks for something it has not |
| Runs.EveryKeepingRunIsSound | fs/dlm/lock.c:2924-3065 | over every run of conversions that keep their lock every holder has a mode, and somebody on a non-empty convert queue conflicts with another holder |
| LostLocks.ConversionsKeepLocksExactly | fs/dlm/lock.c:2252-2309 | nobody loses a lock through conversions to a mode with given flags, in any run, exactly if they keep their lock: a condition on mode and flags |
| LostLocks.QueuedAlternativeLosesTheLock | fs/dlm/lock.c:1923-1935 | every other conversion has a run in which an alternative granted in place is granted again from the queue, in no mode |
| Order.NoQueuedDeadlock | fs/dlm/lock.c:2026-2088 | on an ordered queue no conversion is in a deadlock, and the head is not blocked by the queue |
| Order.ConvertOrdered | fs/dlm/lock.c:2961-3013 | a conversion that would close a deadlock is not queued, so the queue stays ordered |
| Runs.NoConversionDeadlockIsQueued | fs/dlm/lock.c:2314-2381 | over every run the pending demotions and deadlocks the source warns about cannot happen |
| Order.SettleAllInOrder | fs/dlm/lock.c:2314-2401 | exactly a prefix of the line is served: conversions first, each queue in order of arrival |
| Order.RequestWaitsItsTurn | fs/dlm/lock.c:2222-2233 | a new request is granted at once only when nobody is queued |
| Turns.NobodyIsEverOvertaken | fs/dlm/lock.c:2193-2401 | over every run without the flags that ask for it nobody in line is overtaken |
| Turns.QuecvtWaitsItsTurn | fs/dlm/lock.c:2198-2203 | over every run of conversions that keep their lock, one with QUECVT is granted at once only if everybody on the convert queue is granted before it; without CONVDEADLK, only if nobody is on it |
| Answers.QuecvtWaits | fs/dlm/lock.c:2193-2215 | the same for any sound resource |
| Answers.RequestAnswer | fs/dlm/lock.c:2924-2945 | what a request is answered, for all flags: granted exactly if it has EXPEDITE, or may go ahead of whoever is queued and no holder is in the way of its mode or of its alternative; refused or queued exactly as NOQUEUE says, and at which end of the queue |
| Answers.ConvertAnswer | fs/dlm/lock.c:2961-3013 | the exact return code of every conversion that cannot be demoted: granted exactly if it is its turn and no holder is in the way, or its alternative steps in; else -EAGAIN exactly if NOQUEUE; else -EDEADLK exactly if a queued conversion waits for the mode it has and NODLCKWT is not given; else queued |
| Answers.DemotableAnswer | fs/dlm/lock.c:2267-2285 | a conversion with CONVDEADLK is never refused; queued, it has lost its mode exactly if somebody queued waited for it |
| Places.NobodyChangesPlaces | fs/dlm/lock.c:1362-1394 | over every run and all flags those who stay on a queue stay in their order, and whoever joins stands last or, with HEADQUE, first |
| Places.SettleAllCalm | fs/dlm/lock.c:2314-2381 | after the queues have been re-examined no lock that may be demoted is in a deadlock with another queued conversion |
| WirePhases.MasterConvertInPhase | fs/dlm/lock.c:4049-4103 | the master's answer to a conversion, or its silence, leaves the two copies in one of the listed phases |
| WirePhases.ReceiveInPhase | fs/dlm/lock.c:4193-4222 | so does every message a node receives |
| WirePhases.ConvertReceives | fs/dlm/lock.c:4487-4529 | the five results of a conversion on the process copy, with the mode, the flags and what is asked for that each leaves, a reported demotion included |
| WirePhases.RequestReceives | fs/dlm/lock.c:4403-4428 | the results of a request on the process copy |
| WirePhases.SendConvertInPhase | fs/dlm/lock.c:3549-3564 | a down-conversion is complete at the sender while the message is still on its way |
| WirePhases.MasterCancelInPhase | fs/dlm/lock.c:4157-4191 | a cancel finds the lock queued and takes it back, or granted and leaves it alone; the reply leaves both copies in phase |
| WirePhases.CancelReceives | fs/dlm/lock.c:4622-4658 | a grant that crosses a cancel, and the two results of a cancel, on the process copy |
| WireSafety.StepKeepsInv | fs/dlm/lock.c:3970-4222 | every step of any node keeps every lock of the cluster in phase |
| WireSafety.ClusterWideMutualExclusion | fs/dlm/lock.c:3549-4675 | at every moment of every run, cancels included, any two usable locks on any nodes are held in compatible modes |
| WireSafety.CopiesAgree | fs/dlm/lock.c:3970-4605 | with nothing outstanding, process copy and master copy agree in status, modes and flags, except for a demotion after the last message the node had, and one exists exactly if the other does |
| WireSafety.NoMessageIsLost | fs/dlm/lock.c:4049-4147 | the error branches for an unknown or busy lock are never taken, and no node hears of a lock it no longer has |
| WireSafety.HeldIsBacked | fs/dlm/lock.c:4049-4103 | a process copy is never stronger than its master copy |
| WireSafety.ToldMeansNull | fs/dlm/lock.c:4502-4509 | over every run a node that was told that its queued conversion was demoted holds nothing, from that message to the next one |
| WireSafety.ToldIsBacked | fs/dlm/lock.c:1971-1980 | ... so that its copy is no stronger than the master's until then, unless it has sent the unlock |
| WireSafety.RepliesTellOfDemotions | fs/dlm/lock.c:4049-4103 | over every run a reply that a conversion is queued says that it was demoted exactly as the master has it: null mode if it says so, and else the mode the node knows |
| WireSafety.MessagesAreFollowed | fs/dlm/lock.c:4365-4658 | over every run, every message of the master leaves on the process copy what its result means, result by result |
| WireSafety.SendsAreNoted | fs/dlm/lock.c:3549-3578 | over every run, what is sent is noted: what needs an answer waits for it, and a down-conversion is complete |
| AltLimits.AlternativesAgreeExactly | fs/dlm/lock.c:1982-1999 | the two ends compute the same alternative mode exactly when a request for PR does not name both |
| AltLimits.RequestsAreSafeExactly | fs/dlm/lock.c:1982-1999 | mutual exclusion survives requests in a mode with given flags, in every run, exactly if they do not ask for PR and name both alternatives |
| AltLimits.AltRequestBreaksExclusion | fs/dlm/lock.c:2287-2306 | every request for PR that names both has a run in which it makes two nodes hold CW and PR |
| AltLimits.ConversionsAreSafeExactly | fs/dlm/lock.c:4487-4529 | mutual exclusion survives conversions to a mode with given flags, in every run, exactly if no alternative is named or the mode is weaker than CW |
| AltLimits.AltConversionBreaksExclusion | fs/dlm/lock.c:4512-4520 | every other conversion has a run in which it makes two nodes hold incompatible modes |
| CancelLimits.CancelsAreSafeExactly | fs/dlm/lock.c:4622-4658 | mutual exclusion survives the cancels of queued conversions to a mode with given flags, in every run, exactly if the flags do not allow a demotion or the mode is CR or weaker |
| CancelLimits.CancelBreaksExclusion | fs/dlm/lock.c:2267-2285 | every other conversion has a run in which the node goes back to CR while another owner holds EX |
| UsableLimits.UnlocksAreNotUsable | fs/dlm/lock.c:4105-4147 | a legal run in which another node holds EX while the unlock of a PR lock is unanswered |
| UsableLimits.MiddleConversionsAreNotUsable | fs/dlm/lock.c:269-275 | one in which another node holds CW while a change from PR to CW is unanswered |
| UsableLimits.DemotionsAreNotUsable | fs/dlm/lock.c:2267-2285 | one in which the master takes PR away to break a deadlock before the node is told |
| DirectorySafety.LookupKeeps | fs/dlm/lock.c:4252-4270 | the first to ask becomes master on record; a lookup for the directory's own resource is served as a request |
| DirectorySafety.RequestKeeps | fs/dlm/lock.c:546-726 | a request finds, activates or recreates the master, or is sent away |
| DirectorySafety.DirRequestKeeps | fs/dlm/lock.c:852-890 | a request from the directory makes the node master, also when its own removal is on the way |
| DirectorySafety.LookupReplyKeeps | fs/dlm/lock.c:4675-4753 | a node becomes master only if it is on record |
| DirectorySafety.RequestReplyKeeps | fs/dlm/lock.c:4365-4457 | a refused request forgets the master and asks again |
| DirectorySafety.AskMasterKeeps | fs/dlm/lock.c:2518-2572 | the choice between asking the master, the directory, nobody, and waiting |
| DirectorySafety.ShrinkKeeps | fs/dlm/lock.c:1608-1740 | freeing a master record and telling the directory |
| DirectorySafety.RemoveKeeps | fs/dlm/lock.c:4272-4358 | the directory forgets only what nobody is master of, and ignores the message while it uses the name; that it does forget is `DirectoryRecord.RemovalForgets` |
| DirectorySafety.NeverTwoMasters | fs/dlm/lock.c:524-545 | over every run at most one node is master |
| DirectorySafety.DirectoryKnowsTheMaster | fs/dlm/lock.c:4756-4820 | once no announcement is on its way, a master is on record |
| DirectorySafety.AskIsSafeExactly | fs/dlm/lock.c:2535-2540 | in every state of every run, asking for the name is safe exactly if the creator asks or no announcement is on its way |
| DirectorySafety.TooEarlyMeansTwoMasters | fs/dlm/lock.c:2518-2572 | for every directory, creator and early asker two masters arise at most two messages later |
| DirectoryRecord.RemovalForgets | fs/dlm/lock.c:4272-4358 | over every run, a removal that arrives while the directory does not use the name comes from the node on record and leaves nobody on record; every other one leaves the record as it was |
| DirectoryRecord.LookupIsAnswered | fs/dlm/lock.c:4252-4270 | over every run, a lookup is answered with who is on record, and with the asker, who is then on record, if nobody is |
| DirectoryRecord.RequestIsAnswered | fs/dlm/lock.c:546-726 | over every run, a request is served exactly by the master, by who becomes it at the directory's word, or by a directory without a record; others refuse it, and say how |
| DirectoryRecord.NewsIsFollowed | fs/dlm/lock.c:4675-4753 | over every run, a node that hears who the master is believes it; named itself, it is master, else it asks or waits |
| DirectoryRecord.ServiceSettles | fs/dlm/lock.c:4365-4457 | over every run, a served request waits no longer, lets the node's others go on, and makes the server known if the directory was asked |
| DirectoryRecord.RefusalIsFollowed | fs/dlm/lock.c:4365-4457 | over every run, a refused node forgets the master and looks the name up again, or waits for one of its own locks that does |
| DirectoryRecord.RefusedMasterGoesOn | fs/dlm/lock.c:4365-4457 | over every run, a node that became master before it was refused stays master, serves itself and sends nothing |
| DirectoryRecord.QuestionsGoWhere | fs/dlm/lock.c:2518-2572 | over every run, where a lock asks first, by what its node knows: nobody, the master, the directory, or it waits |
| DirectoryRecord.DoubtIsSettledFirst | fs/dlm/lock.c:2518-2572 | over every run, the lock that looks a name up, or first uses a record that has lain unused, is remembered as the one the others wait for |
| DirectoryRecord.AnnouncementsAreNoted | fs/dlm/lock.c:4756-4820 | over every run, an announcement puts the creator on record, and is confirmed |
| DirectoryRecord.TheRecordIsTrue | fs/dlm/lock.c:4292-4350 | over every run whose removals are ignored only in the race they are ignored for, a node on record is master, or about to hear it, or about to take it back |
| DirectoryRecord.TheRecordIsExact | fs/dlm/lock.c:4292-4350 | in such runs, with nothing on its way, a node is on record exactly if it is the master |
| Children.SelfOwnersAreSafe | fs/dlm/lock.c:3212-3233 | for any number of children and any interleaving, the parent's counter counts the unconfirmed names and no name has two masters |
| Children.ReleaseKeeps | fs/dlm/lock.c:3625-3667 | a zero counter means every announcement has been confirmed |
| Children.ConfirmationEnds | fs/dlm/lock.c:4863-4897 | only a confirmation ends an announcement, and each lowers the counter once |
| Children.ReleasePublishes | fs/dlm/lock.c:3625-3667 | over every history, letting the parent's lock go opens to others exactly the names its holder created |
| Waiters.Lockspace.AddToWaiters | fs/dlm/lock.c:1434-1487 | the account after a message is sent, and that the first assertion holds |
| Waiters.Lockspace.RemoveFromWaiters | fs/dlm/lock.c:1494-1578 | the account after a reply, the preemptive end of a cancel included, and that the second assertion holds |
| Waiters.RemovedAccountsExactly | fs/dlm/lock.c:1543-1578 | the account stays right for every reply but a confirmation nobody waits for |
| Waiters.ZappedCancelIsOver | fs/dlm/lock.c:1519-1541 | a successful conversion ends an overlapping cancel, and the late reply to the cancel finds nothing to do |
| Waiters.EveryRunIsAccounted | fs/dlm/lock.c:1434-1578 | over every run the counter is the number of things waited for, and list and references follow it |
| Waiters.SendsAreNoted | fs/dlm/lock.c:1434-1487 | over every run, what is waited for after a message is sent, and exactly which messages may not be sent |
| Waiters.RepliesEndWaits | fs/dlm/lock.c:1494-1578 | over every run, what a reply ends: a late reply to a cancel leaves another wait alone, and a successful conversion ends a cancel on its way |
| Recovery.Lockstruct.RecoverPrep | fs/gfs2/lock_dlm.c:1124-1144 | the account at the beginning of a recovery cycle; a mounted node blocks its locks |
| Recovery.Lockstruct.RecoverSlot | fs/gfs2/lock_dlm.c:1149-1174 | a failed member is recorded under the last finished generation |
| Recovery.Lockstruct.ClearRecovered | fs/gfs2/lock_dlm.c:692-714 | the loop clears exactly the bits of journals recovered here and says whether one was set |
| Recovery.Lockstruct.ControlUpdate | fs/gfs2/lock_dlm.c:672-763 | both accounts after the critical section, bit by bit, in all three relations of the generations |
| Recovery.Lockstruct.ScanBits | fs/gfs2/lock_dlm.c:768-776 | the journals handed to recovery are exactly those whose bit is set |
| JournalSafety.LvbUpdated | fs/gfs2/lock_dlm.c:672-757 | the value block knows every failure up to its generation, set or recovered |
| JournalSafety.TellKeeps | fs/gfs2/lock_dlm.c:1149-1174 | a failure reported to a node is not lost before it is published |
| JournalSafety.MountCheckKeeps | fs/gfs2/lock_dlm.c:924-990 | a mounting node unblocks only when all earlier recoveries are over |
| JournalSafety.UnblockedMeansRecovered | fs/gfs2/lock_dlm.c:614-797 | over every run, a node with unblocked locks has reached no generation with an unrecovered failure |
| JournalSafety.GenerationNeverDecreases | fs/gfs2/lock_dlm.c:716-752 | over every run the generation in the value block never goes back |
| JournalLaws.BitsComeAndGo | fs/gfs2/lock_dlm.c:672-763 | over every run, an update of a node not called back meanwhile: a bit is set afterwards exactly if it is new here, or was set and not recovered here; the generation is the later one; both are taken off the account |
| JournalLaws.BitsGoByRecovery | fs/gfs2/lock_dlm.c:692-714 | over every run, a bit is cleared only by an update and only when the journal has been recovered |
| JournalLaws.UpdateGoesOn | fs/gfs2/lock_dlm.c:754-797 | over every run, an update hands out exactly the journals whose bit is set, and goes on to unblock exactly if there are none |
| JournalLaws.ReportsAreNoted | fs/gfs2/lock_dlm.c:1149-1174 | over every run, a failed member is recorded under the generation before, a result as it is, and nothing else changes |
| JournalLaws.LocksAreUnblocked | fs/gfs2/lock_dlm.c:785-797 | over every run, locks are unblocked exactly if no recovery has begun since the account was read |
| JournalLaws.MountsAreLetIn | fs/gfs2/lock_dlm.c:924-990 | over every run, a node is mounted exactly if all was clear in its own generation and no recovery is going on, and then has an empty account |
| LockRes.HighestCompatIsHighest | fs/ocfs2/dlmglue.c:888-897 | the level left to us is the highest one compatible with the other node's wish |
| LockRes.LockResource.ClearPending | fs/ocfs2/dlmglue.c:1077-1100 | the pending mark is cleared only for the matching generation, which is then over |
| LockRes.LockResource.LockingAst | fs/ocfs2/dlmglue.c:1155-1219 | the resource after an answer, by action; what becomes of a wish is `LockResLaws.WishesAreKept` |
| LockRes.LockResource.ClusterLock | fs/ocfs2/dlmglue.c:1522-1652 | one pass through the critical section of a local request: wait, ask or hold |
| LockRes.LockResource.UnblockLock | fs/ocfs2/dlmglue.c:3996-4128 | what the downconvert thread decides, and what it changes by deciding |
| LockRes.LockResource.HandleBast | fs/ocfs2/dlmglue.c:989-1016 | the resource after another node's wish |
| LockResSafety.BusyWithoutPendingWasCalled | fs/ocfs2/dlmglue.c:1018-1074 | over every interleaving, busy without pending means that the lock manager has the request |
| LockResSafety.LateReturnClearsNothing | fs/ocfs2/dlmglue.c:1077-1112 | a call that comes back late never clears the mark of another request |
| LockResSafety.NoCancelTooEarly | fs/ocfs2/dlmglue.c:4021-4059 | a cancel is only ever prepared for a request the lock manager has |
| LockResSafety.HoldersAreCovered | fs/ocfs2/dlmglue.c:1522-1652 | local users are covered by the level, and during a downconvert nobody is or gets above its target |
| LockResSafety.HandlersFindWhatTheyExpect | fs/ocfs2/dlmglue.c:928-987 | none of the handlers' assertions fails |
| LockResSafety.DiesExactly | fs/ocfs2/dlmglue.c:3877-3904 | the step at which the assertion about the new level fails: the level already suits the other node |
| LockResSafety.TimelyRunsNeverDie | fs/ocfs2/dlmglue.c:3877-3904 | over every run in which a wish arrives only while the level is too high for it, that assertion never fails |
| LockResSafety.SurpriseKills | fs/ocfs2/dlmglue.c:3882-3894 | a run in which a wish that suits the level makes it fail |
| LockResSafety.BeginDownKeeps | fs/ocfs2/dlmglue.c:4130-4180 | a downconvert begun after work without the spinlock is still right |
| LockResLaws.WishesAreKept | fs/ocfs2/dlmglue.c:928-942 | over every run, another node's wish is given up only when the level suits it, and never gets weaker before that |
| LockResLaws.WishesAreHeard | fs/ocfs2/dlmglue.c:989-1016 | over every run, a wish is written down whatever else is going on, and the strongest is kept |
| LockResLaws.LevelIsWhatWasAsked | fs/ocfs2/dlmglue.c:1155-1219 | over every run, the level changes only by an answer, and to what was asked for |
| LockResLaws.AnswersEndRequests | fs/ocfs2/dlmglue.c:1155-1219 | over every run, every answer ends the request, and no user loses the lock by it |
| LockResLaws.UsersAreServed | fs/ocfs2/dlmglue.c:1522-1652 | over every run, a local user gets the lock, asks for a higher level, or waits, exactly by level, wish and what is under way |
| LockResLaws.RaisedLevelIsMarked | fs/ocfs2/dlmglue.c:944-972 | over every run, a level that has been raised is marked for use, unless its user has given up |
| LockResLaws.RaisedLevelIsUsedOnce | fs/ocfs2/dlmglue.c:1522-1652 | over every run, the mark goes only when a user comes or the request is taken back, and no downconvert begins before |
| LockResLaws.FirstLevelIsAskedFor | fs/ocfs2/dlmglue.c:1320-1347 | over every run, the first level is asked for exactly if there is none and nothing is under way |
| LockResLaws.ThreadDoes | fs/ocfs2/dlmglue.c:3996-4128 | over every run, the thread goes down to the highest level that suits the wish exactly if that can be done, else cancels, forgets or leaves alone, each exactly if |
| LockResLaws.ThreadGoesOn | fs/ocfs2/dlmglue.c:4130-4180 | over every run, after work without the spinlock it goes down only if level and wish are as before, and else looks again |
| Glock.GlockObject.DoError | fs/gfs2/glock.c:384-401 | the loop removes exactly the waiters that give up, in place |
| Glock.GlockObject.DoPromote | fs/gfs2/glock.c:474-501 | the loop grants what the promotion function grants, and reports a blocked head |
| Glock.GlockObject.RunQueue | fs/gfs2/glock.c:815-859 | one run of the state machine |
| Glock.GlockObject.Finish | fs/gfs2/glock.c:571-649 | the glock after the lock manager's answer, retries included |
| Glock.GlockObject.DoXmote | fs/gfs2/glock.c:669-806 | what is asked of the lock manager, with its two checks |
| Glock.GlockObject.HandleCallback | fs/gfs2/glock.c:1418-1435 | the wish to demote that results from several |
| GlockSafety.PromoteGood | fs/gfs2/glock.c:324-364 | promotion keeps holders at the head of the queue, in states that go together and are covered |
| GlockSafety.FinishKeeps | fs/gfs2/glock.c:571-649 | every answer keeps the invariant, and every retry is asked in a fit state |
| GlockSafety.HoldersStandTogether | fs/gfs2/glock.c:324-501 | over every run holders are a prefix of the queue, share a state, and are covered; none while another state is asked for |
| GlockSafety.NoCheckFails | fs/gfs2/glock.c:684-686 | over every run none of the machine's assertions fails |
| GlockSafety.StrictlyCoveredExactly | fs/gfs2/glock.c:344-363 | all holders have a state that is enough for them exactly when the one at the head has |
| GlockSafety.RequestsCoverExactly | fs/gfs2/glock.c:324-364 | in every run those who need their state have it, if a given request is the only one asked for with any state, exactly if that request does not say that any state would do |
| GlockSafety.AnyLetsOthersIn | fs/gfs2/glock.c:344-346 | for every request that any state would do for, a run in which another one is let in behind it that needs the state and has not got it |
| GlockLaws.WishesAreKept | fs/gfs2/glock.c:571-649 | over every run, a wish of another node is given up only when the state it asks for, or unlocked, has been reached |
| GlockLaws.WishesAreHeard | fs/gfs2/glock.c:1418-1435 | over every run, a wish is written down for now or later, and two different ones become a wish to unlock |
| GlockLaws.UnlockIsAskedFor | fs/gfs2/glock.c:582-588 | over every run, a wish to unlock that came in during a demotion is met by its answer, or asked for next |
| GlockLaws.StateIsTheAnswer | fs/gfs2/glock.c:571-590 | over every run, the state changes only by a successful answer, and to what was asked for |
| GlockLaws.AskedIsWanted | fs/gfs2/glock.c:669-806 | over every run, what is asked for is what the wish under way or the first who waits wants |
| GlockLaws.NobodyIsForgotten | fs/gfs2/glock.c:324-401 | over every run, nobody who waits in earnest or holds leaves the queue unasked, but by an error, and nobody else gets in |
| GlockLaws.EverybodyIsLetIn | fs/gfs2/glock.c:324-364 | over every run, when the object has been read all are let in whom the state suits or who go with the head, up to the first whom it does not |
| GlockLaws.WorkGetsOn | fs/gfs2/glock.c:815-859 | over every run, a run of the machine asks for a state or lets the head in, if there is one |
| GlockLaws.AnswersAreFollowed | fs/gfs2/glock.c:571-649 | over every run, what each answer leads to: the object read, the same asked again, the next one's turn, or those who wait told |
| GlockLaws.FailuresAreTold | fs/gfs2/glock.c:384-401 | over every run, if the object cannot be read all who wait are told; if it need not be, those who merely try |
| GlockLaws.FutileTriesFail | fs/gfs2/glock.c:1475-1519 | over every run, a request that merely tries is turned away exactly if an invalidation is going on or it would have to wait for another state behind somebody in earnest |
| GlockLaws.DelayedWishesCome | fs/gfs2/glock.c:1062-1075 | over every run, a wish for later becomes one for now when its time has come |
| GlockLaws.InvalidationEndsTries | fs/gfs2/glock.c:669-806 | over every run, no request that merely tries waits through the beginning of an invalidation |

## Left out

- Blocking callbacks of the lock manager (`highbast`, `send_bast`): they tell owners that others wait and change no
  queue; the part that consumes them is in `LockResSafety` and `GlockSafety` as an event.
- Lock value blocks in the lock manager, and their contents in both file systems.
- Node failure inside the lock manager (`dlm_recover_*`, the `recover` argument of `can_be_granted`).
- Overlapping cancels and forced unlocks of a remote lock: those sent while a reply to another operation is outstanding.
  Their effect on the waiting replies is in `Waiters`, their effect on the two copies is not modelled; the runs of
  `Wire` contain the cancels of locks that are queued and have nothing outstanding.
- The error replies of a request (no such resource, not the master) are in `Directory` and not in `Wire`, which
  starts where the master is known.
- One number names a lock at both ends (`lkb_id` and `lkb_remid` are identified).
- NoLostGrant.ConvertQuiet: leaves out conversions with CONVDEADLK beside NOORDER waiters, as Runs.NoGrantIsEverLost
  does, because the property is false there (`NoLostGrant.DemotionLosesAGrant`); ConvertQuietExactly and
  Runs.RunsAreQuietExactly cover them.
- NoLostGrant.ConvertQuietExactly: for a demotion the condition is about the resource after the walk that the demotion
  causes, since that walk decides who is still in the way.
- Evolution.SettleAllEvolves: leaves out queued conversions whose alternative is the mode they have; such a lock is
  granted twice. By `Runs.EveryKeepingRunIsSound` there are none in runs of conversions that keep their lock.
- WireSafety.ClusterWideMutualExclusion: a lock does not count as usable while its unlock, a change between PR and
  CW, or a conversion with CONVDEADLK is outstanding; the runs in `UsableLimits` show that none of the three can be
  dropped.
- WireSafety.StepKeepsInv: the master's own conversions are of the kind that keeps its lock, because with others an
  owner can lose its lock (`LostLocks`); whether other owners are safe then is shown for one resource only
  (`Runs.EveryRunIsSafe`, for all flags).
- DirectoryRecord.TheRecordIsTrue: speaks of runs in which the directory ignores a removal only while it waits for its
  sender, the race of `fs/dlm/lock.c:4318-4330`. Whether locks are held on a record is left open, so that the model
  also has runs in which a directory uses a name without having asked its master; DirectoryRecord.RemovalForgets and
  LookupIsAnswered are about all runs.
- WireSafety.ToldIsBacked: says nothing once the node has sent its unlock, because the master may have handled that.
- Wire, Directory: process copies, resource records and channels are values in maps and sequences of one system
  state; update in place is captured on the master side only (`Engine`).
- Directory: whether locks are held on a record is left open, so a record may become unused whenever no request of
  its node waits for an answer; when a waiting lock is taken off the lookup list is left open, too.
- Directory: an announcement is delivered once and for a name the directory does not have; a repeated one makes
  `dlm_master_notify` loop and is not modelled.
- Directory: conversions of a lock whose own announcement is unconfirmed (the source then skips the copying of
  arguments, `fs/dlm/lock.c:2708-2711`).
- Children: the rule is stated for `dlm_unlock` of the parent, the only operation that waits for the children; a
  conversion of the parent does not wait and is not modelled.
- Recovery: the arrays have one size for all nodes; `set_recover_size` is not modelled. Generations do not wrap.
- JournalSafety: first-mounter recovery, spectators and withdrawing nodes are not modelled; each journal loses its
  owner at most once, and a node that holds the control lock does not die while it does.
- LockRes: flock, lock freeing and dropping, refreshing and value blocks are not modelled; the pending generation
  does not wrap; a cancel is accepted by the lock manager.
- LockResSafety.DiesExactly: speaks of one step; that wishes which suit the level do not arrive is a matter of the lock
  manager, and an assumption of TimelyRunsNeverDie only.
- Glock: withdrawal, the recursion check and the LRU are not modelled; the entries of the holder queue are values,
  so a holder that is referred to from elsewhere is not captured.
- GlockSafety.FinishKeeps: it is assumed that the lock manager never refuses a conversion to a weaker mode; for the
  lock manager that is DownConversionIsImmediate.
- Userspace locks, tracing, debugging and statistics.
