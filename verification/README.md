# Verification of the device's native services

This project models the services of the wahoo device tree that carry real state, and proves what they
promise. Every statement quantifies over all inputs, all runs or all interleavings; what the kernel, the
framework or a file may answer is left open.

- **USB gadget service** (`GadgetFunctions`, `GadgetSetup`, `GadgetProtocol`, `GadgetInvariants`,
  `GadgetMonitorLog`, `GadgetMonitorTrace`, `GadgetTheorems`, `GadgetReachability`, `GadgetInotify`). `GadgetSetup.Gadget` is the imperative part of one
  request: clearing the configfs directory, choosing ids, linking functions. `GadgetProtocol` is a transition
  system with any number of concurrent requests and the monitor threads they create, over both mutexes, the
  condition variable, the eventfd, the endpoint list and the descriptors. `GadgetInvariants` gives the inductive
  invariant, `GadgetTheorems` what follows for every run, `GadgetMonitorTrace` shows that every monitor behaves as
  one sequential reference, and `GadgetReachability` that the outcomes the service is for do happen.
- **USB Type-C service** (`TypeCProtocol`, `TypeCTheorems`, `TypeCReachability`, `Uevent`, `PortMap`). A second transition system
  covers `switchRole`, `queryPortStatus`, `setCallback` and the uevent worker; two modules cover the uevent
  buffer walk and the port map.
- **Battery backup and restore** (`Decimal`, `CycleCount`, `LearnedCapacity`, `HealthService`). Classes with the
  source's fields, the text files they keep, and runs of boots, gauge resets and backups.
- **Make string predicates** (`Text`, `MakeStrings`). Equality, membership and prefix match from `subst`,
  `findstring` and `patsubst`.
- **Lights** (`Lights`). Brightness arithmetic and the low-persistence file.

A state machine is a `Next` relation and a `Run` predicate over sequences of states. Its invariant is proved one
program point at a time: a lemma per point derives a small summary of the step (`Move`, `MonitorMove`,
`CallMove`, `WorkerMove`), and the quantified parts follow from the summary alone. Classes are proved against
specification functions (`AfterRestore`, `AfterBackup`, `AfterLevel`, `AfterCall`, `Plan`, `Drain`, `Handle`),
and the promises are lemmas about those functions.

## Where the code does less than it looks

- `setupFunctions` drops PTP when MTP is requested too (`GadgetFunctions.PlanServesUnlessMtpAndPtp`); only
  because `validateAndSetVidPid` refuses that mask does every accepted request get what it asked for.
- A cycle-count boot that cannot read storage may overwrite larger stored bins
  (`CycleCount.BootWithoutStorage`), and a failed save is not repeated (`CycleCount.LostSaveIsNotRepeated`,
  `CycleCount.FailedSaveStays`).
- A learned capacity is lost when the gauge is reset before the next backup, and a reset while the service runs
  is saved as if it had been learned (`LearnedCapacity.LearnedIsKept`, `LearnedCapacity.ResetWhileRunningIsSaved`).
- `find-word-in-list` joins the list with colons, so it confuses colons with the borders of words, although its
  comment promises an exact match: it finds "a" in the list "a:b" and "a:b" in the list "a b"
  (`MakeStrings.ColonBreaksMembership`, `MakeStrings.ColonWordBreaksMembership`). What it finds exactly, and when
  that is membership, are `MakeStrings.FindWordFindsParts` and `MakeStrings.FindWordIsMembership`.
- A failed write of the low-persistence file is remembered as done (`Lights.PersistenceFollowsMode`).

## Model

| member | source | states |
|---|---|---|
| `GadgetTheorems.CallbackOnce` | usb/UsbGadget.cpp:552-655 | in every interleaving and on every path, a request with a callback has called it exactly once when it leaves and never before, and one without never calls it |
| `GadgetTheorems.CallbackStatus` | usb/UsbGadget.cpp:606-655 | the status of that one call: what a refused operation means, if there was one; otherwise SUCCESS for a request without FunctionFS functions, NONE among them; otherwise SUCCESS or, only after the wait has timed out, ERROR |
| `GadgetTheorems.PulledUpIsSuccess` | usb/UsbGadget.cpp:589-601 | a request that has created a monitor is told SUCCESS exactly if that monitor has pulled the gadget up by then, and ERROR otherwise |
| `GadgetTheorems.TimedOutReports` | usb/UsbGadget.cpp:589-601 | once its wait has timed out, a request only reports and leaves |
| `GadgetTheorems.DeliveredStatus` | usb/UsbGadget.cpp:606-655 | SUCCESS is told only to NONE or a mask with at most one interface beside ADB, and CONFIGURATION_NOT_SUPPORTED never to NONE |
| `GadgetReachability.NoneSucceeds` | usb/UsbGadget.cpp:623-631 | some run tells a NONE request SUCCESS |
| `GadgetReachability.PlainRequestSucceeds` | usb/UsbGadget.cpp:552-559 | for every acceptable mask without FunctionFS functions some run tells it SUCCESS |
| `GadgetReachability.FfsRequestSucceeds` | usb/UsbGadget.cpp:580-601 | for every acceptable mask with FunctionFS functions some run tells it SUCCESS, woken by its monitor |
| `GadgetReachability.LateEndpointsTimeOut` | usb/UsbGadget.cpp:589-601 | and some run tells it ERROR with nothing refused, its endpoints being late |
| `GadgetMonitorTrace.MonitorsFollow` | usb/UsbGadget.cpp:92-169 | in every run, every monitor has asked exactly what a sequential reference asks after the same answers: endpoint checks in order, the UDC write after a full pass while armed, then the remaining records, events and answers of epoll; and it has written the UDC successfully exactly if it has reported the pull-up or is about to |
| `GadgetMonitorTrace.ArmedPassIsWritten` | usb/UsbGadget.cpp:144-156 | over a run, a monitor that has found everything readable, and has not pulled up since it last saw an endpoint absent, writes the UDC as the next thing it does |
| `GadgetMonitorTrace.FullPassIsWritten` | usb/UsbGadget.cpp:97-112 | the same as a law on histories |
| `GadgetTheorems.SuccessIsPulledUp` | usb/UsbGadget.cpp:92-169 | if an MTP, PTP or ADB request reports SUCCESS, the one monitor that this request created saw every endpoint of the request readable in one pass and its very next action was a successful UDC write |
| `GadgetTheorems.LoopPullsUpOnEdges` | usb/UsbGadget.cpp:124-157 | between a successful pull-up in the loop and any later loop write some endpoint was seen absent; loop pull-ups are at most one more than such absences |
| `GadgetTheorems.OneMonitor` | usb/UsbGadget.cpp:243-256 | at most one unjoined monitor thread exists, the process never ends by replacing a joinable thread or joining none; whenever the request lock is free, `mMonitorCreated` tells whether there is one, and without one all descriptors are closed |
| `GadgetTheorems.SharedStateIsStable` | usb/UsbGadget.cpp:227-259 | no step changes the endpoint list or the three descriptors while a monitor is alive, including after an early error return of the teardown |
| `GadgetTheorems.NoLostNotify` | usb/UsbGadget.cpp:589-596 | nobody is asleep on the condition variable once the gadget is pulled up |
| `GadgetTheorems.JoinIsServed` | usb/UsbGadget.cpp:243-248 | a request in `join` does not hold the mutex the monitor may want, and the thread it joins has returned or can take a step |
| `GadgetTheorems.NoDeadlock` | usb/UsbGadget.cpp:606-655 | as long as one of any number of requests is unfinished, some request or the monitor can take a step |
| `GadgetTheorems.MonitorSpends` | usb/UsbGadget.cpp:107-168 | with the stop flag up, every effective step of the monitor lowers an explicit measure, and epoll is asked at most once more |
| `GadgetTheorems.ShutdownIsBounded` | usb/UsbGadget.cpp:243-248 | during a join the monitor makes at most that many moves; at most one of them is an answer of `epoll_wait`, none once the stop event is taken; when the measure is used up, and only then, the monitor has returned |
| `GadgetTheorems.SpentMeansReturned` | usb/UsbGadget.cpp:158-168 | while a request joins it, the measure is zero exactly when the monitor has returned |
| `GadgetInvariants.ControlAlways` | usb/UsbGadget.h:64-94 | the invariant on locks, threads, phases, sleepers and callbacks holds in every reachable state |
| `GadgetInvariants.NextKeepsControl` | usb/UsbGadget.cpp:606-655 | every step of a request or a monitor keeps that invariant |
| `GadgetMonitorLog.LogsAlways` | usb/UsbGadget.cpp:92-169 | in every reachable state the history of every monitor is consistent with its position: checks in order, pull-up only after a full pass, loop writes only when re-armed |
| `GadgetMonitorLog.EdgeBetween` | usb/UsbGadget.cpp:144-156 | positions of two loop writes in an edge-triggered history enclose an absence |
| `GadgetMonitorLog.PullupsAreBounded` | usb/UsbGadget.cpp:144-156 | counts of pull-ups and absences in an edge-triggered history |
| `GadgetInotify.HandleInotify` | usb/UsbGadget.cpp:126-157 | the pointer walk over one buffer of variable-length records stays inside it, ends, and has the effect of handling its records one by one |
| `GadgetInotify.CheckEndpoints` | usb/UsbGadget.cpp:133-142 | the early-exit check is true exactly if every endpoint is readable |
| `GadgetInotify.DrainAlternates` | usb/UsbGadget.cpp:144-156 | over any stretch of records, pull-ups are paid for by absences |
| `GadgetInotify.DrainPullsUpWhenDue` | usb/UsbGadget.cpp:144-156 | exactly which records pull the gadget up: those that find everything readable, with a working write, while an endpoint has been absent since the last pull-up |
| `GadgetInotify.DrainFollowsAppearances` | usb/UsbGadget.cpp:144-156 | with working writes, one pull-up for each time the endpoints appear, and the loop is armed exactly if they are absent now |
| `GadgetInotify.RecordInFront` | usb/UsbGadget.cpp:126-131 | a record laid out byte by byte in front of whole records is counted as one more |
| `GadgetInotify.RecordsPerRead` | usb/UsbGadget.cpp:126-131 | one 512-byte read holds at most 32 records |
| `GadgetSetup.Gadget.Configure` | usb/UsbGadget.cpp:606-647 | success leaves exactly the untouched entries plus function0, function1, ... for the plan of mask and vendor string; by name, one link to the configfs function of each requested bit, none to that of any other, and one to a vendor function for each occurrence of its token; the endpoints and ids of the request; an unsupported mask leaves the cleared directory; ERROR only if the directory cannot be listed or the kernel refused an operation of this very request, so never from a clash of link names |
| `GadgetSetup.Gadget.SetupLinks` | usb/UsbGadget.cpp:457-550 | on success all links and endpoints of the plan were made in order; on an error exactly a prefix of the plan's links, and some prefix of the endpoints |
| `GadgetSetup.Gadget.LinkVendor` | usb/UsbGadget.cpp:523-536 | the strtok loop links exactly the known tokens of the vendor string, numbering on |
| `GadgetSetup.Gadget.LinkFunction` | usb/UsbGadget.cpp:270-281 | makes one new link, or reports an error and leaves the directory as it was |
| `GadgetSetup.Gadget.UnlinkFunctions` | usb/UsbGadget.cpp:176-199 | 0 means every function entry is gone and nothing else; otherwise only function entries are missing |
| `GadgetSetup.Gadget.GetVendorFunctions` | usb/UsbGadget.cpp:291-312 | the string chosen from the four properties, publishing it at most where the source does |
| `GadgetSetup.Gadget.ValidateAndSetVidPid` | usb/UsbGadget.cpp:314-455 | SUCCESS has written the ids of the table, CONFIGURATION_NOT_SUPPORTED means the table has none and nothing was written |
| `GadgetSetup.LinkedDirectory` | usb/UsbGadget.cpp:468-550 | in a cleared directory with a plan on top the function entries are numbered without gaps or clashes, in plan order |
| `GadgetSetup.PlanServesByName` | usb/UsbGadget.cpp:472-550 | the same count of links by literal configfs path, for every directory, mask and vendor string whose plan serves the mask |
| `GadgetSetup.NamesByNumber` | usb/UsbGadget.cpp:186-276 | entries are called "function" and their number, and that is how they are recognised |
| `GadgetSetup.NextNameIsFree` | usb/UsbGadget.cpp:270-281 | after `unlinkFunctions` the next link name is never taken |
| `GadgetFunctions.AcceptedPlanServes` | usb/UsbGadget.cpp:314-455 | for every accepted mask and vendor string each requested bit gets exactly one link and no other bit gets any |
| `GadgetFunctions.PlanServesUnlessMtpAndPtp` | usb/UsbGadget.cpp:472-501 | the `else if` drops a requested function exactly when MTP and PTP are both set |
| `GadgetFunctions.PlanCount` | usb/UsbGadget.cpp:472-550 | how often each bit's function is linked, for every mask and vendor string |
| `GadgetFunctions.VendorPlanCount` | usb/UsbGadget.cpp:523-536 | each vendor function is linked as often as its token occurs in the vendor string, for every mask |
| `GadgetFunctions.EndpointsFollowPlan` | usb/UsbGadget.cpp:472-550 | the monitored endpoints are those of the linked ffs functions, in order, and no others |
| `GadgetFunctions.EndpointsByName` | usb/UsbGadget.cpp:472-550 | the endpoint files by name |
| `GadgetFunctions.PlanInOrder` | usb/UsbGadget.cpp:472-550 | the linked functions by name, in order |
| `GadgetFunctions.VendorFunctionsByCase` | usb/UsbGadget.cpp:291-312 | which property decides, and when it is published |
| `GadgetFunctions.VendorFunctionsAreStable` | usb/UsbGadget.cpp:291-312 | the second `getVendorFunctions` of a request returns the first one's string, and once published the property is not published again |
| `GadgetFunctions.AcceptedExactly` | usb/UsbGadget.cpp:314-455 | which masks are accepted under which vendor string, in closed form: one interface beside ADB, and a plain vendor string, an accessory or a known diagnostic combination; and which of them get the chip vendor's id |
| `GadgetFunctions.PlainIds` | usb/UsbGadget.cpp:314-455 | the ids of every mask under a plain vendor string, and of accessory and audio source under any |
| `GadgetFunctions.DiagnosticIds` | usb/UsbGadget.cpp:314-455 | the ids of every diagnostic configuration |
| `GadgetFunctions.SupportedExactly` | usb/UsbGadget.cpp:314-455 | a mask can be accepted exactly if it has at most one interface beside ADB |
| `GadgetFunctions.AcceptedIsSupported` | usb/UsbGadget.cpp:314-455 | an accepted mask is not NONE, has no unnamed bits and not both MTP and PTP |
| `GadgetFunctions.IdsDetermineFunctions` | usb/UsbGadget.cpp:314-455 | vendor and product id together tell the requested functions: no two accepted masks share them |
| `TypeCTheorems.InvAlways` | usb/Usb.h:50-60 | the invariant on the three mutexes, the waiters, the flag and the callback holds in every reachable state |
| `TypeCTheorems.ModeSwitchResult` | usb/Usb.cpp:160-213 | a mode switch fails exactly if its node could not be opened or written or its last wait timed out; success means the worker set `mPartnerUp` after this call's reset; the switch has tried to write "dual" exactly if it failed |
| `TypeCTheorems.WokenSwitchSucceeds` | usb/Usb.cpp:192-202 | over runs, a call that is woken in time after the worker has set the flag since its reset ends with success |
| `TypeCTheorems.RoleSwitchResult` | usb/Usb.cpp:258-279 | a data or power role switch succeeds exactly if its node could be written and read back, and never writes "dual" |
| `TypeCReachability.SwitchSucceeds` | usb/Usb.cpp:160-213 | some run of a mode switch and the worker succeeds |
| `TypeCReachability.SwitchTimesOut` | usb/Usb.cpp:160-213 | some run times out, fails and has tried "dual" |
| `TypeCReachability.OtherSwitchEnds` | usb/Usb.cpp:258-292 | a data or power role switch can end either way |
| `TypeCTheorems.NoLostWakeup` | usb/Usb.cpp:173-206 | a call is still blocked only if no partner event was handled since its reset, or the worker is about to signal; there is at most one waiter |
| `TypeCTheorems.PortWritesAreLocked` | usb/Usb.cpp:593-607 | every attempt to write a `port_type` node is made by the holder of `mRoleSwitchLock` |
| `TypeCTheorems.WorkerNeverDisturbsSwitch` | usb/Usb.cpp:593-607 | while a role switch is in progress the worker is not resetting ports and its steps write no node |
| `TypeCTheorems.WorkerResetsVacantPorts` | usb/Usb.cpp:593-607 | the worker's writes of `port_type` nodes are as many as the ports it has found without a partner |
| `TypeCTheorems.TrylockDecides` | usb/Usb.cpp:593-607 | the worker gets `mRoleSwitchLock` exactly if it is free, and then looks at every reported port; otherwise it leaves all ports alone |
| `TypeCTheorems.CallbackIsRegistered` | usb/Usb.cpp:281-291 | a callback found set under `mLock` is still set when it is called, by all three kinds of caller |
| `TypeCTheorems.FoundCallbacksAreCalled` | usb/Usb.cpp:281-291 | whoever finds a callback under `mLock` calls it before releasing `mLock`, once and in the same order; a role switch tells it the result it ends with |
| `TypeCTheorems.RegistrationChanges` | usb/Usb.cpp:700-745 | `setCallback` stores its argument, except that a first callback is dropped if no thread can be created |
| `TypeCTheorems.LockOrder` | usb/Usb.cpp:253-292 | whoever holds one mutex and wants another holds `mRoleSwitchLock` and wants one of the other two; the worker never holds one and waits for another |
| `TypeCTheorems.BlockerOrder` | usb/Usb.cpp:253-292 | the holder a thread waits for is alive and, if blocked itself, blocked at a higher level |
| `TypeCTheorems.Progress` | usb/Usb.cpp:594-607 | a thread that is not at a lock call on a taken mutex can step; the worker's trylock never blocks it |
| `TypeCTheorems.NoDeadlock` | usb/Usb.cpp:253-292 | behind every live thread, at most two holders away, is one that can step |
| `TypeCTheorems.SignalReachesWaiter` | usb/Usb.cpp:554-557 | one signal is enough, since all waiters hold `mRoleSwitchLock` |
| `Uevent.UeventEvent` | usb/Usb.cpp:536-621 | for every received length and all bytes, the walk stays in the buffer, ends, handles the NUL-separated records in order, and gives each the action it calls for |
| `Uevent.ClassifyIsExact` | usb/Usb.cpp:552-615 | which action a record calls for, by its text: a partner is added, else a Type-C port has changed, else a device under the USB bus is added, else none |
| `Uevent.HandleInOrder` | usb/Usb.cpp:550-620 | the handled records are a prefix, each classified on its own; handling stops only at an empty record or at the first typec record |
| `Uevent.NextRecord` | usb/Usb.cpp:618-619 | stepping behind the next NUL, or behind the end, moves to the next record |
| `Uevent.CString` | usb/Usb.cpp:552-552 | the text matched at the cursor is the record up to its NUL |
| `Uevent.AfterNul` | usb/Usb.cpp:618-619 | the cursor moves behind the NUL and never past index n + 1 |
| `Uevent.PartnerPattern` | usb/Usb.cpp:552-552 | the partner test accepts exactly the records of the regular expression |
| `Uevent.AutoSuspendPattern` | usb/Usb.cpp:609-615 | the auto-suspend test yields a device path exactly if the regular expression matches with that capture |
| `PortMap.GetTypeCPortNames` | usb/Usb.cpp:378-404 | success exactly if the directory opens; the keys are the plain names and the first tokens of partner entries, true exactly for the latter |
| `PortMap.OrderDoesNotMatter` | usb/Usb.cpp:378-404 | two listings with the same entries in any order, or repeated, give the same map |
| `PortMap.PartnerHasPort` | usb/Usb.cpp:395-395 | `strtok` on a partner entry never yields null or an empty port name |
| `PortMap.EntriesByName` | usb/Usb.cpp:386-397 | an entry without "-partner" names itself; "p-partner..." connects port p and names no other |
| `PortMap.GetPortStatus` | usb/Usb.cpp:425-495 | success exactly if every role of every port can be read; then each slot holds one port's status and each port has exactly one slot, in whatever order the map is visited |
| `PortMap.OneStatus` | usb/Usb.cpp:436-487 | the fields of one slot, filled one by one, are the status of that port |
| `PortMap.DisconnectedPort` | usb/Usb.cpp:310-331 | a disconnected port is always reported, with no roles and no change of data or power role |
| `PortMap.ReportedAbilities` | usb/Usb.cpp:464-487 | a port can change data and power role exactly if it is connected and its power-delivery file says "yes"; the modes that each interface version is told of; the roles are those read |
| `PortMap.RoleFails` | usb/Usb.cpp:310-376 | exactly when a role is an error: a file it needs is missing; or unrecognised: the file names no role |
| `PortMap.FirstLine` | usb/Usb.cpp:53-73 | a file is read up to its first line end |
| `PortMap.RoleIsReadBack` | usb/Usb.cpp:310-376 | a connected port reports the role whose name its file brackets, except that an audio or debug accessory replaces the mode and an unreadable accessory file is an error |
| `PortMap.BracketedRole` | usb/Usb.cpp:129-138 | the role in the first pair of brackets is extracted from any text around it |
| `CycleCount.SavedReadsBack` | health/CycleCountBackupRestore.cpp:52-101 | eight ints print to at most 95 characters, are never cut off by the 256-byte buffer, and read back unchanged, trimmed or not |
| `CycleCount.CopiesAgree` | health/CycleCountBackupRestore.cpp:30-41 | after every Restore and every Backup, storage, SRAM and both bin arrays equal the pointwise maximum of old storage and old SRAM |
| `CycleCount.StoredBinsNeverDecrease` | health/CycleCountBackupRestore.cpp:30-127 | over any run of boots, gauge changes, gauge resets and backups no stored bin decreases between any two moments, whether the gauge text is there or not, however many bins it holds, and whichever gauge reads and writes of either file fail; only the boots must be able to read storage |
| `CycleCount.BackupKeepsStorage` | health/CycleCountBackupRestore.cpp:37-41 | from any state and under any faults, one Backup keeps every stored bin exactly when it saves nothing or nothing lower |
| `CycleCount.SoftwareBinsNeverDecrease` | health/CycleCountBackupRestore.cpp:37-41 | within a process the software bins never decrease across backups, whatever reads and writes fail and however much of the gauge text parses |
| `CycleCount.BackupNeverLowers` | health/CycleCountBackupRestore.cpp:110-127 | one Backup under any faults: no bin is lowered, and storage changes only to the new bins |
| `CycleCount.BootWithoutStorage` | health/CycleCountBackupRestore.cpp:43-50 | a boot that cannot read storage keeps every stored bin exactly when it saves nothing or the gauge is no lower anywhere, under any other faults |
| `CycleCount.BootWithoutStorageLoses` | health/CycleCountBackupRestore.cpp:43-50 | a positive gauge bin below its stored bin is enough to lose |
| `CycleCount.BootWithoutStorageExample` | health/CycleCountBackupRestore.cpp:43-50 | such files exist |
| `CycleCount.LostSaveIsNotRepeated` | health/CycleCountBackupRestore.cpp:110-127 | a Backup that can write brings storage in step exactly when it already was or a gauge bin has grown past the software bins |
| `CycleCount.FailedSaveStays` | health/CycleCountBackupRestore.cpp:110-127 | one failed save puts storage out of step, and a Backup without faults leaves it so |
| `CycleCount.CycleCountBackupRestore.Restore` | health/CycleCountBackupRestore.cpp:30-35 | in-place bins and files after Restore under any faults |
| `CycleCount.CycleCountBackupRestore.Backup` | health/CycleCountBackupRestore.cpp:37-41 | in-place bins and files after Backup under any faults |
| `CycleCount.CycleCountBackupRestore.UpdateAndSave` | health/CycleCountBackupRestore.cpp:110-127 | the loop leaves the pointwise maximum in both arrays and saves exactly the copy that was behind |
| `CycleCount.CycleCountBackupRestore.ReadFromStorage` | health/CycleCountBackupRestore.cpp:43-59 | a partial parse overwrites only the bins it reached; a failed read changes nothing |
| `CycleCount.CycleCountBackupRestore.ReadFromSRAM` | health/CycleCountBackupRestore.cpp:75-93 | the same for the gauge, after trimming |
| `LearnedCapacity.RunRemembers` | health/LearnedCapacityBackupRestore.cpp:31-53 | over every run of boots, gauge resets, learned values and backups the files and fields are those of a two-number memory: stored and shown |
| `LearnedCapacity.EveryBackupAgrees` | health/LearnedCapacityBackupRestore.cpp:46-53 | after every Backup of every run storage, SRAM and both fields hold what the gauge shows |
| `LearnedCapacity.LearnedIsKept` | health/LearnedCapacityBackupRestore.cpp:31-53 | a learned capacity becomes the one everything agrees on at the next backup exactly when no boot in between finds the gauge reset, or it was stored already |
| `LearnedCapacity.ResetsAreHarmless` | health/LearnedCapacityBackupRestore.cpp:31-53 | no run of reboots, resets and backups changes a capacity on which everything agrees |
| `LearnedCapacity.RestoreAfterReset` | health/LearnedCapacityBackupRestore.cpp:39-43 | Restore puts the stored capacity back into a gauge that shows nominal |
| `LearnedCapacity.FirstRestore` | health/LearnedCapacityBackupRestore.cpp:35-38 | with nothing stored, Restore stores what the gauge shows |
| `LearnedCapacity.BackupAgrees` | health/LearnedCapacityBackupRestore.cpp:46-53 | a Backup makes storage, SRAM and both fields agree exactly when storage was in step with the field or the gauge shows a new value |
| `LearnedCapacity.ResetWhileRunningIsSaved` | health/LearnedCapacityBackupRestore.cpp:46-53 | a reset gauge seen by Backup replaces the stored capacity, unless that was nominal |
| `LearnedCapacity.SavedReadsBack` | health/LearnedCapacityBackupRestore.cpp:63-72 | one int prints and reads back unchanged, trimmed or not |
| `LearnedCapacity.LearnedCapacityBackupRestore.Restore` | health/LearnedCapacityBackupRestore.cpp:31-44 | fields and files after Restore under any faults |
| `LearnedCapacity.LearnedCapacityBackupRestore.Backup` | health/LearnedCapacityBackupRestore.cpp:46-53 | fields and files after Backup under any faults |
| `HealthService.BackupsFollowCharging` | health/HealthService.cpp:42-65 | after any levels the accumulator is in 0..19 and 20 times the backups is at most the upward movement less the accumulator; for percentages that is at most 119 times the backups |
| `HealthService.BoundsAreTight` | health/HealthService.cpp:42-65 | both bounds are reached |
| `HealthService.Service.CycleCountBackup` | health/HealthService.cpp:42-65 | the three static variables after one call, and Backup called exactly when the accumulator reaches the trigger |
| `HealthService.Service.BoardInit` | health/HealthService.cpp:69-73 | both Restores |
| `HealthService.Service.BatteryUpdate` | health/HealthService.cpp:75-80 | the cycle-count rule, and a capacity Backup every time |
| `Decimal.ScanIntAfterPrintInt` | health/LearnedCapacityBackupRestore.cpp:63-72 | "%d" reads back what "%d" printed, for every int, whatever non-digit follows |
| `Decimal.ScanIntMatches` | health/LearnedCapacityBackupRestore.cpp:63-106 | "%d" accepts white space, a sign if any, and all the digits that follow, and yields their value |
| `Decimal.ScanIntMatched` | health/LearnedCapacityBackupRestore.cpp:63-106 | and nothing else |
| `Decimal.ScanIntsAfterPrintInts` | health/CycleCountBackupRestore.cpp:52-67 | the same for any number of ints separated by blanks |
| `Decimal.PrintIntsLength` | health/CycleCountBackupRestore.cpp:63-67 | at most eleven characters and a blank per int |
| `Decimal.PrintIntsIsTrimmed` | health/CycleCountBackupRestore.cpp:84-87 | Trim leaves printed text alone |
| `Decimal.TrimDropsTrailingSpace` | health/CycleCountBackupRestore.cpp:84-87 | Trim drops the line end a sysfs file adds |
| `MakeStrings.MatchWordIsEquality` | utils.mk:14-18 | match-word is "true" exactly for equal texts, for all texts at all |
| `MakeStrings.FindWordFindsParts` | utils.mk:29-36 | for every word and every list: found exactly if the colon-separated parts of the word stand one after the other among those of the colon-joined list |
| `MakeStrings.FindWordIsMembership` | utils.mk:29-36 | every member is found and returned; the result is membership if and only if the word is a member or its parts do not occur |
| `MakeStrings.ColonFreePartsOccur` | utils.mk:29-36 | without colons in the word and the list, parts occur only for members |
| `MakeStrings.ColonBreaksMembership` | utils.mk:29-36 | a list word with a colon can defeat it |
| `MakeStrings.ColonWordBreaksMembership` | utils.mk:29-36 | so can a searched word with a colon, in a list without any |
| `MakeStrings.MatchWordInListFindsParts` | utils.mk:46-52 | the same for match-word-in-list, for every word and every list |
| `MakeStrings.MatchWordInListIsMembership` | utils.mk:46-52 | "true" for every member; membership if and only if the word is a member or its parts do not occur |
| `MakeStrings.EmptyWordMatchesNothing` | utils.mk:46-52 | an empty word is never found |
| `MakeStrings.MatchPrefixFinds` | utils.mk:64-70 | for every list: "true" exactly if some word starts with p and the delimiter, or the parts of p occur |
| `MakeStrings.MatchPrefixIsPrefix` | utils.mk:64-70 | "true" whenever some list word is p or starts with p and the delimiter; exactly then, if and only if such a word is there or the parts of p do not occur |
| `MakeStrings.ChipsetPrefixFinds` | utils.mk:129-140 | for every platform text: a word where 'a' or '_' follows the prefix, or the parts of the prefix occur |
| `MakeStrings.ChipsetPrefix` | utils.mk:129-140 | the prefix is the platform itself, or is followed in it by 'a' or '_', under the same condition |
| `Text.JoinSplit` | usb/Usb.cpp:550-620 | joining the NUL-separated records gives the buffer back, and no record holds the separator |
| `Text.SplitJoin` | usb/Usb.cpp:550-620 | separator-free records are the only ones that join to the buffer |
| `Text.StrtokStep` | usb/UsbGadget.cpp:526-535 | one strtok call takes the first token and leaves the others |
| `Lights.Backlight.SetLightBacklight` | liblight/lights.c:176-207 | the mode, the persistence file and the LCD file after one call with any write results, and when it reports success |
| `Lights.SentAlternates` | liblight/lights.c:189-199 | over any run, what is sent to the persistence file alternates on, off, on, ...: one value per change of mode, the last one stating the last mode |
| `Lights.PersistenceFollowsMode` | liblight/lights.c:189-200 | the file agrees with the last mode exactly when an even number of toggles failed to be written since the last written one |
| `Lights.WrittenRunsAgree` | liblight/lights.c:189-200 | with no failed write it agrees after every run |
| `Lights.BrightnessIsAnAverage` | liblight/lights.c:168-174 | brightness lies between the least and the greatest channel, so in 0..255, and a grey keeps its value |
| `Lights.BrightnessWeights` | liblight/lights.c:168-174 | for every 0xAARRGGBB, the weighted sum of the channels in 256ths, rounded down |
| `Lights.PureColours` | liblight/lights.c:168-174 | full red, green and blue give 76, 149 and 28 |
| `Lights.BrightnessIsMonotone` | liblight/lights.c:168-174 | brightness grows with each channel |
| `Lights.ScaledChannel` | liblight/lights.c:240-242 | scaled LED channels keep their order, stay within the ratio, and reach it only at 255 |
| `Lights.ScaledIsRounded` | liblight/lights.c:240-242 | the channel times ratio / 255, rounded down |

## Left out

- `mCurrentUsbFunctionsApplied`, the content of the UDC file and `reset()`: they are written without a lock that the monitor shares, so nothing useful holds of them while an old monitor lives.
- Real time: `usleep`, the eight-second and the callback timeouts. A timeout is a step that may happen at any moment of a wait.
- `GadgetTheorems.NoDeadlock`: absence of deadlock in each state, not fairness of the scheduler.
- `GadgetTheorems.ShutdownIsBounded`: bounds the moves of the monitor; waits of `epoll_wait` that return nothing are not moves.
- The write of the stop flag to the eventfd is taken to succeed.
- The numeric values of the function bits come from an interface outside this repository; a mask is the seven named bits and the rest of the word.
- What configfs and sysfs do with accepted writes; a failed write leaves the file as it was.
- Parsed numbers that do not fit an int, which C leaves undefined: they keep their mathematical value, and the results on what is printed and stored suppose that there are none.
- `setCallback` starting, killing and joining the worker thread: only its part under `mLock` is modelled, and the worker is always present.
- `queryPortStatus` casts the callback before it takes `mLock`; the interface version it then uses may be stale, and the model does not show it.
- The numbers behind the role enumerators: a role is named by its enumerator, which a cast to the type of a field keeps. A slot that `resize` has just made is taken to be blank, which matters only for the V1.1 modes of a V1.0 report.
- The read-back of a data or power role in `switchRole`: its result is an arbitrary success or failure.
- `MakeStrings.MatchPrefixIsPrefix`: `%`, `$`, `#` and backslashes in the words, which make treats specially, are not modelled; neither is the definition of `$(space)`, taken to be one blank.
- The file accesses of `checkUsbDeviceAutoSuspend`; only the device path it is given is modelled.
- The notification and attention lights beyond the scaling of one channel; the battery light is compiled out.
- `get_storage_info`, `get_disk_stats`, the dumpstate service, `folio_daemon`, power statistics, the init scripts and the build configuration: file scraping and configuration that would only add easy members.
