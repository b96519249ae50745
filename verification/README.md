# BartonCore: verified models of its concurrent state machines

BartonCore is an IoT device service. Its hard parts are state machines that keep maps, lists and
counters in step while several threads work on them. This Dafny project models these, with the
pure code beside them, and proves what holds over every input, every run and every interleaving.

A critical section (lock to unlock) is one step. Driver callbacks, clock readings, socket writes,
downloads and property saves are arbitrary inputs. The JSON database is a mathematical map whose
saves and removals succeed, events are an appended log. Where the source updates an object in
place there is a class whose methods are proved against specification functions; the theorems are
about runs of those functions.

| files | component |
|---|---|
| `Watchdog.dfy`, `WatchdogDeadline.dfy`, `WatchdogDelivery.dfy` | communication watchdog: 32-bit countdowns refine one deadline per device; delivery of notifications |
| `CommFail.dfy` | which devices are monitored, and for how long |
| `MediaServer.dfy`, `MediaRun.dfy`, `MediaProofs.dfy`, `MediaJoin.dfy`, `MediaServed.dfy` | live media fan-out to viewers |
| `Discovery.dfy`, `DiscoveryService.dfy`, `DiscoveryProofs.dfy`, `DiscoveryStops.dfy`, `DiscoveryLaws.dfy` | multi-class discovery start with rollback |
| `Reconfigure.dfy`, `ReconfigureLaws.dfy` | swapping a stored device for a rebuilt one |
| `ReconfigureContext.dfy`, `ReconfigureContextProofs.dfy`, `ReconfigureContextEntries.dfy` | reference-counted reconfiguration contexts |
| `Removal.dfy`, `RemovalOverlap.dfy`, `RemovalLaws.dfy` | endpoint and device removal, scrubbing; removals that overlap |
| `UriPattern.dfy` | wildcard patterns to regular expressions |
| `TrickleIce.dfy`, `TrickleProofs.dfy`, `TrickleOrder.dfy`, `TrickleItems.dfy` | trickle ICE hand-over (section 9 of RFC 8838) |
| `SubsystemReady.dfy`, `SubsystemMigration.dfy` | readiness barrier; persisted version migration |
| `Descriptors.dfy`, `DescriptorProofs.dfy`, `DescriptorFlags.dfy` | descriptor list downloads and the ready callback |
| `RawLiteral.dfy`, `Decimal.dfy`, `Basics.dfy` | C++ raw-literal embedding; decimal print and parse; shared types |

## What turned out not to hold as documented

Each of these is stated with an instance, or with a failing run for every input of a family, and
with the exact condition under which the code does meet the property.

- A watchdog window of more than 4294967 seconds wraps (`WindowExactIff`, `WindowWraps`), and a
  delay shorter than the timeout by more than 2^31 seconds reads as an extension
  (`SavedSecondsExactIff`, `ShortDelayReadAsExtension`).
- Callbacks are called after the lock is released, so a device can be reported restored and then
  failed (`RestoredBeforeFailed`). Deliveries alternate if and only if each is made before the next
  change of the flag (`DeliveriesAlternateIff`); decisions always do (`NotificationsConserved`).
- The discovery monitor calls a stop callback without testing for it, unlike the rollback
  (`NullStopReached`, `NullStopNeverIff`). The rollback skips a driver without one, so failed
  attempts start it over and over (`GrowsWithoutBound`, `BalancedIff`).
- The expression made from a URI pattern is searched for unanchored, so it finds exactly what the
  pattern means only for patterns that begin and end with a star and have no dot
  (`SearchExactIff`, `UnanchoredOvermatches`); as a whole-text match it is exact if and only if
  there is no dot (`TranslationExactIff`, `DotOvermatches`). It never misses a key
  (`SearchNeverMisses`).
- After a failed reconfiguration the device reads as needing one again if and only if its driver is
  registered (`FailureOnlyFlags`, `LostDriverIsNotRetried`).
- A reconfiguration task can finish before its scheduler stores the task handle in the context
  (`HandleWrittenLate`, `HandleWriteIsLive`). A context is removed by device, not by identity, so a
  late cancel can leave a waiting task without a pending entry (`WaitingButNotPending`,
  `EntryKeptIff`, `BehavedKeepsEntries`). A cancelled task's context is never destroyed
  (`CancelledLeaks`, `CancelledIsNeverDestroyed`).
- Removals work on a clone and without a lock: two at a time can leave a device with no enabled
  endpoint, or tell of one endpoint twice (`TwoAtATime`, `TwiceTold`, `OverlapScrubbedIff`,
  `OverlapConservedIff`). A scrub drops devices without a device-removed event
  (`ScrubbedWithoutWord`, `ScrubIsSilent`).
- Migrations chain through what was recorded; one whose version could not be saved is run again
  (`UnsavedRunsTwice`, `RecordedIffSaved`, `ChainLinkIff`).
- A label or date added is lost where the rebuilt side lacks the resource (`LabelLost`,
  `SuccessKeepsLabelsIff`).
- A live candidate can overtake a buffered one (`LiveOvertakesBuffered`, `SendOrderKeptIff`,
  `FeedOrderKeptIff`). A viewer can start in the middle of a fragment (`JoinsMidFragment`,
  `StartWellIff`).
- A descriptor task can skip on an old URL when saving a newer URL failed
  (`UnsavedUrlSkipsWrongly`, `RecordTrueAlongIff`).
- A descriptor list can be flagged valid when it is not. When the recorded file no longer
  validates, a skipped download flags it all the same; and a deny list that was not wanted, or was
  unlinked, stays flagged when one is asked for again and cannot be had (`BareDenylist`,
  `FlagTrustedIff`, `AllowFlagTrueIff`). The callback can then fire with an invalid allow list or
  without the deny list (`FiresOnInvalidAllowlist`, `WaiverOutlivesRequest`,
  `UnlinkOutlivesRequest`, `FiresOnlyWhenBothValidIff`), or be left waiting with both lists flagged
  (`StaleAllowOwes`, `CalledWhenBothFlaggedIff`) or with a deny list no longer wanted
  (`UnwantedHoldsBack`).

## Model

| member | source | states |
|---|---|---|
| Watchdog.CommunicationWatchdog.MonitorDevice | core/src/deviceCommunicationWatchdog.c:156-194 | registers a fresh countdown of the (wrapping) window, or nothing for a zero timeout or a stopped watchdog |
| Watchdog.CommunicationWatchdog.StopMonitoringDevice | core/src/deviceCommunicationWatchdog.c:196-206 | removes exactly that device |
| Watchdog.CommunicationWatchdog.PetLocked | core/src/deviceCommunicationWatchdog.c:216-240 | under the lock: restarts the countdown and clears the flag of that device only; the restored callback is to be called exactly if it was failed; the contact date is refreshed after 5 seconds |
| Watchdog.CommunicationWatchdog.Call | core/src/deviceCommunicationWatchdog.c:242-254 | after the unlock: one callback that was decided on is delivered, no other changes |
| Watchdog.CommunicationWatchdog.PetDevice | core/src/deviceCommunicationWatchdog.c:208-255 | a contact that no other thread comes in on: lock, then callback |
| Watchdog.CommunicationWatchdog.ForceLocked | core/src/deviceCommunicationWatchdog.c:278-303 | under the lock: sets the flag; the failed callback is to be called exactly if it was clear |
| Watchdog.CommunicationWatchdog.ForceDeviceInCommFail | core/src/deviceCommunicationWatchdog.c:266-318 | the same followed by the callback, when no other thread comes in |
| Watchdog.CommunicationWatchdog.GetRemainingForLPM | core/src/deviceCommunicationWatchdog.c:320-374 | remaining seconds plus the int32_t reading of delay minus timeout when that is not negative; -1 when failed or unknown |
| Watchdog.CommunicationWatchdog.SetRemainingFromLPM | core/src/deviceCommunicationWatchdog.c:376-414 | sets the countdown unless negative, unknown or failed |
| Watchdog.CommunicationWatchdog.CheckDevice | core/src/deviceCommunicationWatchdog.c:500-527 | one device of the check loop: what is left (a hundredth in fast mode) becomes the countdown; at zero an unfailed device is flagged and collected |
| Watchdog.CommunicationWatchdog.CheckDevices | core/src/deviceCommunicationWatchdog.c:488-530 | one pass under the lock checks every device exactly once and collects exactly those that newly failed |
| Watchdog.CommunicationWatchdog.NotifyFailed | core/src/deviceCommunicationWatchdog.c:532-548 | after the unlock: one failed callback for each device collected |
| WatchdogDeadline.RunRefines | core/src/deviceCommunicationWatchdog.c:226-530 | over every run of contacts, checks in both modes, forced failures, restores and deliveries, the countdown and a single deadline agree on the flag and on every notification decided on |
| WatchdogDeadline.NormalModeMeetsIdeal | core/src/deviceCommunicationWatchdog.c:423-530 | in normal mode never earlier than a deadline checks do not move; with one reading per check, in full agreement with it |
| WatchdogDeadline.OneReadingIsIdeal | core/src/deviceCommunicationWatchdog.c:423-448 | with one clock reading per check, checks do not move the deadline |
| WatchdogDeadline.NeverEarlier | core/src/deviceCommunicationWatchdog.c:491-530 | with two readings the failure never comes before the ideal deadline |
| WatchdogDeadline.FailsExactlyAtDeadline | core/src/deviceCommunicationWatchdog.c:423-530 | after a contact and any checks, failed if and only if some check began at or after contact plus window plus the time earlier checks spent between their readings; notified once |
| WatchdogDeadline.WindowExactIff | core/src/deviceCommunicationWatchdog.c:226 | the 32-bit window product is exact if and only if the timeout is at most 4294967 seconds |
| WatchdogDeadline.WindowWraps | core/src/deviceCommunicationWatchdog.c:226 | the first timeout beyond it gives a window of 704 ms |
| WatchdogDeadline.FastIsNeverLater | core/src/deviceCommunicationWatchdog.c:503-515 | at the same readings a fast check leaves no more time and fails whenever a normal one does |
| WatchdogDeadline.FiveFastChecksFail | core/src/deviceCommunicationWatchdog.c:506-509 | whatever its window, a silent device is in comm fail after five fast checks |
| WatchdogDelivery.NotificationsConserved | core/src/deviceCommunicationWatchdog.c:218-545 | over every interleaving, deliveries included: decisions alternate, none is lost or delivered twice, and initial flag plus failures delivered or in flight equals flag now plus restorations delivered or in flight |
| WatchdogDelivery.DeliveriesAlternateIff | core/src/deviceCommunicationWatchdog.c:240-252 | deliveries alternate whichever thread is quicker, if and only if each is made before the next change of the device's flag |
| WatchdogDelivery.RestoredBeforeFailed | core/src/deviceCommunicationWatchdog.c:530-545 | a run that reports restored, then failed, of a device that is not in comm fail |
| WatchdogDeadline.SavedSecondsExactIff | core/src/deviceCommunicationWatchdog.c:320-374 | the saved seconds are exact if and only if difference and sum fit an int32_t |
| WatchdogDeadline.SaveRestoreMovesDeadline | core/src/deviceCommunicationWatchdog.c:320-414 | saving and restoring at one instant moves the deadline by 1000*max(0, delay - timeout) less the dropped part of a second |
| WatchdogDeadline.FailedStaysFailed | core/src/deviceCommunicationWatchdog.c:335-414 | a saved value is negative exactly for a device in comm fail, and restoring it leaves the device as it is |
| WatchdogDeadline.ShortDelayReadAsExtension | core/src/deviceCommunicationWatchdog.c:345-365 | a delay far below the timeout is read as an extension |
| CommFail.EffectiveTimeout | core/src/deviceServiceCommFail.c:82-113 | the value of the override metadata exactly when it is decimal text below 2^32, else the default |
| CommFail.OverrideWins | core/src/deviceServiceCommFail.c:82-113 | a printed override is read back and taken, whatever the default |
| CommFail.CommFailService.SetDeviceTimeoutSecs | core/src/deviceServiceCommFail.c:125-162 | re-registers a managed device with its effective timeout, only when not then monitored; others untouched |
| CommFail.CommFailService.SetDriverTimeoutSecs | core/src/deviceServiceCommFail.c:164-175 | does so for exactly the driver's devices |
| CommFail.CommFailService.SetTimeoutSecs | core/src/deviceServiceCommFail.c:184-194 | afterwards a managed device is monitored if and only if its effective timeout is not zero, with that timeout; custom-driver devices are untouched |
| MediaServer.CameraMediaServer.LookupInit | reference/src/cameraMediaServer.c:182-193 | takes the complete init segment, or joins the pending list with one reference |
| MediaServer.CameraMediaServer.WithdrawPending | reference/src/cameraMediaServer.c:195-212 | a viewer whose header failed leaves the pending list with its reference |
| MediaServer.CameraMediaServer.RegisterClient | reference/src/cameraMediaServer.c:220-238 | a caught-up viewer becomes a client with one reference |
| MediaServer.CameraMediaServer.PushLocked | reference/src/cameraMediaServer.c:348-391 | extends the init segment, or completes it and takes the pending list, or goes live, with a referenced snapshot of the clients |
| MediaServer.CameraMediaServer.PromoteClient | reference/src/cameraMediaServer.c:395-426 | a pending viewer that took the init segment joins clients and snapshot |
| MediaServer.CameraMediaServer.RemoveFailed | reference/src/cameraMediaServer.c:446-464 | failed viewers leave the client list one by one |
| MediaServer.DropFailedExact | reference/src/cameraMediaServer.c:446-464 | exactly the failed viewers are dropped, each with its one reference |
| MediaServer.CameraMediaServer.Destroy | reference/src/cameraMediaServer.c:502-523 | both lists are released and emptied |
| MediaProofs.RunKeeps | reference/src/cameraMediaServer.c:161-467 | lists, references, init segment and every viewer's bytes stay in step over every interleaving |
| MediaProofs.RunPushed | reference/src/cameraMediaServer.c:348-391 | init segment buffers followed by fragment buffers are exactly what was pushed, in order |
| MediaProofs.EveryViewerSeesAStream | reference/src/cameraMediaServer.c:161-467 | in every interleaving each viewer has a prefix of header, complete init segment, gap-free fragments from some index; nothing after the header before the first fragment |
| MediaJoin.StartWellIff | reference/src/cameraMediaServer.c:231-238 | whatever viewers do while given buffers are pushed, each one's first live buffer opens a fragment, if and only if every buffer from the first fragment on does |
| MediaJoin.JoinsMidFragment | reference/src/cameraMediaServer.c:231-238 | a run in which a viewer starts with a buffer in the middle of a fragment |
| MediaProofs.ActiveViewersAreCurrent | reference/src/cameraMediaServer.c:344-467 | between pushes every active viewer is connected and has all of its stream |
| MediaServed.EarlyViewersJoin | reference/src/cameraMediaServer.c:388-426 | a connected viewer that had been deferred is active after the first fragment if and only if something was pushed before it, and then has header, init segment and every fragment from the first on |
| MediaServed.RegisteredViewersStay | reference/src/cameraMediaServer.c:220-238 | a connected viewer that registered is active in every state |
| MediaServed.EveryoneIsServed | reference/src/cameraMediaServer.c:161-467 | where every write is accepted, every viewer whose handler has returned is active between pushes, but for one deferred with no init segment to wait for |
| MediaServed.FragmentStartIff | reference/src/cameraMediaServer.c:366-367 | a buffer opens a fragment if and only if the four bytes after its first four are "moof" or "styp" |
| MediaProofs.ReferencesConserved | reference/src/cameraMediaServer.c:184-523 | between pushes one reference per listed viewer, none listed twice, destroy releases all |
| DiscoveryService.DiscoveryService.ListUnref | core/src/deviceService.c:197-204 | drops one reference; the last frees the list |
| DiscoveryService.DiscoveryService.ChooseClasses | core/src/deviceService.c:451-548 | the classes to start, or a refusal when one cannot be |
| DiscoveryService.DiscoveryService.StartDrivers | core/src/deviceService.c:557-634 | starts the drivers asked for one class and says whether any failed |
| DiscoveryService.DiscoveryService.Rollback | core/src/deviceService.c:639-679 | stops every started driver that has a stop callback, for its class |
| DiscoveryService.DiscoveryService.StartMonitors | core/src/deviceService.c:684-708 | each new class gets a monitor holding its list; the local map's holds are given up |
| DiscoveryService.DiscoveryService.DiscoverStart | core/src/deviceService.c:713-829 | the whole start against its specification function |
| DiscoveryService.DiscoveryService.MonitorStop | core/src/deviceService.c:3422-3460 | the monitor stops its drivers, unchecked |
| DiscoveryService.DiscoveryService.MonitorDelete | core/src/deviceService.c:3474-3484 | the monitor leaves the active map |
| DiscoveryService.DiscoveryService.MonitorUnref | core/src/deviceService.c:3486-3494 | the monitor gives up its list |
| DiscoveryProofs.ChooseRefuses | core/src/deviceService.c:451-548 | a start is refused if and only if some class that is not running cannot be started |
| DiscoveryProofs.RollbackCount | core/src/deviceService.c:639-679 | the rollback stops each started driver with a stop callback as often as it started |
| DiscoveryProofs.StartSucceedsIff | core/src/deviceService.c:713-829 | succeeds if and only if some class is new and every new class can be started with no driver failing |
| DiscoveryLaws.StartsIff | core/src/deviceService.c:451-829 | by registry and answers alone: a start succeeds if and only if some class is new and every new class has the drivers that service and list allow, one that can recover for a recovery, and none that is called fails |
| DiscoveryLaws.RefusedChangesNothing | core/src/deviceService.c:742-751 | one new class that is not admitted refuses the start, and nothing changes |
| DiscoveryLaws.WhoIsStarted | core/src/deviceService.c:557-634 | exactly the drivers of new classes that have the callback and the list, or need none, and start, gain one start each |
| DiscoveryLaws.RefusedWithoutList | core/src/deviceService.c:519-548 | a class whose driver needs the list is refused while the list is not ready |
| DiscoveryLaws.MonitorExits | core/src/deviceService.c:3422-3494 | after a monitor's exit its class and list are gone, the others are as they were, and each running driver with a stop callback was stopped once |
| DiscoveryProofs.StartAllOrNothing | core/src/deviceService.c:557-829 | success adds exactly the new classes and starts each asked driver once; failure leaves map and lists unchanged with every started stoppable driver stopped once |
| DiscoveryProofs.RunKeeps | core/src/deviceService.c:171-204 | ownership of lists and balance of starts and stops are kept by every start and monitor step |
| DiscoveryProofs.EveryRunIsBalanced | core/src/deviceService.c:3422-3494 | over all runs, for every driver with a stop callback: starts minus stops per class is 0 or 1, 1 exactly while discovering; each list's count is its live holders |
| DiscoveryStops.NullStopReached | core/src/deviceService.c:3454-3459 | any driver that can be started and has no stop callback: a run in which the monitor calls the missing one |
| DiscoveryStops.NullStopNeverIff | core/src/deviceService.c:3454-3459 | no run calls a missing stop callback if and only if every registered driver that can be started has one |
| DiscoveryStops.GrowsWithoutBound | core/src/deviceService.c:639-679 | for every k a run of failed starts after which a driver without a stop callback was started k times more than stopped |
| DiscoveryStops.BalancedIff | core/src/deviceService.c:557-829 | for all drivers, until a missing callback is called: starts minus stops stays 0 or 1 over every run if and only if no driver without a stop callback shares a kind of start with another use |
| Reconfigure.DeviceService.YoinkResource | core/src/deviceService.c:3557-3572 | the first resource with the id gets the value |
| Reconfigure.DeviceService.YoinkEndpoint | core/src/deviceService.c:3603-3634 | matching new endpoints take metadata and label; says whether one matched |
| Reconfigure.DeviceService.YoinkCustomizedDeviceData | core/src/deviceService.c:3580-3647 | succeeds if and only if every old endpoint has a match, and then carries all custom data |
| Reconfigure.DeviceService.ReconfigureDeviceTask | core/src/deviceService.c:3649-3780 | the stored devices after the task, and success if and only if every step can be done |
| Reconfigure.DeviceService.DeviceNeedsReconfiguring | core/src/deviceService.c:3782-3858 | true if and only if device and driver exist and class version, a profile version or the flag says so |
| ReconfigureLaws.NeededIff | core/src/deviceService.c:3782-3858 | by stored fields and driver tables alone: needed if and only if device and driver are there and the reported class version differs, or an expected profile version does, or the flag reads true |
| ReconfigureLaws.OtherVersionIsNoticed | core/src/deviceService.c:3801-3815 | a reported class version above or below the stored one makes it needed |
| ReconfigureLaws.OtherProfileIsNoticed | core/src/deviceService.c:3823-3843 | so does one endpoint at another profile version than expected |
| ReconfigureLaws.TaskSucceedsIff | core/src/deviceService.c:3649-3765 | the task gets through if and only if the device is stored with its four identifying resources, a class version is reported, all five callbacks succeed and every old endpoint was rebuilt |
| Reconfigure.CarriedResource | core/src/deviceService.c:3557-3572 | a carried resource has the old value where both sides have it; no other changes |
| Reconfigure.CarryAllKeeps | core/src/deviceService.c:3600-3644 | every old endpoint's metadata and label end up on its match, other endpoints stay as built |
| Reconfigure.SuccessKeepsCustomData | core/src/deviceService.c:3580-3765 | on success metadata but for the flag and each old endpoint's metadata are kept, date added and labels where both sides have the resource; the rest is as rebuilt at the new version, no other device changes |
| Reconfigure.SuccessKeepsLabelsIff | core/src/deviceService.c:3557-3632 | date added and a label are kept if and only if the rebuilt side has the resource or the old one had none |
| Reconfigure.LabelLost | core/src/deviceService.c:3557-3572 | an endpoint rebuilt without a label loses the one it had |
| Reconfigure.FailureOnlyFlags | core/src/deviceService.c:3649-3780 | any failure changes only the flag; the device then needs reconfiguring if and only if its driver is registered |
| Reconfigure.LostDriverIsNotRetried | core/src/deviceService.c:3793-3798 | flagged, and yet the answer is no |
| Reconfigure.SuccessSettles | core/src/deviceService.c:3782-3858 | after success it is needed again if and only if an endpoint was rebuilt at another profile version than expected |
| ReconfigureContext.PendingReconfigurations.SetContext | core/src/deviceService.c:4868-4881 | the map takes a hold of its own |
| ReconfigureContext.PendingReconfigurations.GetContext | core/src/deviceService.c:4885-4896 | a caller that finds a context holds it |
| ReconfigureContext.PendingReconfigurations.RemoveContext | core/src/deviceService.c:4990-5006 | deletes the device's entry and releases what that entry held |
| ReconfigureContext.PendingReconfigurations.IsReconfigurationPending | core/src/deviceService.c:4942-4952 | answers and leaves every count as it was |
| ReconfigureContext.PendingReconfigurations.TaskEnds | core/src/deviceService.c:3772-3780 | the task removes the entry and gives up its own hold |
| ReconfigureContextProofs.CountIsHolders | core/src/deviceService.c:4723-4799 | over every interleaving the count is the number of holders; destroyed if and only if map, task and every getter let go |
| ReconfigureContextProofs.UsesAreLive | core/src/deviceService.c:4868-5045 | no step but the handle write touches a destroyed context, and every entry of the map is live |
| ReconfigureContextEntries.HandleWriteIsLive | core/src/deviceService.c:5037-5039 | whenever a handle is about to be stored: its context is live if and only if the task has not finished or a getter holds it |
| ReconfigureContextProofs.HandleWrittenLate | core/src/deviceService.c:5037-5039 | a run in which it is not |
| ReconfigureContextProofs.CancelledIsNeverDestroyed | core/src/deviceService.c:4764-4768 | a cancelled task keeps its hold over every continuation |
| ReconfigureContextEntries.CancelledLeaks | core/src/deviceService.c:4751-4770 | a run after which only the cancelled task holds the context |
| ReconfigureContextEntries.EntryKeptIff | core/src/deviceService.c:4868-5006 | over every run, a context put into the pending map is still there if and only if no removal for its device came after |
| ReconfigureContextEntries.BehavedKeepsEntries | core/src/deviceService.c:4751-5006 | if getters remove only after their cancel took effect and only their own entry, every listed, waiting or running context has its entry |
| ReconfigureContextProofs.WaitingButNotPending | core/src/deviceService.c:4751-4799 | a run that leaves a waiting task without a pending entry |
| Removal.DeviceService.RemoveDevice | core/src/deviceService.c:1016-1072 | device gone with its events, or marked for removal when unknown |
| Removal.DeviceService.RemoveEndpointById | core/src/deviceService.c:1489-1558 | disables, cascades or removes the last one's device; false when missing or disabled |
| RemovalLaws.RemoveDeviceLaw | core/src/deviceService.c:1016-1072 | the device goes and nothing else, with one event per enabled endpoint and then its own; an unknown one is marked |
| RemovalLaws.NotEnabledIsLeft | core/src/deviceService.c:1498-1506 | a missing or disabled endpoint changes nothing |
| RemovalLaws.CascadeTakesTheDevice | core/src/deviceService.c:1506-1513 | with cascading the whole device goes, and each enabled endpoint is told |
| RemovalLaws.OneOfSeveral | core/src/deviceService.c:1514-1553 | without, the named endpoint is disabled, every other endpoint and device stays, one event |
| RemovalLaws.LastOne | core/src/deviceService.c:1535-1542 | the last enabled one takes the device, with exactly two events |
| RemovalLaws.LastIsTold | core/src/deviceService.c:1506-1553 | an event says that the device goes exactly when it does |
| RemovalLaws.ScrubLaw | core/src/deviceService.c:307-339 | exactly the devices with no enabled endpoint go, and no other changes |
| Removal.DeviceService.ScrubDevices | core/src/deviceService.c:307-339 | exactly the devices without an enabled endpoint go |
| Removal.OneEventPerEndpoint | core/src/deviceService.c:1016-1558 | over every run of removals that do not overlap, exactly one removed event per endpoint that was enabled and is not now, none for any other |
| Removal.ScrubbedForGood | core/src/deviceService.c:307-339 | once scrubbed, every stored device keeps an enabled endpoint, whatever is removed one at a time |
| Removal.OneEventPerDevice | core/src/deviceService.c:1016-1072 | from a scrubbed database on, exactly one device-removed event per device that goes |
| Removal.ScrubIsSilent | core/src/deviceService.c:307-339 | a scrub keeps that count if and only if it does not drop the device |
| Removal.ScrubbedWithoutWord | core/src/deviceService.c:330-334 | a device that goes with no event |
| RemovalOverlap.UndisturbedIsAtomic | core/src/deviceService.c:1489-1558 | a removal that nothing came in on, reading a clone first and committing later, is the atomic one |
| RemovalOverlap.CommitConservesIff | core/src/deviceService.c:1509-1553 | one commit accounts for every endpoint if and only if its endpoint is still enabled, or its device has the endpoints it read |
| RemovalOverlap.CommitScrubbedIff | core/src/deviceService.c:1519-1541 | one commit leaves every device with an enabled endpoint if and only if another one its clone counted on is still enabled |
| RemovalOverlap.OverlapConservedIff | core/src/deviceService.c:1016-1558 | along every interleaving of removals, exactly one event per endpoint no longer enabled, if and only if every commit is fresh |
| RemovalOverlap.OverlapScrubbedIff | core/src/deviceService.c:1016-1558 | along every interleaving, every device keeps an enabled endpoint if and only if no commit spares a device for an endpoint that is gone |
| RemovalOverlap.TwoAtATime | core/src/deviceService.c:1519-1541 | two endpoints removed at a time leave a device with none enabled |
| RemovalOverlap.TwiceTold | core/src/deviceService.c:1506-1553 | one endpoint removed twice at a time is told twice |
| UriPattern.CountWildcards | core/src/deviceService.c:1188-1197 | length plus wildcards is the length of the expression |
| UriPattern.CreateRegexFromPattern | core/src/deviceService.c:1186-1214 | the translated text and its terminator fill the computed buffer exactly |
| UriPattern.DotlessIsGlob | core/src/deviceService.c:1186-1214 | without a dot, the expression matches exactly what the pattern means |
| UriPattern.TranslationExactIff | core/src/deviceService.c:1186-1214 | exact on all texts if and only if the pattern has no dot |
| UriPattern.SearchExactIff | core/src/database/jsonDatabase.c:1844-1866 | the unanchored search is exact if and only if the pattern begins and ends with a star and has no dot |
| UriPattern.SearchNeverMisses | core/src/database/jsonDatabase.c:1844-1866 | it finds at least what the pattern means |
| TrickleIce.CameraStreamState.OnLocalIceCandidate | reference/src/cameraCategory.c:134-157 | queues, or has the caller send now |
| TrickleIce.CameraStreamState.OnRemoteIce | reference/src/cameraCategory.c:186-208 | queues, or has the caller feed now |
| TrickleIce.CameraStreamState.FeedRemoteIceCandidates | reference/src/cameraCategory.c:311-343 | feeds every text item without its prefix and without the empty end marker |
| TrickleItems.ItemsInTurn | reference/src/cameraCategory.c:320-342 | items are fed one after the other, none twice and none left out |
| TrickleItems.PrefixedItem | reference/src/cameraCategory.c:329-336 | a candidate with the attribute prefix is fed without it |
| TrickleItems.PlainItem | reference/src/cameraCategory.c:329-341 | one without is fed as it is |
| TrickleItems.SkippedItems | reference/src/cameraCategory.c:315-341 | end markers, other items and anything but an array feed nothing |
| TrickleIce.CameraStreamState.Signal | reference/src/cameraCategory.c:568-696 | one step of the signaling order, in both roles, with every abort |
| TrickleItems.BothRolesStream | reference/src/cameraCategory.c:568-713 | where every wait, post and setting succeeds the stream is reached in both roles, descriptions in the order of the role |
| TrickleItems.FailureAborts | reference/src/cameraCategory.c:568-696 | a failed or ended wait, post or setting aborts, says nothing and stays aborted |
| TrickleItems.StreamEndsIff | reference/src/cameraCategory.c:735-765 | a stream ends exactly when the session or the user ends it |
| TrickleItems.LatestIsUsed | reference/src/cameraCategory.c:121-130 | the latest description received is the one posted or set |
| TrickleIce.CameraStreamState.EnableTrickle | reference/src/cameraCategory.c:698-707 | both directions are switched on in one critical section |
| TrickleIce.CameraStreamState.FlushBufferedLocalIce | reference/src/cameraCategory.c:292-308 | sends the whole queue in order and empties it |
| TrickleIce.CameraStreamState.FlushBufferedRemoteIce | reference/src/cameraCategory.c:347-363 | feeds the whole queue in order and empties it |
| TrickleProofs.FlushStepsAreTheLoop | reference/src/cameraCategory.c:292-363 | in both directions, popping and passing on step by step under the lock comes to the same as the loop |
| TrickleProofs.NothingLostOrDuplicated | reference/src/cameraCategory.c:134-363 | at every step up to teardown what callbacks brought is, as a multiset, what is queued, in flight and passed on |
| TrickleProofs.FlushedStaysEmpty | reference/src/cameraCategory.c:698-713 | once enabled and flushed, a queue is empty in every later state |
| TrickleProofs.NoneBeforeDescriptions | reference/src/cameraCategory.c:568-713 | every candidate sent or fed comes after the local description was posted and the remote one set |
| TrickleProofs.BufferedKeepOrder | reference/src/cameraCategory.c:292-363 | buffered candidates are passed on in the order they came |
| TrickleOrder.SendOrderKeptIff | reference/src/cameraCategory.c:134-308 | along any run local candidates are sent in the order gathered if and only if each one sent is the earliest not yet sent |
| TrickleOrder.FeedOrderKeptIff | reference/src/cameraCategory.c:186-363 | the same for the camera's messages |
| TrickleOrder.PatientKeepsOrder | reference/src/cameraCategory.c:698-713 | if live candidates wait for the flush to end and for the live ones before them, both directions keep the order of arrival |
| TrickleOrder.LiveOvertakesBuffered | reference/src/cameraCategory.c:134-157 | a run in which a live candidate is sent before a queued one |
| TrickleProofs.StreamingHasDeliveredAll | reference/src/cameraCategory.c:698-713 | while streaming with no callback under way, every candidate, down to the items of each message, was delivered exactly once |
| TrickleItems.EveryItemDelivered | reference/src/cameraCategory.c:311-363 | then the client was given each candidate as often as it stood, prefixed or plain, in the messages that arrived, and never an empty one |
| SubsystemReady.SubsystemManager.IsReadyForDevices | core/src/subsystemManager.c:830-861 | true if and only if every registered subsystem is ready and all drivers started |
| SubsystemReady.SubsystemManager.OnSubsystemInitialized | core/src/subsystemManager.c:187-234 | sets one flag and calls back once if that made all ready |
| SubsystemReady.SubsystemManager.AllDriversStarted | core/src/subsystemManager.c:620-641 | likewise for the drivers |
| SubsystemReady.SoloIsTheMethod | core/src/subsystemManager.c:207-234 | a notification run alone, step by step, does what the method does |
| SubsystemReady.NeverFiresEarly | core/src/subsystemManager.c:187-234 | in every interleaving, fired only after a notification came in from every subsystem and one from the drivers, with all flags set |
| SubsystemReady.SetWhenFiring | core/src/subsystemManager.c:229-233 | all have come in and all flags are set when a call of the callback begins |
| SubsystemReady.FiresAtLeastOnce | core/src/subsystemManager.c:187-641 | when all notifications have finished it has fired: the scans cannot all come too early |
| SubsystemReady.FiresAtMostOncePerNotification | core/src/subsystemManager.c:187-641 | no more calls than notifications |
| SubsystemMigration.SubsystemManager.CheckSubsystemForMigration | core/src/subsystemManager.c:345-414 | property and migration calls after one start |
| SubsystemMigration.CheckRecords | core/src/subsystemManager.c:345-414 | the version on record becomes the target of a recorded migration, otherwise stays; unreadable text changes nothing |
| SubsystemMigration.MigrateCalledIff | core/src/subsystemManager.c:366-386 | the routine is called exactly when there is one and the readable version on record is below the built-in one, once, with the two versions |
| SubsystemMigration.PropertyAfter | core/src/subsystemManager.c:363-413 | the property is written exactly when saving works and the version is the built-in one or was just migrated to it |
| SubsystemMigration.MigrationsChain | core/src/subsystemManager.c:345-414 | over any starts every call goes up and begins where the recorded ones before it ended, and the record is where they led |
| SubsystemMigration.NeverDecreases | core/src/subsystemManager.c:345-414 | the stored version never decreases |
| SubsystemMigration.ChainLinkIff | core/src/subsystemManager.c:345-414 | over any starts a call begins where the one before it ended, if successful, and where it began if not, if and only if success and record agree for it |
| SubsystemMigration.SavedChain | core/src/subsystemManager.c:345-414 | where saves work they agree, and the successful migrations alone form the chain |
| SubsystemMigration.RecordedIffSaved | core/src/subsystemManager.c:402-413 | a successful migration is on record if and only if saving worked |
| SubsystemMigration.UnsavedRunsTwice | core/src/subsystemManager.c:402-413 | otherwise it is run again |
| SubsystemMigration.UnreadableStays | core/src/subsystemManager.c:355-360 | an unreadable version stops all migration |
| Descriptors.DescriptorHandler.CheckAndSetReadyForPairing | core/src/deviceDescriptorHandler.c:199-215 | calls back and forgets the callback when both lists are flagged |
| Descriptors.DescriptorHandler.Initialize | core/src/deviceDescriptorHandler.c:114-158 | flags from the local files, a new callback, and a first check |
| Descriptors.DescriptorHandler.FileNeedsUpdating | core/src/deviceDescriptorHandler.c:652-728 | false if and only if URL and digest are recorded and both agree with the request and the file |
| Descriptors.DescriptorHandler.DownloadFile | core/src/deviceDescriptorHandler.c:596-644 | the file is replaced if and only if the download arrives, validates and is renamed |
| Descriptors.DescriptorHandler.UpdateAllowlistTask | core/src/deviceDescriptorHandler.c:348-418 | one allow-list task, outside and under the lock |
| Descriptors.DescriptorHandler.UpdateDenylistTask | core/src/deviceDescriptorHandler.c:516-580 | one deny-list task |
| Descriptors.DescriptorHandler.UnlinkDenylist | core/src/deviceDescriptorHandler.c:465-477 | file gone, properties blanked |
| DescriptorProofs.FileIsInitialOrValidated | core/src/deviceDescriptorHandler.c:596-644 | over every run a list file is its initial content or the latest validated download, or unlinked |
| DescriptorProofs.RecordTrueAlongIff | core/src/deviceDescriptorHandler.c:348-728 | along any run the record is true at every point if and only if every download accepted in it was recorded well |
| DescriptorProofs.SkipsOnlyWhatWasAccepted | core/src/deviceDescriptorHandler.c:348-728 | a task then skips only when the file is what was last accepted, from the same URL |
| DescriptorProofs.RecordTrueIff | core/src/deviceDescriptorHandler.c:376-384 | exactly when the record is true after an accepted download |
| DescriptorProofs.UnsavedUrlSkipsWrongly | core/src/deviceDescriptorHandler.c:376-384 | an instance where it is not |
| DescriptorProofs.CallbackOncePerInit | core/src/deviceDescriptorHandler.c:199-215 | from any state, between one initialisation and the next the callback fires at most once, and has fired exactly when it no longer waits |
| DescriptorFlags.FlagTrustedIff | core/src/deviceDescriptorHandler.c:386-401 | along any run a list's flag means a valid file, or a deny list not wanted now, at every point, if and only if every task that finds it flagged without a valid file has its download accepted and no skipped download flags an invalid file |
| DescriptorFlags.UnstaleFlagTrustedIff | core/src/deviceDescriptorHandler.c:386-401 | from a record that is not stale, if and only if every such task has its download accepted |
| DescriptorFlags.AllowFlagTrueIff | core/src/deviceDescriptorHandler.c:386-401 | the allow list's flag can be trusted over every run if and only if its record is not stale at the first initialisation |
| DescriptorFlags.BareDenylist | core/src/deviceDescriptorHandler.c:434-480 | from any start a run that leaves the deny list flagged, wanted and without a file |
| DescriptorFlags.FiresOnlyWhenBothValidIff | core/src/deviceDescriptorHandler.c:114-580 | over every run the callback fires only with a valid allow list and a deny list that is valid or not wanted now, if and only if the start is safe: with a valid allow list the deny list's record is not stale; without one none can be accepted, nor a deny list beside a stale one |
| DescriptorFlags.FiringAlong | core/src/deviceDescriptorHandler.c:199-215 | along any run a step fires with both lists valid exactly when the other list, if flagged, is valid; and always where both flags can be trusted |
| DescriptorFlags.FiresOnInvalidAllowlist | core/src/deviceDescriptorHandler.c:386-408 | a run in which it has fired with an invalid allow list |
| DescriptorFlags.CalledWhenBothFlaggedIff | core/src/deviceDescriptorHandler.c:386-408 | whenever both lists are flagged it has fired, if and only if the allow list's record is not stale and a stale deny list has no valid allow list to wait for |
| DescriptorFlags.StaleAllowOwes | core/src/deviceDescriptorHandler.c:386-408 | from any stale allow list, a run that ends with both flagged and the callback waiting |
| DescriptorFlags.WaiverOutlivesRequest | core/src/deviceDescriptorHandler.c:137-158 | no deny list wanted at the initialisation, one asked for in vain: the callback fires without it |
| DescriptorFlags.UnlinkOutlivesRequest | core/src/deviceDescriptorHandler.c:434-480 | the same after a valid deny list was unlinked |
| DescriptorFlags.UnwantedHoldsBack | core/src/deviceDescriptorHandler.c:465-477 | unlinking does not flag the list, so a deny list no longer wanted keeps the callback waiting |
| RawLiteral.CounterSearch | scripts/embed-js-as-header.py:46-75 | within the bound, the search ends on an absent delimiter of at most 15 characters |
| RawLiteral.SomeDelimiterAbsent | scripts/embed-js-as-header.py:59-62 | a text of at most 9*10^12 characters misses the delimiter of some 13-digit counter |
| RawLiteral.LexEmit | scripts/embed-js-as-header.py:146 | the literal reads back as the text, whatever follows, if and only if the closing sequence is not in the text |
| RawLiteral.AbsentDelimiterAbsentCloser | scripts/embed-js-as-header.py:146 | an absent delimiter keeps the closing sequence out |
| RawLiteral.EmbedLiteral | scripts/embed-js-as-header.py:46-146 | the emitted literal lexes to exactly the text, for any text within the bound |
| Decimal.ParsePrint | core/src/subsystemManager.c:407 | a printed number is read back |

## Left out

- Service shutdown, teardown and destruction races; descriptor destroy; subsystem deinitialisation; anything after contexts are cleared.
- Liveness that depends on wake-ups, timed waits or clock progress: only safety is claimed.
- Duplicate keys (repeated classes or drivers, repeated endpoint ids, re-registering a monitored device, setting a context for a device that has one) and NULL identifiers: excluded by precondition or by type, since the outcome rests on library behaviour that is not shown.
- Reconfigure.DeviceService.YoinkEndpoint: with repeated ids among the rebuilt endpoints the source moves the old metadata to the first and leaves the next without; the model copies.
- Aliasing and ownership of the moved strings and lists in reconfiguration: devices are values.
- Discovery events, discovery filters, timeouts and the stop request: a monitor may stop at any time.
- DiscoveryService.DiscoveryService.Rollback: classes are rolled back in list order, not in hash order.
- The callback pointers of the watchdog, read under a second lock: a callback is taken to be set.
- Watchdog.CommunicationWatchdog.MonitorDevice: excludes a device that is already monitored, for which the source frees the record it has just put into the table; CommFail.CommFailService.SetDeviceTimeoutSecs is proved never to ask for it.
- Watchdog.CommunicationWatchdog.SetRemainingFromLPM: a product beyond 32 bits, undefined for signed values in C, is read as two's complement.
- The HTTP response header is any byte sequence, the request line and the player page are not modelled; one pushing thread, and a failed write is permanent for its connection.
- Deferred viewers when the first pushed buffer is already a fragment are dropped unserved, as in the source.
- Candidate JSON text: a message is an array of texts and other items, or not an array.
- Overlapping removals beyond a read and a commit: saving the endpoint, deciding by the clone and the device removal that may follow are one step, and a cascading removal is a device removal; scrubbing while removals are under way.
- Adding devices and acting on a removal mark.
- Regular expressions with brackets, anchors or escapes; reading the pattern's C terminator.
- Descriptors.DescriptorHandler.UpdateDenylistTask: a deny list counts as wanted from its first task on, not from the request that schedules it.
- Overlapping tasks for one descriptor list, repeat policies and the download's temporary file; MD5 is taken as injective.
- The random and UUID fallbacks of the delimiter search, which the stated bound does not reach, and the rest of the generated header.
- Reading a stored version with a sign, blanks or another base; the debug assertion on a missing migration routine.
- The JSON database, GLib, GStreamer, curl, the GObject API, drivers, the Hue driver, storage monitor, command tables and Python test tooling.
