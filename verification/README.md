# Verification of the Soft Patch Panel data and control plane

This project models, in Dafny, the parts of Soft Patch Panel in which a mistake would lose or
misdirect packets, stop a worker, or misread a command: the handover of configuration between the
manager thread and the workers, the MAC/VLAN classifier, component and port management, VLAN
tagging in the packet buffer, the capture pipeline and its files, the command text and the reply
buffer, and the statistics of the nfv forwarding loop.  `dafny verify dfyconfig.toml` checks it all.

| file | what it models |
|---|---|
| `Handover.dfy` | one two-area cell (`ref_index`, `upd_index`), one manager, one worker, all interleavings |
| `ControlPlane*.dfy` | all core lists, forwarder paths and classifier tables at once, the flush, N workers |
| `AbilitySwitch.dfy`, `AbilityIterations.dfy` | the one queue by which all workers switch port abilities together with their paths; what a worker reads from one iteration to the next |
| `AbilityHeld.dfy` | the ability areas workers have fetched and go on using |
| `ControlPlaneAbilities.dfy`, `ControlPlaneSwitches.dfy` | the control plane and the switch of abilities as one system |
| `PortAbility.dfy`, `AbilityBurst.dfy`, `TagEffect.dfy` | the published lists, what they do to a frame and to a burst, and when a configured tag is the one shown |
| `Management.dfy`, `Manager.dfy` | start, stop, port and class commands on values, and the same on fixed arrays in place |
| `CommandEffects.dfy` | what each command does to components, ports, lists, abilities and classes, and what it leaves |
| `Requests.dfy`, `RequestEffects.dfy` | requests from text to management data: decoding against the data, then executing; what the frames of the port then show |
| `Forwarder.dfy` | filling a path and one forwarding pass |
| `Classifier.dfy` | tables built from the list of ports, lookup, fan-out |
| `Buffers.dfy`, `ClassifierWorker.dfy`, `ClassifierRun.dfy` | transmit buffers, the worker's loops, runs with table switches |
| `VlanTag.dfy` | adding and deleting a tag by moving the header in a byte array |
| `Capture.dfy`, `CaptureDrain.dfy` | receiver, writers and ring, one step per access to shared data; when packets stay on the ring |
| `CaptureThreads.dfy`, `PcapFile.dfy` | the procedures of receiver and writers in place; the files |
| `Decimal.dfy`, `Text.dfy`, `CommandText.dfy`, `CommandTrip.dfy` | number and token text, builders, decoder, round trip |
| `StringBuffer.dfy` | the growing reply buffer and the JSON appenders |
| `NfvForward.dfy` | the nfv forwarding pass with shared statistics |
| `SppTypes.dfy` | shared entities and counting lemmas |

Concurrency is modelled as sequences of atomic steps under sequential consistency.  What devices,
rings and clocks answer is a parameter or a nondeterministic step: how many packets a device
accepts (`Nic`, `accepts`), which packets arrive, when commands and stop requests come.

Findings, each a lemma below:

- A classifier cell starts with both indices 0.  Its first update can be lost and its first fill
  can meet the worker; both exactly when the indices are equal on entry (`UpdateDeliversIff`,
  `ClassifierSafeIff`, `FirstTableRace`).  From the first flip on the table is never read while
  written (`TableRaceFree`).
- A component started on the main lcore is accepted, but no worker serves that lcore and the flush
  never ends; a start returns exactly when the lcore has a worker, that is, unless it names the
  main lcore (`StartReturnsIff`, `StartHangsIffMain`).
- An accepted `port add` keeps each port with one component exactly unless its request has eight
  words, for which the decoder's check is skipped, and another component uses the port in that
  direction (`RequestKeepsExclusiveIff`, `LongRequestBreaksExclusive`).
- A `component start` without its type is accepted and leaves its slot free, so that the pending
  list of an lcore grows past its array (`RequestKeepsManagedIff`, `ShortStartsOverflow`).
- Retagging a port is refused for a forwarder, a merger's tx and a classifier's rx, because the
  port count is checked first (`RetagIff`).
- Names are unique only because tokens are never empty: the empty name would be accepted twice
  (`EmptyNameTwice`, `TokensAreWords`).
- A worker goes on using the ability area it fetched when another worker moves the reference.
  Repeated flushes of a component come to write such an area exactly if it has a port, in one
  direction, in common with a component of another lcore that has ports on both sides
  (`ComponentHitsIff`, `HitFromStart`); an accepted `port add` brings this about exactly if the
  port is in use there, which the decoder's check prevents but a request of eight words does not
  (`AddSharesIff`, `CheckedAddSharesIff`).  The indices alone tell less: they name the area in
  force as the one to fill only if a key is queued twice in one switch (`FillCollidesIff`).
- Other workers never move the queued references, but only because a flush leaves no other
  component with equal indices (`OnlyAwaitedWorkerFlips`, `UnsettledNeighbourSplits`).
- While the stop of a classifier is flushed its worker takes the forwarder's branch, and a new
  forwarder runs before its first flush: both move packets exactly if the path an earlier
  component of that number left behind carries any (`StoppedRunsOldPathIff`,
  `StartedRunsOldPathIff`).
- A class command leaves a component with the old class exactly if it changes the class of a port
  that the component sends to without being the first to (`ClassServedIff`).
- The packets of a transmitted burst are all sent or freed exactly once if and only if no ability
  operation fails in it; else some are freed twice (`TransmittedOnceIff`).
- A classifier sends the packets waiting in its old table's buffers by the abilities of the new
  one (`DrainedByNewAbilities`).
- Every operation of a port gets the data of the first entry, so a tag is shown exactly if the
  last entry of the direction adds one and the first entry holds the same control information
  (`ConfiguredTagIff`).  A stop leaves abilities behind, so that a later accepted tag can stay
  without effect; `TagTakesEffectIff` says exactly when, `StaleTagWins` gives the commands.
- A `port add` whose tag leaves out the priority is accepted and gives its frames priority 7
  (`UnprioritisedIsHighest`).
- Packets can stay on the capture ring with every thread idle: exactly those put there while
  every writer is idle, or between an empty dequeue and leaving (`PutStrandsIff`).  This can happen
  with any number of writers (`StrandingRun`).
- The doubling loop of the string buffer ends exactly if the capacity is not 0 (`DoublingEndsIff`).

## Model

| member | source | states |
|---|---|---|
| Handover.SafeAndCurrent | src/vf/spp_forward.c:54-127 | from a settled cell, on every interleaving, the worker never uses the area being written, and between publications it uses the snapshot of the last update that returned |
| Handover.UpdateDeliversIff | src/vf/classifier_mac.c:734-813 | an update delivers its snapshot on every interleaving if and only if the indices differ on entry |
| Handover.ClassifierSafeIff | src/vf/classifier_mac.c:734-813 | no interleaving of manager and classifier worker meets on an area if and only if the indices differ on entry |
| Handover.CarriesSnapshot | src/vf/classifier_mac.c:786-807 | the snapshot of the update under way is what is in force when the manager is idle again |
| Handover.WaitBound | src/vf/spp_forward.c:89-104 | the manager's wait ends after at most three steps of the worker, each of which is possible and decreases a rank |
| Handover.StaysFlipped | src/vf/spp_forward.c:118-128 | once flipped, the cell stays so until the manager has left its loop |
| ControlPlane.StartInv | src/vf/common/spp_proc.c:502-527 | the initial data satisfy the invariant of the control plane |
| ControlPlane.WorkInv | src/vf/spp_vf.c:188-239 | every step of a worker's loop keeps it |
| ControlPlane.ManageInv | src/vf/common/spp_proc.c:858-923 | every step of a flush keeps it, copy-back and erasure included |
| ControlPlane.EditInv | src/vf/common/command_proc.c:744-807 | every command executed on the management data keeps it |
| ControlPlane.RunInv | src/vf/common/command_proc.c:497-518 | it holds after every run of commands, flushes and worker iterations |
| ControlPlaneSafety.RunRaceFree | src/vf/common/spp_proc.c:858-885 | from process start, in every interleaving, no core list, copy-back or path is written where a worker reads |
| ControlPlaneSafety.CoreRaceFree | src/vf/spp_vf.c:200-227 | no worker reads a core list that is being written or copied back |
| ControlPlaneSafety.PathRaceFree | src/vf/spp_forward.c:54-127 | no worker reads a path that is being filled |
| ControlPlaneSafety.TableRaceOnlyFirst | src/vf/classifier_mac.c:756-813 | a table can be read while written only in its first handover, both areas still blank |
| ControlPlaneSafety.TableRaceFree | src/vf/classifier_mac.c:734-813 | once flipped, a table is never again read while written, over every run |
| ControlPlaneSafety.FirstTableRace | src/vf/classifier_mac.c:756-762 | a run from process start in which manager and worker meet on a new classifier's table |
| ControlPlaneSafety.AtMostOneWorker | src/vf/spp_vf.c:205-227 | at every moment of every run at most one worker runs a component |
| ControlPlaneSafety.OnlyLiveRun | src/vf/spp_vf.c:205-227 | between commands whatever runs is live and on its own lcore |
| ControlPlaneSafety.StoppedIsNotRun | src/vf/common/command_proc.c:288-314 | when the flush after a stop is done, no worker runs the stopped component |
| ControlPlaneOldPaths.RunKeepsPath | src/vf/common/command_proc.c:288-314 | over every run in which a number belongs to no forwarder or merger its path stays what it was |
| ControlPlaneOldPaths.StoppedRunsOldPathIff | src/vf/spp_vf.c:214-227 | while the stop of a classifier is flushed its worker can move packets for it if and only if the path an earlier forwarder of its number left carries any, and along no other |
| ControlPlaneOldPaths.StartedRunsOldPathIff | src/vf/common/command_proc.c:249-286 | a new forwarder or merger can move packets before its first flush if and only if the path left in its slot carries any, and along no other |
| ControlPlaneSafety.FlushWaitsForWorkers | src/vf/common/spp_proc.c:858-923 | a flush waits only for a component on a worker's active list |
| ControlPlaneLive.WaitIsBounded | src/vf/spp_vf.c:200-232 | while the manager spins, whatever other workers do, the awaited worker needs fewer steps than a given rank |
| ControlPlaneLive.WaitRankBound | src/vf/spp_vf.c:200-232 | that rank is bounded by the length of the worker's list |
| ControlPlaneLive.FlushCompletes | src/vf/common/command_proc.c:497-518 | from every state of a flush there is a continuation of worker iterations that completes it |
| ControlPlaneLive.UnstaffedHangs | src/vf/spp_vf.c:326-326 | a flush with something pending on an lcore without worker never ends |
| ControlPlaneLive.StartReturnsIff | src/vf/common/command_proc.c:249-286 | an accepted start can return if and only if its lcore has a worker |
| ControlPlaneLive.StartHangsIffMain | src/vf/spp_vf.c:326-326 | after every run from process start, an accepted start can return if and only if it does not name the main lcore |
| ControlPlaneCurrent.StepCurrent | src/vf/common/spp_proc.c:889-923 | every step keeps what the worker of a component sees in line with its configuration not yet flagged as changed, unless a class command passes by it |
| ControlPlaneCurrent.RunCurrent | src/vf/common/spp_proc.c:889-923 | so does every run without such a command |
| ControlPlaneCurrent.ClassImageIff | src/vf/common/spp_proc.c:700-718 | a class command leaves a component unflagged and with another image if and only if it changes the class of a port the component sends to and another is the first to send to it |
| ControlPlaneCurrent.ServesConfiguration | src/vf/spp_forward.c:54-127 | between commands of every run, ports shared or not, a live component that no class command has passed by is served by an image with its receive ports, its transmit ports each with its class, in order, and its name and type; a path moves packets if and only if it has one transmit port and, for a forwarder, one receive port, for a merger, any |
| ControlPlaneCurrent.CarriesIff | src/vf/spp_forward.c:150-159 | along an image that tells of a forwarder or merger packets are moved if and only if type and numbers of ports allow it |
| ControlPlaneCurrent.PathIsImage | src/vf/spp_forward.c:54-127 | the path object that `Update` fills has the ports of such an image in the same slots, and is practical if and only if the image moves packets |
| ControlPlaneCurrent.DeletedIsUnused | src/vf/common/command_proc.c:469-485 | when a port del is done, in every interleaving, the image in use no longer has the port on that side and has the others |
| ControlPlaneCurrent.AddedIsUsed | src/vf/common/command_proc.c:411-467 | when an accepted port add is done it has it |
| ControlPlaneCurrent.ClassServedIff | src/vf/common/command_proc.c:137-221 | when a class command is done, the worker of a component served before uses the configuration if and only if the command did not pass by it |
| ControlPlaneSettled.OthersSettled | src/vf/common/spp_proc.c:889-923 | over every run, while a component is filled, published or awaited every other component on a worker's list is live and has its indices apart, and so has this one before publication if it has ports |
| ControlPlaneSettled.OnlyAwaitedWorkerFlips | src/vf/common/spp_port.c:230-244 | so any worker about to move references then is the one running the component awaited |
| AbilitySwitch.RunSwitches | src/vf/common/spp_port.c:201-245 | N components that come and go between lcores and share ports in any way, N workers, one queue, each port and direction queued once per switch: in every interleaving no ability area or settled path in force is filled, only the awaited worker moves queued references, and after a completed switch the indices name the job's path and abilities |
| AbilitySwitch.FillCollidesIff | src/vf/common/spp_port.c:248-304 | the index of the area to be filled equals the reference if and only if the key was already queued in this switch; areas fetched before are the next rows |
| AbilityHeld.StepCurrentIff | src/vf/common/spp_port.c:60-78 | a move leaves a worker with an area no longer in force if and only if it moves the reference of a key that worker holds |
| AbilityHeld.HoldSafe | src/vf/common/spp_port.c:60-78 | one worker, one key, every run in which no other lcore's flush concerns the key while it is in use: the area held is in force and never written |
| AbilityHeld.HeldSafe | src/vf/common/spp_port.c:248-304 | every run whose switches share no key with another lcore: all areas held are in force and none is written |
| AbilityHeld.FlushesHitIff | src/vf/common/spp_port.c:278-279 | between commands, flushes of a component can come to write an area a worker holds if and only if the component shares a key with one another lcore runs |
| AbilityHeld.HitFromStart | src/vf/common/spp_port.c:278-279 | a run from the start, each key queued once per flush, that writes the area a worker holds |
| AbilityIterations.IterationsAgree | src/vf/spp_forward.c:117-183 | between two iterations of a component without a flip of its path, whatever manager and other workers do and wherever other components and ports go, its worker reads the same path, and the same ability of every key no other component switches |
| AbilityIterations.FlipChangesTogether | src/vf/spp_forward.c:117-128 | across the flip of its path a component goes over to the job's path and, of the keys no other component switches, all the job's abilities at once, the others staying |
| AbilityIterations.ExclusiveApart | src/vf/common/command_dec.c:457-517 | while no port serves two components in one direction, no other component's flush concerns a component's keys |
| AbilitySwitch.OnlyAwaitedFlips | src/vf/common/spp_port.c:230-244 | while the queue holds anything only the worker awaited for its job flips it |
| AbilityIterations.UnsettledNeighbourSplits | src/vf/common/spp_port.c:230-244 | a worker whose component had equal indices meanwhile would put a queued ability in force before its path is published |
| AbilityIterations.DrainedByNewAbilities | src/vf/classifier_mac.c:735-753 | after the last reference and before the flip of the path, where a classifier drains its old buffers, path and table are the old ones and the abilities the new |
| AbilityIterations.ComponentQueuesOnce | src/vf/common/spp_port.c:307-321 | the management invariant gives that a component's flush queues each port and direction once |
| ControlPlaneSwitches.ActAgrees | src/vf/common/spp_proc.c:889-923 | every step of the control plane is a possible move of the switch, its assumptions proved, and the two views agree again |
| ControlPlaneSwitches.RunProjects | src/vf/common/spp_proc.c:889-923 | every run of the one system is a run of the switch, each key queued once, and a run of the control plane |
| ControlPlaneSwitches.FlushSwitches | src/vf/common/spp_port.c:248-321 | from process start, in every run: no ability area in force is written, only the awaited component's worker moves references, and when the wait is over the published list of every port of the component is in force |
| ControlPlaneSwitches.SharedIff | src/vf/common/spp_proc.c:889-903 | when the manager turns to a component, the switch shares a key with another lcore if and only if the component has a port in common with a live one there |
| ControlPlaneSwitches.FlushesNeverHit | src/vf/common/spp_port.c:278-279 | from process start, over every run whose flushes are of components without such a port, no ability area a worker holds is written |
| ControlPlaneSwitches.ComponentHitsIff | src/vf/common/spp_port.c:278-279 | in every state of the one system in which the manager turns to a component with ports, repeated flushes can write an area held if and only if it has such a port |
| ControlPlaneSwitches.AddSharesIff | src/vf/common/command_proc.c:409-468 | an accepted port add makes its component share a port if and only if it did or the port is in use by a component of another lcore with ports on both sides |
| ControlPlaneSwitches.CheckedAddSharesIff | src/vf/common/command_dec.c:457-517 | where the decoder makes its check, a component shares a port after an accepted port add if and only if it did before |
| AbilitySwitch.ContentStep | src/vf/common/spp_port.c:201-321 | every move of manager or any worker keeps queued abilities in the spare areas and visible ones untouched |
| AbilitySwitch.IndexStep | src/vf/common/spp_port.c:201-245 | two indices agree exactly while the key is queued and not flipped, queued twice or not |
| PortAbility.PublishedExact | src/vf/common/spp_port.c:248-304 | the published list has exactly the entries of that direction with an operation, without gaps, in order, unchanged but for the control information computed for added tags |
| PortAbility.AbilityInfo.SetAbility | src/vf/common/spp_port.c:248-304 | the in-place filter writes exactly that list to the update area and nothing to the other |
| PortAbility.AbilityInfo.ChangeRef | src/vf/common/spp_port.c:232-241 | the reference index leaves the released area |
| PortAbility.EachOperation | src/vf/common/spp_port.c:337-365 | the loop on one frame and any list: entries in order up to the first empty one, each with the first entry's data |
| AbilityBurst.EachOperation | src/vf/common/spp_port.c:337-365 | the loop over operations and packets, failures included, computes `BurstFrom` and frees the packets behind |
| AbilityBurst.OnBuffer | src/vf/common/spp_port.c:92-178 | one operation in place on a packet buffer: frame, headroom and failure are those of `Operation` |
| AbilityBurst.AllPackets | src/vf/common/spp_port.c:128-147 | one operation on a burst stops at the first packet it fails on |
| AbilityBurst.BurstIsPrefix | src/vf/common/spp_port.c:337-365 | what is left of a burst is the longest run from its front of packets that pass all operations, each as it would by itself |
| AbilityBurst.TransmittedOnceIff | src/vf/common/spp_port.c:390-409 | every packet of a transmitted burst is sent or freed exactly once if and only if all pass all operations |
| PortAbility.ShowsTagIff | src/vf/common/spp_port.c:337-365 | a published list makes every frame carry a given TCI if and only if its last entry adds a tag and its first entry holds that TCI |
| PortAbility.ConfiguredTagIff | src/vf/common/spp_port.c:337-365 | the condition for one configured entry of the list |
| PortAbility.UntaggedFrom | src/vf/common/spp_port.c:337-365 | what any list leaves of an untagged frame |
| PortAbility.LongFramesDone | src/vf/common/spp_port.c:337-365 | a frame with four octets for every operation passes all of them |
| PortAbility.CutOffFrame | src/vf/common/spp_port.c:149-178 | a frame that is too short for a second deletion |
| PortAbility.TagCrossesLink | src/vf/common/spp_port.c:92-178 | tagging on one port and deleting on the next gives an untagged frame back |
| TagEffect.TagTakesEffectIff | src/vf/common/command_proc.c:409-468 | an accepted tagged add takes effect if and only if the entries the port had before the command let the tag through |
| TagEffect.FreshPortTakesEffect | src/vf/common/command_proc.c:409-468 | it always does on a port without abilities in that direction |
| TagEffect.RunSane | src/vf/common/command_proc.c:744-807 | the condition above applies after every sequence of commands |
| TagEffect.StaleTagWins | src/vf/common/command_proc.c:288-314 | start, add, stop, start, add, in every process with room, for all types, lcores, ports, directions and tags: the new component's frames carry the old tag, or VID 0 after an old deletion |
| Management.StartManaged | src/vf/common/command_proc.c:249-286 | a start keeps names distinct and ids and pending lists in step |
| Management.StopManaged | src/vf/common/command_proc.c:288-314 | so does a stop |
| Management.PortAddManaged | src/vf/common/command_proc.c:409-468 | a port add keeps the port limits of the type and no port twice |
| Management.PortDelManaged | src/vf/common/command_proc.c:470-487 | so does a port del |
| Management.RunManaged | src/vf/common/command_proc.c:744-807 | the management invariant holds after every sequence of commands |
| Management.RemoveLastFacts | src/vf/common/spp_proc.c:754-820 | the shift-delete takes out one element and nothing else |
| Management.RemoveLastIsWithout | src/vf/common/spp_proc.c:754-820 | on a list without duplicates it is the order-preserving filter |
| Management.AppendInRange | src/vf/common/command_proc.c:281-282 | the unchecked append to a pending list stays in its array |
| Management.EmptyNameTwice | src/vf/common/spp_proc.c:736-751 | in every managed state with two free slots and a usable lcore two starts with the empty name are accepted |
| Management.UntypedStart | src/vf/common/command_proc.c:249-286 | a start without a type takes the first free slot, leaves it free and lengthens the pending list |
| Management.RetagIff | src/vf/common/command_proc.c:409-437 | a retag is accepted if and only if the type has room for one more port |
| Management.AddKeepsExclusiveIff | src/vf/common/command_dec.c:457-517 | an accepted add keeps ports exclusive if and only if no other component uses the port in that direction |
| Management.CheckedAddKeepsExclusive | src/vf/common/command_dec.c:457-517 | where the decoder makes its check, an accepted add keeps ports exclusive |
| Management.LongestAddBreaksExclusive | src/vf/common/command_dec.c:975-985 | where it is skipped, an add with an ability of either kind gives one port to two forwarders |
| Requests.AddWasChecked | src/vf/common/command_dec.c:975-985 | a `port add` decoded against the management data has passed the check unless its request has eight words |
| Requests.RequestKeepsExclusiveIff | src/vf/common/command_dec.c:457-517 | for every text and managed state: an accepted `port add` keeps ports exclusive if and only if the request is shorter than eight words or no other component uses the port |
| Requests.LongRequestBreaksExclusive | src/vf/common/command_dec.c:975-985 | the request text, with add_vlantag or del_vlantag, that gives one port to two forwarders |
| Requests.DecodableIff | src/vf/common/command_dec.c:898-1082 | a decoded request is a command of the management model if and only if it is not a start without type |
| Requests.RequestKeepsManagedIff | src/vf/common/command_proc.c:744-807 | whatever text is decoded and accepted, the management invariant survives if and only if it is not a start without type |
| Requests.RunServed | src/vf/common/command_proc.c:744-807 | it holds after every sequence of request texts without such starts |
| Requests.ShortStartsOverflow | src/vf/common/command_proc.c:281-282 | in every process with a free slot, each such start lengthens the pending list of the usable lcore it names, without end |
| CommandEffects.InitEffect | src/vf/common/spp_proc.c:502-527 | at first no slot, list, ability or class is in use, and the ports added are the physical ones |
| CommandEffects.StartIff | src/vf/common/command_proc.c:250-270 | a start is accepted if and only if the lcore is usable, no component has the name and a slot is free |
| CommandEffects.StartEffect | src/vf/common/command_proc.c:271-286 | the first free slot has that name, type and lcore and no ports, its number is the last of the lcore's list, and nothing else is changed |
| CommandEffects.StopEffect | src/vf/common/command_proc.c:288-314 | the slot is zeroed and its number leaves the list, the others in their order; ports, abilities and classes are untouched; an unknown name changes nothing |
| CommandEffects.AddIff | src/vf/common/command_proc.c:411-456 | a port add is accepted if and only if the component exists, its type has room in the direction, and array and ability list have a place or, for a port it has, an entry to retag |
| CommandEffects.AddEffect | src/vf/common/command_proc.c:418-467 | the port is the last of the component's in that direction, the operation in the first empty entry or over the first tag; other ports, directions, components and lists are as before |
| CommandEffects.DelEffect | src/vf/common/command_proc.c:469-485 | the component is without the port in that direction, the others in their order; the port's entries of the direction have no operation; all else is as before |
| CommandEffects.ClassAddEffect | src/vf/common/command_proc.c:195-220 | accepted if and only if the port was added and has no class; then VID and address are those given, no other class changes, and exactly the first component sending to the port is flagged |
| CommandEffects.ClassDelEffect | src/vf/common/command_proc.c:173-193 | accepted if and only if VID and address agree with the class, a stored zero with everything; then the port has none |
| RequestEffects.RequestDoesIff | src/vf/common/command_proc.c:744-807 | of all eight forms of well-formed request: a command is executed if and only if the management data admit it, and it is the one with every field as the text says |
| RequestEffects.ServeDoes | src/vf/common/command_proc.c:744-807 | serving the text leaves what executing that command leaves, flags cleared, or nothing changed |
| RequestEffects.RequestedTagCarried | src/vf/common/command_proc.c:785-790 | after an accepted request to add a port with a tag, the port having no operation for the direction, its frames carry the VID and the priority in the text |
| RequestEffects.UnprioritisedIsHighest | src/vf/common/command_dec.c:568-592 | a request that leaves the priority out is admitted, and if accepted gives the frames priority 7 |
| RequestEffects.ServedSane | src/vf/common/command_proc.c:744-807 | what the two assume holds after every sequence of texts without untyped starts |
| RequestEffects.RequestedClass | src/vf/common/command_proc.c:137-221 | after a request to classify the port has the VID and the address in the text, and no other port's class has changed |
| RequestEffects.RequestedClassSelects | src/vf/classifier_mac.c:647-696 | so a table built of the ports sends the frames of that VID and address to that port and no other, unless a later port has the same |
| RequestEffects.AddressOnWire | src/vf/common/spp_proc.c:953-995 | the address in a text and the one a frame is compared by are the same octets in the same order |
| Manager.ShiftDelete | src/vf/common/spp_proc.c:754-778 | the in-place loops remove the last occurrence and clear the freed entry |
| Manager.MngData.GetComponentId | src/vf/common/spp_proc.c:736-751 | the first slot of that name |
| Manager.MngData.GetFreeComponent | src/vf/common/spp_proc.c:721-733 | the first free slot |
| Manager.MngData.StartComponent | src/vf/common/command_proc.c:249-286 | on the arrays a start computes the function `Start`, and no more changes |
| Manager.MngData.StopComponent | src/vf/common/command_proc.c:288-314 | a stop computes `Stop` |
| Manager.MngData.AddPort | src/vf/common/command_proc.c:409-468 | a port add computes `PortAdd` |
| Manager.MngData.DelPort | src/vf/common/command_proc.c:470-487 | a port del computes `PortDel` |
| Manager.MngData.CheckUsedPort | src/vf/common/spp_proc.c:663-698 | the first component using the port in that direction |
| Manager.MngData.AddClass | src/vf/common/command_proc.c:137-221 | registering a class computes `ClassAdd` |
| Manager.MngData.DelClass | src/vf/common/command_proc.c:137-221 | unregistering computes `ClassDel` |
| Forwarder.NeverRejected | src/vf/spp_forward.c:54-100 | after any commands a flush meets no forwarder or merger it would reject |
| Forwarder.ForwardPath.Update | src/vf/spp_forward.c:54-100 | the path mirrors the component: every receive slot gets the one transmit port; refused exactly when the limits are exceeded, and then nothing changes |
| Forwarder.ForwardPath.Pass | src/vf/spp_forward.c:135-183 | every packet of a burst is sent or freed, in order, once |
| Classifier.ComponentInfo.Init | src/vf/classifier_mac.c:357-470 | the loop over ports leaves every VID's table saying what the list says; refused only at a port whose VID has a full table, the area then holding the ports before it |
| Classifier.ComponentInfo.Enter | src/vf/classifier_mac.c:389-467 | one port enters its VID's table and no other; refused only by a full table |
| Classifier.ComponentInfo.Uninit | src/vf/classifier_mac.c:486-495 | the area is blank again |
| Classifier.ComponentInfo.SelectCases | src/vf/classifier_mac.c:647-696 | for every list and frame: the last port entered for VID and address; else the multicast code if the VID has any port and the address is a group address; else the last default of the VID; else the last default of untagged frames, also where the VID has no port; else none |
| Classifier.SelectsOne | src/vf/classifier_mac.c:647-696 | these cases leave out nothing: they select one index and no other |
| Classifier.ComponentInfo.SelectIsScan | src/vf/classifier_mac.c:647-696 | for every list and frame the lookup returns what a scan of the list returns |
| Classifier.ComponentInfo.FanoutExact | src/vf/classifier_mac.c:593-644 | a multicast frame goes once to every port of its VID, in order, then once to the last default of untagged frames when tagged, to no port twice; the branch without table is not taken |
| Classifier.ComponentInfo.DestinationsExact | src/vf/classifier_mac.c:702-731 | a frame ends up at the one port selected, at every port of the fan-out, or nowhere, as the list alone says |
| Classifier.DestsOnce | src/vf/classifier_mac.c:593-644 | no port receives a frame twice and only listed ports do |
| Classifier.LastForExact | src/vf/classifier_mac.c:389-467 | the scan picks a matching port and no later one matches |
| Classifier.DefaultForExact | src/vf/classifier_mac.c:421-424 | the default is the last port registered as default |
| Classifier.ActiveForExact | src/vf/classifier_mac.c:414-416 | a VID's ports are listed once each in order |
| Buffers.PushConserves | src/vf/classifier_mac.c:556-574 | a push keeps order per port, uses one reference and leaves room in every buffer |
| Buffers.TransmitConserves | src/vf/classifier_mac.c:512-533 | transmitting loses nothing, whatever the device accepts |
| Buffers.DeliverConserves | src/vf/classifier_mac.c:593-644 | a received packet is dropped once or pushed once per reference it was given |
| Buffers.ClassifyRoutes | src/vf/classifier_mac.c:702-731 | a burst hands every port exactly the packets the list routes to it, in order |
| Buffers.ClassifyDrops | src/vf/classifier_mac.c:702-731 | a burst drops exactly the packets without destination |
| Buffers.ClassifyWaits | src/vf/classifier_mac.c:556-574 | transmission is in bursts of 32 and not otherwise: what waits for a port after a burst is what waited and what was routed to it, modulo 32 |
| Buffers.WireOfBatch | src/vf/classifier_mac.c:519-531 | of a burst the port sends exactly the packets the device accepted, the first ones |
| Buffers.WireInOrder | src/vf/classifier_mac.c:512-533 | a port sends a subsequence of what was handed to it |
| ClassifierWorker.TxSide.TransmitPacket | src/vf/classifier_mac.c:512-533 | the in-place transmit with its freeing loop computes `Transmit` |
| ClassifierWorker.TxSide.TransmitAll | src/vf/classifier_mac.c:536-553 | the drain loop computes `Flush` |
| ClassifierWorker.TxSide.PushPacket | src/vf/classifier_mac.c:556-574 | push, and transmit when full |
| ClassifierWorker.TxSide.HandleMulticast | src/vf/classifier_mac.c:593-644 | the count raised by one less than the number of pushes, then the pushes |
| ClassifierWorker.TxSide.ClassifyPacket | src/vf/classifier_mac.c:702-731 | with a built table the loop computes `Classify` |
| ClassifierRun.RunConserves | src/vf/classifier_mac.c:702-878 | over every run with table switches from the zeroed indices on, per device port: the packets routed to it are, in order and once, sent, freed or waiting in a buffer of less than a burst; references obtained are those given up plus those held |
| ClassifierRun.SwitchConserves | src/vf/classifier_mac.c:734-753 | a switch empties the old buffers before the flip and loses nothing |
| ClassifierRun.EraseLosesNothing | src/vf/classifier_mac.c:797-807 | no packet waits in an area when the manager erases it |
| ClassifierRun.PracticalIff | src/vf/classifier_mac.c:839-847 | a pass classifies if and only if the built table has a receive port, a transmit port and the flag of an entry |
| VlanTag.DeleteAfterAdd | src/vf/common/spp_port.c:92-178 | delete after add restores an untagged frame |
| VlanTag.AddOnTagged | src/vf/common/spp_port.c:101-104 | add on a tagged frame changes its TCI and nothing else |
| VlanTag.TaggedVidIsSeen | src/vf/common/spp_port.h:18-18 | the classifier sees the configured VID and priority, for all values, the bit between them clear, and the old destination |
| VlanTag.SeenOnWire | src/vf/classifier_mac.c:647-696 | the multicast test is the group bit of the first octet; the VID is the twelve bits behind the tag's type, 4095 without a tag |
| VlanTag.Mbuf.AddVlanTag | src/vf/common/spp_port.c:92-126 | the in-place add computes the tagged frame, fails only for want of headroom, then unchanged |
| VlanTag.Mbuf.DelVlanTag | src/vf/common/spp_port.c:149-178 | the in-place delete computes the untagged frame |
| VlanTag.Mbuf.MoveUp | src/vf/common/spp_port.c:168-173 | three overlapping word moves, highest first, are a shift of twelve octets |
| VlanTag.Mbuf.CopyDown | src/vf/common/spp_port.c:115-115 | the overlapping copy down is a shift |
| VlanTag.Mbuf.AddThenDelete | src/vf/common/spp_port.c:92-178 | the two in sequence leave frame and position as they were |
| Capture.RunCounts | src/pcap/spp_pcap.c:776-887 | in every interleaving of single accesses the start-up count is the number of running threads, only a running receiver puts packets on the ring, and no thread ends running |
| Capture.RunConserves | src/pcap/spp_pcap.c:817-909 | received is written plus in the ring plus dropped, and each writer's output is the packets it took in ring order |
| CaptureDrain.StepTidyIff | src/pcap/spp_pcap.c:867-884 | a step ends with packets waiting that a writer may pass by if and only if it puts packets on the ring while a writer is idle or between an empty dequeue and leaving |
| CaptureDrain.StepAttendedIff | src/pcap/spp_pcap.c:867-884 | a step leaves packets without any writer to dequeue them if and only if it puts them while no writer will dequeue before it goes idle |
| CaptureDrain.RunSafe | src/pcap/spp_pcap.c:776-887 | over runs whose puts find every writer ready, no writer is idle or ended while packets wait |
| CaptureDrain.IdleIsWritten | src/pcap/spp_pcap.c:867-884 | over runs whose puts find some writer that dequeues again, everything put on the ring is written once all threads are idle |
| CaptureDrain.PutStrandsIff | src/pcap/spp_pcap.c:776-887 | after a put some run without further puts ends with all threads idle over the packets if and only if no writer would dequeue again before leaving |
| CaptureDrain.PutIdlesIff | src/pcap/spp_pcap.c:776-887 | after a put some run without further puts finds a writer idle over the packets if and only if some writer was not ready |
| CaptureDrain.StrandingRun | src/pcap/spp_pcap.c:867-884 | for every number of threads a run from process start that ends with all idle, count 0 and a packet on the ring |
| CaptureDrain.BarrierMeansRunning | src/pcap/spp_pcap.c:813-815 | passing the barrier means that every thread is counted as running |
| CaptureDrain.DrainProgress | src/pcap/spp_pcap.c:867-909 | once stopped and until a new start, the threads that are not idle take no more steps than a rank that falls with each |
| CaptureDrain.BusyCanGo | src/pcap/spp_pcap.c:841-911 | a thread that is not idle can always take such a step |
| Capture.StepControlled | src/pcap/spp_pcap.c:931-948 | every single access keeps count, status and position in line, stop requests included |
| Capture.PutFills | src/pcap/spp_pcap.c:817-835 | packets are dropped only when the ring is full, the last of the burst, and otherwise put behind those on it |
| Capture.TakeEmpties | src/pcap/spp_pcap.c:867-884 | a writer takes the front of the ring up to a burst, and tests the capture status if and only if there is nothing |
| CaptureThreads.Pipeline.ReceiveAccess | src/pcap/spp_pcap.c:762-838 | each access of the receive procedure in place is the step of `Receive` |
| CaptureThreads.Pipeline.WriteAccess | src/pcap/spp_pcap.c:841-911 | each access of the write procedure in place is the step of `Write` |
| CaptureThreads.Pipeline.Call | src/pcap/spp_pcap.c:762-911 | an uninterrupted call of either is the sequence of its accesses to the end |
| CaptureThreads.Pipeline.Turn | src/pcap/spp_pcap.c:915-953 | an uninterrupted turn of the thread loop is a check and a call |
| PcapFile.ReadBack | src/pcap/spp_pcap.c:669-688 | a file of header and whole records is read back as those records by a reader with its own idea of the format's header |
| PcapFile.Writer.WriteSegments | src/pcap/spp_pcap.c:738-756 | the segment loop copies exactly the first bytes of the chain |
| PcapFile.Writer.WritePacket | src/pcap/spp_pcap.c:694-759 | one whole record, the packet cut to 65535; rotation exactly above the limit; the size stays within max(limit, frame header) + 16 + 65535 |
| PcapFile.Writer.Roll | src/pcap/spp_pcap.c:530-584 | rotation keeps all records and starts the next number |
| PcapFile.Writer.CaptureAll | src/pcap/spp_pcap.c:497-759 | the files of a capture, read back in order of number, hold exactly the packets in order, none split, each with its length, its time to the microsecond, and all of its octets or the first 65535 if there are more |
| Decimal.ValueOfUnsigned | src/spp-ctl/spp_proc.py:167-170 | printing a number in decimal loses nothing |
| Decimal.Width32 | src/vf/common/command_proc.c:638-676 | a 32-bit number takes at most ten digits and a sign |
| Text.DecodeParameterValue | src/vf/common/command_dec.c:227-246 | the splitting loop yields the tokens, refused exactly above the maximum |
| Text.TokensOfJoin | src/vf/common/command_dec.c:227-246 | splitting undoes joining |
| Text.TokensAreWords | src/vf/common/command_dec.c:227-246 | no token is empty |
| Text.TokensKeep | src/vf/common/command_dec.c:227-246 | of every string the tokens are all that is not a delimiter, in order |
| Text.DecimalReadBack | src/vf/common/command_dec.c:261-300 | a printed number is read back although the base is guessed |
| Text.SignedReadBack | src/vf/common/command_dec.c:261-300 | so is a signed one, over the range of an int |
| Text.ChangeMacStrToInt64 | src/vf/common/spp_proc.c:953-995 | the accumulator loop computes the number of any text, partial and overlong ones as well; six octets give the address, first octet in the low byte |
| Text.MacReadBack | src/vf/common/spp_proc.c:953-995 | the text of an address of 48 bits is read back as that address |
| CommandText.SearchIsChoose | src/vf/common/command_dec.c:1008-1025 | the command list gives every name and word count its one command |
| CommandText.DecodeList | src/vf/common/command_dec.c:1029-1082 | the search loop and its errors compute `DecodeWords` |
| CommandText.DecodeParams | src/vf/common/command_dec.c:898-996 | the parameter loop decodes in order up to the first refused value |
| CommandText.DecodeRequest | src/vf/common/command_dec.c:1085-1125 | a request is split, searched and decoded as `Decode` says |
| CommandTrip.RoundTrip | src/spp-ctl/spp_proc.py:167-223 | decoding what spp-ctl prints for a well-formed command gives the command back if and only if the state checks pass, and an error otherwise |
| CommandTrip.SameTextSameMeaning | src/spp-ctl/spp_proc.py:167-223 | well-formed commands printed alike mean the same |
| CommandTrip.BuildIsJoin | src/spp-ctl/spp_proc.py:167-223 | the format expressions print the words joined by single blanks |
| CommandTrip.PortRead | src/vf/common/command_dec.c:127-173 | a printed port is read back |
| CommandTrip.DefaultText | src/vf/common/command_dec.c:624-644 | the text that stands for `default` is the default address |
| CommandTrip.ComponentTexts | src/spp-ctl/spp_proc.py:167-175 | the literal texts of component commands |
| CommandTrip.TagTexts | src/spp-ctl/spp_proc.py:176-201 | the literal texts of port commands with operations |
| CommandTrip.VlanTexts | src/spp-ctl/spp_proc.py:203-223 | the literal texts of table commands with VLAN |
| StringBuffer.DoublingEndsIff | src/vf/common/string_buffer.c:24-40 | the doubling loop can end for a length if and only if it does not start from 0 |
| StringBuffer.StrBuf.Reallocate | src/vf/common/string_buffer.c:24-40 | reallocation keeps the text, and capacity is a doubling that fits |
| StringBuffer.StrBuf.Append | src/vf/common/string_buffer.c:75-95 | append is concatenation, across reallocation, with room for the terminator |
| StringBuffer.StrBuf.RemoveFront | src/vf/common/string_buffer.c:99-110 | the text without its front |
| StringBuffer.StrBuf.Print | src/vf/common/command_proc.c:640-656 | text that fits the reserved room is appended, whatever the filler held |
| StringBuffer.StrBuf.AppendUint | src/vf/common/command_proc.c:640-656 | the reserved room suffices; the buffer then reads old text plus the member |
| StringBuffer.StrBuf.AppendInt | src/vf/common/command_proc.c:660-676 | the same for signed numbers |
| StringBuffer.StrBuf.AppendStr | src/vf/common/command_proc.c:680-696 | the same for strings |
| StringBuffer.StrBuf.AppendArray | src/vf/common/command_proc.c:700-716 | the same for arrays |
| StringBuffer.StrBuf.AppendBlock | src/vf/common/command_proc.c:720-740 | the same for blocks, named and unnamed |
| NfvForward.RunBalanced | src/nfv/main.c:97-142 | over any run, also with records shared and repatched: total rx is total tx plus total drops over distinct records, and every packet is sent or freed once |
| NfvForward.PassPerRecord | src/nfv/main.c:97-142 | a pass adds to each record the bursts of the ports whose receptions count in it, and the packets taken and refused of bursts whose out port counts in it, whichever records coincide |
| NfvForward.RunPerRecord | src/nfv/main.c:97-142 | so over every run, with tables and records changed in between |
| NfvForward.PassPackets | src/nfv/main.c:130-139 | the packets sent are the fronts of the bursts, those freed the rest, in the order of the ports |
| NfvForward.Nfv.ForwardAll | src/nfv/main.c:97-142 | the loop over ports computes `Pass`, and with it these sums and packets |
| NfvForward.Nfv.TransferBurst | src/nfv/main.c:118-140 | one port's turn counts the burst in the record of the port and what is taken and refused in that of the port it is patched to, which may be one, and frees the unsent |

## Left out

- DPDK, EAL setup, device attach, mempools, LZ4, sockets, signals, logging and the Python shell,
  REST and status printing: foreign calls, or thin wrappers that would only add easy members.
- Memory ordering of the C code, torn reads, non-atomic `start_up_cnt += 1`, and 64-bit counter
  wrap: steps are atomic and counters unbounded.
- Allocation failure, in the string buffer and in building a table.
- Checksum value: four arbitrary octets behind the data; four octets of room there are assumed.
- Clearing classifier state on stop: the component is zeroed before its type is tested
  (src/vf/common/command_proc.c:295-303), so it is never reached and nothing is claimed.
- The mirror component and the patch table after an nfv delete: their conservation does not hold.
- CommandText.DecodeRequest: not for the empty request, for which the decoder compares a null name,
  nor for requests of more than 888 characters, names of 32 to 110 characters and address texts of
  32 or more, which overrun the buffers they are copied to.
- append_response_list_value and the response builders above it: compositions of the appenders.
- PcapFile.Writer.WritePacket: without compression and write errors; sizes count what the code
  counts, the frame header and the records, not the file header.
- PcapFile.Writer.CaptureAll: likewise.
- Capture.StepControlled: the error path that leaves RUNNING without decrementing the count
  (src/pcap/spp_pcap.c:899) is excluded, as no write fails.
- CaptureThreads.Pipeline.Call: without interruption; `Capture` interleaves the accesses.
- Requests.AddWasChecked: the decoder accepts port numbers that are negative or past the arrays of
  interfaces, which `get_iface_info` (src/vf/common/spp_proc.c:279-293) uses as indices without a
  check.  Negative ones execute nothing here, and large ones are ports like any other; requests
  the decoder answers itself execute nothing either.
- ControlPlane.RunInv: commands have a type where they start a component (`Requests.DecodableIff`).
- PortAbility.EachOperation: a frame that is too short for an operation is an outcome of its own;
  the code reads behind its end.  Headroom for added tags is assumed, `VlanTag` treats its lack.
- AbilitySwitch.RunSwitches: the update of an ability's list and its index are separate moves, the
  list's entries are not.  What it assumes is proved in `ControlPlaneSwitches.ActAgrees`.
  A flush that a full classifier table ends early leaves its ports queued, which is excluded.
- Forwarder.ForwardPath.Pass: bursts without ability operations, which are in `AbilityBurst`.
- AbilityHeld.HeldSafe: a worker is taken to use the abilities of all ports of a component that has
  ports on both sides, also of a classifier's ports without class.
- ControlPlaneSwitches.FlushSwitches: ports come from a set of registered interfaces, each with
  areas of its own.
- VlanTag.Mbuf.CopyDown: `rte_memcpy` on overlapping areas is taken as an ascending copy.
- ClassifierWorker.TxSide.TransmitPacket: a buffer is a growing list in a field, not an array
  with a counter; its bound is proved.
- ClassifierRun.RunConserves: one component, its worker's index check, drain and pass as steps;
  that manager and worker do not meet on an area is `ControlPlaneSafety.TableRaceFree`.
- ControlPlaneCurrent.ServesConfiguration: for components no class command has passed by; lcores
  that are not main have status FORWARD throughout.
- NfvForward.Nfv.TransferBurst: a record is named by its number rather than by a pointer.
- Manager.MngData.AddPort: arrays per component and lcore; the pool of interfaces is a map.
