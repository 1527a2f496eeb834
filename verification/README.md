# Verification of the process supervisor and its driver core

A Dafny model of four components, with proofs about every run of them.

**The process supervisor** (`pdm/src`, `pdm/include`) keeps child processes alive. A fixed table of
process records moves between four intrusive circular lists: the pool, Normal, Exiting and Killing. A
busy record belongs to one manager; managers without a process wait in a queue. Static managers always
want a process, dynamic ones want one while a card is in their slot. Timers, signals and card reports
drive everything. The model has two layers.

* `SupModel` is the state machine on values, with one function for each function of the source;
  `SupShutdown` adds the phases of shutdown. The modules `SupInv`, `SupSteps`, `SupChildren`, `SupCards`
  and `SupTraversal` state the invariants and prove that every handler keeps them. `SupRuns` puts the
  handlers together into runs, `SupEscalation`, `SupProgress` and `SupHistory` prove what holds over
  whole runs, `SupFaults` when a run comes to a fault, `SupShutdown` what is left at the end. `SupTicks`
  gives the whole effect of every event, without the functions that compute it; `SupTimers` says exactly
  when each timer is armed, and `SupKilling` that dead processes leave the Killing list in time.
* `CList`, `Entities` and `Supervisor` are the program in its own form: headers with next and previous
  pointers, records and managers that point at each other, methods that update them in place and loops
  that follow the pointers. Every method is proved to do to the state, read off the heap by `View`, what
  its function in the value model does. An assertion of the source about states, links and lists is a
  precondition that its callers are proved to meet, or a branch proved unreachable where it stands;
  assertions on failures of the environment are, as in a release build, the plain return path.
  `Queues` holds the facts about lists as sequences.

**The card registry** (`Registry`, `RegistryProofs`, `RegistryRuns`, `DriverCoreImpl`) of
`pdm/driver/src/pdm_drv_ext.c`: drivers register and unregister while cards come and go in any order.
`RegistryRuns` says what every call does, and over every run what the driver core remembers of it.
`SupStart` is the start: loading the driver module (`pdm/driver/src/dmd.c`) brings the slot of the device
file on line, and the program then starts with every invariant (`StartOk`). Agreement between managers and
driver is about the slots the program cares for, which do not include that one.

**The interrupt hand-off** (`SlotInt`) of the same file: an interrupt masks a slot and schedules one of
two alternating work items, the handler runs under the slot mutex and may unmask, the application enables
and disables, all interleaved in atomic steps.

**Register access**: the raw window copy of `pdm/driver/src/pdm_drv_hw.c` (`RegWindow`) and the bit-field
toolkit of `include/driver/reg_def_toolkit.h` (`RegField`).

The environment appears as parameters of events: what fork returns, the order in which waitpid hands out
zombies, when children die, what cards are reported, what driver modules do, and what an online callback
would answer. It is trusted with this much only: fork returns a pid that no unreaped child has, waitpid
reports every zombie once, nobody but the supervisor issues on and off line ioctls, no driver unregisters
a type it never registered while a slot holds it (`SupRuns.Possible`). The interrupt controller is trusted
to raise an interrupt only for an unmasked slot (`SlotInt.CanStep`); the handling of the status register
itself (`SlotInt.HandleSlotInt`) does not rely on it.

The records of managers carry three histories the program does not keep: the reports since a slot lost
its last card, the on and off line ioctls, and the signals sent to the present child. They are written,
never read, by the handlers, and let invariants speak about the past.

Properties that the code has only under a condition are stated with the exact condition.

* An online callback that fails when a process is replaced leaves the manager with a card, but neither
  queued nor attached (`SupHistory.StopAgreesIff`, `SupWitness.DroppedManagerWitness`). The next report of
  anything but that card takes the manager off a queue it is not in, through null links: the program
  faults, and the model records it in the field `faulted` and goes no further. `SupFaults` says exactly
  which reports, events and runs come to that (`StepFaultsIff`, `DroppedSince`, `RunFaultsIff`);
  `SupWitness.FaultWitness` is such a run from the start of the program.
* The assertion of the signalling functions at shutdown holds exactly if no process is being killed when it
  begins (`SupShutdown.SignalsAllowedIff`).
* Unregistering a type calls a null callback exactly if it is not registered and some slot holds it
  (`DriverCoreImpl.DriverCore.UnregOnlineOfflineCb`).
* A registration whose callback fails still registers the type (`RegistryProofs.RegisterOkIff`,
  `RegistryProofs.RegisterFailureWitness`).
* Unmasking while work is outstanding can lose an interrupt (`SlotInt.EnableOkIff`,
  `SlotInt.LostInterruptWitness`).
* Raw register transfers move whole units, so an odd share of a window takes one byte too many
  (`RegWindow.OddReadWitness`); `RegWindow.ReadExactIff` and `RegWindow.WriteExactIff` say exactly when they
  are right all the same.
* The field layout is independent of endianness exactly if the widths fill the register
  (`RegField.EndianIndependentIff`).

Verify with `dafny verify dfyconfig.toml`.

## Model

The functions of `SupModel`, `Registry`, `SlotInt`, `RegWindow` and `RegField` only compute; the rows name the
lemmas and methods that say what they amount to: laws on single calls and events, and what follows over runs.
Lemmas that only prepare others have no rows.

| member | source | states |
|---|---|---|
| CList.Rings.IntDel | pdm/include/cplist.h:57-63 | the neighbours of a node point at each other, and no pointer of any other list changes |
| CList.Rings.AddTail | pdm/include/cplist.h:110-113 | a node that is in no list becomes the last of list k; every ring stays closed both ways, every other list is unchanged |
| CList.Rings.Accept | pdm/include/cplist.h:143-148 | whichever list holds the node, the target included, loses it, and it becomes the last of the target; rings stay closed and disjoint |
| CList.Rings.Delete | pdm/include/cplist.h:48-55 | a node leaves its list, its pointers are null, the lists keep everything else in order |
| CList.Rings.GetFirstEntry | pdm/include/cplist.h:121-129 | null exactly for an empty list, else the first node |
| CList.Rings.NextAt | pdm/include/cplist.h:170-181 | following next from the head visits the list in order and meets the head exactly at its end |
| Queues.AcceptMembers | pdm/include/cplist.h:143-148 | over any number of disjoint lists accept keeps them disjoint, puts the node in the target only, and moves no other |
| Queues.AcceptOthers | pdm/include/cplist.h:143-148 | a list that neither held the node nor is the target is unchanged; the target only grows at its end |
| Queues.DelMembers | pdm/include/cplist.h:48-63 | removal takes out that node and nothing else, and keeps the list free of repetitions |
| Entities.RtPrcInfo.Start | pdm/src/rt_prc_info.cpp:68-122 | called on a free record without pid and counts only; a failed fork changes nothing, otherwise the record is Normal with the new pid |
| Entities.RtPrcInfo.Stop | pdm/src/rt_prc_info.cpp:128-151 | called on a busy record only; while the child lives the record is untouched; a zombie, or a child reaped before, frees state and pid |
| Entities.RtPrcInfo.SignalTerm | pdm/src/rt_prc_info.cpp:230-242 | called on a Normal or Exiting record of an unreaped child only; TERM is sent, the state is Exiting |
| Entities.RtPrcInfo.SignalKill | pdm/src/rt_prc_info.cpp:213-225 | called on a Normal or Exiting record of an unreaped child only; KILL is sent, the state is Killing |
| Entities.Tables.BuildBdAss | pdm/include/bd_ass.h:102-107 | both ends were free, and now point at each other; nothing else changes |
| Entities.Tables.DestroyBdAss | pdm/include/bd_ass.h:112-117 | both ends were attached, and are now free; nothing else changes |
| SupervisorImpl.Supervisor.STerm | pdm/src/rt_prc_info.cpp:561-583 | one TERM goes to the record's pid, and the pointer version does what the model does: counters cleared, timer armed if the list was empty, move to Exiting |
| SupervisorImpl.Supervisor.SKill | pdm/src/rt_prc_info.cpp:589-618 | likewise with KILL and the Killing list; nothing at all, and no signal, when killing is disabled |
| SupervisorImpl.Supervisor.SCapture | pdm/src/rt_prc_info.cpp:507-532 | called with a non-empty pool and a manager without a process only: the first pooled record is started, attached and moved to Normal, or nothing changes and -1 is returned |
| SupervisorImpl.Supervisor.SRelease | pdm/src/rt_prc_info.cpp:538-555 | a record whose child is gone is detached, cleared and moved to the pool, or nothing changes and -1 is returned |
| SupervisorImpl.Supervisor.SFindObj | pdm/src/rt_prc_info.cpp:397-408 | the first record of the list with that pid, null exactly if there is none |
| SupervisorImpl.Supervisor.SHello4Live | pdm/src/rt_prc_info.cpp:321-332 | exactly the records of the Normal list expect one more acknowledgement |
| SupervisorImpl.Supervisor.SUpdateLiveState | pdm/src/rt_prc_info.cpp:462-490 | the first Normal record with the sender's pid is acknowledged; -1 and no change if there is none |
| SupervisorImpl.Supervisor.SCheckLiveState | pdm/src/rt_prc_info.cpp:296-316 | the pointer traversal, which holds on to the next node while the current one is moved, supervises every Normal record in turn |
| SupervisorImpl.Supervisor.SCheckTermTimeout | pdm/src/rt_prc_info.cpp:337-355 | the first Exiting record is killed; the timer stops exactly if the list is then empty |
| SupervisorImpl.Supervisor.SCheckKillTimeout | pdm/src/rt_prc_info.cpp:360-389 | the manager of the first Killing record, which always has one, is stopped; the timer stops exactly if the list is then empty |
| SupervisorImpl.Supervisor.SBuryChld | pdm/src/rt_prc_info.cpp:414-457 | the loop ends with no zombie left, having found the record of each, and its manager, and buried it exactly once in the order waitpid gave |
| SupervisorImpl.Supervisor.InitPool | pdm/src/rt_prc_info.cpp:495-501 | every record is in the pool, in table order |
| SupervisorImpl.Supervisor.AddIn2Start | pdm/include/prc_mng_info.h:38-45 | the manager joins the queue at its end; the timer is armed if the queue was empty |
| SupervisorImpl.Supervisor.DelFrom2Start | pdm/include/prc_mng_info.h:46-49 | the manager leaves the queue, the others keep their order |
| SupervisorImpl.Supervisor.Start | pdm/src/prc_mng_info.cpp:15-34 | the first queued manager, which is never attached and never without its card, gets a process and leaves the queue, or stays queued if that fails |
| SupervisorImpl.Supervisor.Stop | pdm/src/prc_mng_info.cpp:71-95 | refines the model of both versions of subStop: nothing while the child lives, else release and requeue |
| SupervisorImpl.Supervisor.Restart | pdm/src/dynamic_prc_info.cpp:124-152 | after a release the old card goes off line; the present card, if any and not exiting, goes on line and the manager is queued |
| SupervisorImpl.Supervisor.StartNow | pdm/src/static_prc_info.cpp:23-49 | the manager leaves the queue exactly if a process was captured |
| SupervisorImpl.Supervisor.SCheckNeedStart | pdm/src/prc_mng_info.cpp:97-111 | the first queued manager is started; the timer stops exactly if the queue is then empty |
| SupervisorImpl.Supervisor.HandleNewType | pdm/src/dynamic_prc_info.cpp:163-248 | all four steps refine the model; demanded is only that the manager is not dropped when its card is contradicted, whatever the driver answers |
| SupervisorImpl.Supervisor.CardGone | pdm/src/dynamic_prc_info.cpp:177-204 | a waiting manager, which must be queued, is dequeued and its slot goes off line; a Normal process gets TERM; a dying one is left alone |
| SupervisorImpl.Supervisor.AcceptCard | pdm/src/dynamic_prc_info.cpp:230-244 | the card is recorded, brought on line and its manager queued |
| SupervisorImpl.Supervisor.SHandleCardChange | pdm/src/dynamic_prc_info.cpp:422-445 | bad slots and types are refused with -1, slots not cared for are ignored, any other report goes to handleNewType, unless it is one of those that fault |
| SupervisorImpl.Supervisor.SCheckDevChange | pdm/src/dynamic_prc_info.cpp:395-412 | one poll handles the slots in order, unless it faults |
| SupervisorImpl.Supervisor.SStart | pdm/src/pdm_main.cpp:88-91 | after start all records are pooled and exactly the static managers queued |
| SupervisorImpl.Supervisor.SSignalAll | pdm/src/pdm_main.cpp:107-111 | one signalling phase goes through dynamic managers from the last to the first, then the static ones, signalling only processes in states the assertions allow |
| SupervisorImpl.Supervisor.SStop | pdm/src/pdm_main.cpp:114-115 | the last phase stops all managers in that order |
| SupervisorImpl.Supervisor.ProcessStop | pdm/src/pdm_main.cpp:103-122 | the whole of Stop refines the model of shutdown if the Killing list is empty when it begins |
| SupervisorImpl.Supervisor.React | pdm/src/rt_prc_info.cpp:247-267 | one turn of the event loop is one step of the model and keeps every invariant, whatever the driver answers, unless the step faults; with succeeding callbacks it keeps the agreement with the driver about the slots cared for |
| SupSteps.RestartAgreesIff | pdm/src/dynamic_prc_info.cpp:124-152 | the manager agrees with the driver afterwards exactly if there is no card to bring on line or that succeeds; otherwise it is dropped |
| SupSteps.StopKeeps | pdm/src/prc_mng_info.cpp:71-95 | stop keeps the invariants, refusals by the driver included; it changes nothing while the child lives and otherwise returns exactly that record to the pool |
| SupChildren.FindBusyFinds | pdm/src/rt_prc_info.cpp:424-442 | the pid of any busy record is found, so no reaped pid is ever unrecognised |
| SupChildren.BuryAllKeeps | pdm/src/rt_prc_info.cpp:414-457 | any order of zombies: invariants kept, exactly those zombies gone, nobody leaves the queue |
| SupChildren.PoolNeverDry | pdm/src/rt_prc_info.cpp:511-517 | a manager without a process always finds a free record |
| SupChildren.StartKeeps | pdm/src/prc_mng_info.cpp:97-111 | a start tick: the forked pid joins the children, the first manager leaves the queue attached; a failed fork changes nothing |
| SupChildren.FailedForkChangesNothing | pdm/src/rt_prc_info.cpp:99-104 | start after a failed fork leaves the whole state equal |
| SupTicks.StopLaw | pdm/src/prc_mng_info.cpp:71-95 | of an attached manager: nothing while the child lives; otherwise the record is free and last in the pool, a static manager waits again, the slot of a dynamic one goes off line and, with a card, on line again, and it waits if the driver accepts; nothing else changes |
| SupTicks.KillTickLaw | pdm/src/rt_prc_info.cpp:360-389 | a kill tick stops the timer if nobody is being killed; does nothing while the first one's child lives; otherwise gives its record back, Killing loses its head, the pid is no child any more, and the timer stays armed exactly if others are left |
| SupTicks.TermTickLaw | pdm/src/rt_prc_info.cpp:337-355 | a term tick stops the timer if nobody is exiting; otherwise, with killing enabled, the first moves to the end of Killing with one KILL sent, and the timer stays armed exactly if others are left |
| SupTicks.StartTickLaw | pdm/src/prc_mng_info.cpp:97-111 | a start tick stops the timer if nobody waits, does nothing if fork fails; otherwise the first manager waiting gets the first record of the pool, made Normal for the new child, and the timer stays armed exactly if others wait |
| SupTicks.HelloTickLaw | pdm/src/rt_prc_info.cpp:321-332 | every Normal process owes one more acknowledgement; nothing else changes |
| SupTicks.HelloAckLaw | pdm/src/rt_prc_info.cpp:462-490 | the Normal process with the sender's pid has acknowledged once more; nothing else changes |
| SupTicks.BuryLaw | pdm/src/rt_prc_info.cpp:421-455 | one round of burying: the zombie is gone and the record that stood for it given back as StopLaw says |
| SupTicks.SigChldLaw | pdm/src/rt_prc_info.cpp:414-457 | whatever the order: no zombie is left, every record that stood for one is free and in the pool, all others and the living children are as before |
| SupTicks.EmptySlotLaw | pdm/src/dynamic_prc_info.cpp:206-245 | a report of a slot without a card is counted and nothing more, or the card accepted: one ioctl, and the manager waits whatever the answer |
| SupTicks.CardedSlotLaw | pdm/src/dynamic_prc_info.cpp:169-204 | a report that contradicts the card makes it forgotten: a waiting manager leaves the queue and one ioctl takes its slot off line, a Normal process gets TERM and is Exiting, one on its way out is left alone |
| SupTimers.TimerLaw | pdm/src/rt_prc_info.cpp:337-389 | each timer: its own tick stops it exactly if nobody waits afterwards; any other event arms it exactly if somebody waits afterwards, and never stops it |
| SupTimers.TimersDue | pdm/src/rt_prc_info.cpp:337-389 | over every run from the start: a timer is armed exactly if somebody has waited for it and none of its ticks has found nobody waiting since |
| SupTimers.InitTimers | pdm/src/pdm_main.cpp:77-101 | after the start a timer is armed exactly if somebody waits for it |
| SupCards.CardChangeLocalised | pdm/src/dynamic_prc_info.cpp:163-248 | a report touches one manager only, and does one of three things: it queues, dequeues for want of a card, or terminates one Normal process |
| SupCards.RunLenMeaning | pdm/src/dynamic_prc_info.cpp:207-217 | the filter counter reaches n exactly if the last n reports were equal |
| SupCards.Debounce | pdm/src/dynamic_prc_info.cpp:206-245 | a slot without a card gets t exactly if no process is attached and the last four reports, this one included, were t |
| SupCards.CardLost | pdm/src/dynamic_prc_info.cpp:169-204 | a card is kept by a report of itself and lost by any other, and counting restarts |
| SupTraversal.CheckLiveStateVisits | pdm/src/rt_prc_info.cpp:296-316 | Normal becomes its live records in order with counters zeroed; Killing becomes its old contents followed by the others in order; nothing else changes |
| SupRuns.StepKeeps | pdm/src/rt_prc_info.cpp:296-457 | an event keeps the global invariant exactly if it does not fault; if managers and driver agree about the slots cared for and the online callbacks of those succeed it does not, and they still agree |
| SupRuns.RunKeeps | pdm/src/rt_prc_info.cpp:507-618 | on every run, up to a fault if there is one: each record in exactly the list of its state, links one to one, pool records free, pids of busy records distinct and exactly the unreaped children, non-empty lists have their timers armed, managers queued or attached never both |
| SupRuns.RunAgrees | pdm/src/dynamic_prc_info.cpp:109-245 | on every run with succeeding callbacks: no fault; a slot cared for is on line exactly when its manager is queued or attached, its ioctls alternate, on line first, each finding the driver in the state it supposes |
| SupRuns.InitOk | pdm/src/pdm_main.cpp:77-101 | after start every record is pooled and exactly the static managers wait, in table order; the state satisfies the invariants, and agrees with the driver if the slots cared for are empty, whatever is in the others |
| SupStart.ModuleInitOk | pdm/driver/src/dmd.c:82-99 | loading the driver module registers the own card type and brings the device's own slot on line, no other, and neither call fails as its callback does not |
| SupStart.StartOk | pdm/driver/src/dmd.c:82-99 | so the program starts with every invariant and in agreement, with its device's own slot on line, out of reach of its ioctls, whatever drivers have come and gone before |
| SupCards.ReportFaultsIff | pdm/src/dynamic_prc_info.cpp:177-204 | a report faults exactly if the slot has another card than the reported one and its manager is neither attached nor queued |
| SupFaults.PollFaultsIff | pdm/src/dynamic_prc_info.cpp:395-412 | a poll faults exactly if one of its reports would fault in the state in which the poll begins |
| SupFaults.StepFaultsIff | pdm/include/prc_mng_info.h:46-49 | an event faults exactly if it reports, for a dropped manager, anything but its card; no timer, signal or start ever does |
| SupFaults.DroppedSince | pdm/src/dynamic_prc_info.cpp:124-152 | over every run from the start, or any state in agreement: a manager is dropped exactly if an earlier event reaped its process and the driver refused its card, which it still has |
| SupFaults.RunFaultsIff | pdm/include/cplist.h:48-63 | over every run from the start, or any state in agreement: event k faults exactly if an earlier event reaped the process of a slot and was refused the card, and event k reports for that slot anything but that card |
| SupWitness.DroppedManagerWitness | pdm/src/dynamic_prc_info.cpp:139-148 | a run of nine events from the start, device's own slot on line: a card is accepted, its process dies, the driver refuses the card, and the manager is dropped |
| SupWitness.FaultWitness | pdm/src/dynamic_prc_info.cpp:177-204 | a tenth event, the report that the slot is empty, makes that run fault |
| SupEscalation.StepEvolves | pdm/src/rt_prc_info.cpp:213-242 | the five things any event can do to a record; a signal goes to an unreaped child, only dead children are released |
| SupEscalation.RunEscalates | pdm/src/rt_prc_info.cpp:561-618 | while a record stands for one child: same pid and manager, state only advances, signals only grow and are a prefix of TERM, KILL or of KILL |
| SupEscalation.RunCounts | pdm/src/rt_prc_info.cpp:158-198 | between supervision ticks the counters are the hello ticks and this process's acknowledgements |
| SupEscalation.WindowOpens | pdm/src/rt_prc_info.cpp:304-309 | both counters are zero when a process starts and when it survives a supervision tick |
| SupEscalation.Verdict | pdm/src/rt_prc_info.cpp:296-316 | a Normal process is killed at a supervision tick exactly if ticks minus acknowledgements is at least 5; of six ticks two acknowledgements suffice and one never does |
| SupProgress.ServedWithin | pdm/src/prc_mng_info.cpp:97-111 | on a run without fault a manager at position p is served, or loses its card, within p + 1 start ticks whose forks succeed, whatever happens in between |
| SupProgress.ExitsWithin | pdm/src/rt_prc_info.cpp:337-355 | on a run without fault and with killing enabled an Exiting record at position p has left Exiting within p + 1 term ticks |
| SupKilling.BuriedWithin | pdm/src/rt_prc_info.cpp:360-389 | on a run without fault, a record at position p of the Killing list, with all children up to its own dead, has left it within p + 1 kill ticks |
| SupHistory.DebounceHistory | pdm/src/dynamic_prc_info.cpp:163-248 | over whole histories: a slot gets card t exactly on the first report of t with no process attached and the last four reports since counting started all t |
| SupHistory.StopAgreesIff | pdm/src/dynamic_prc_info.cpp:127-148 | a dead process of a slot leaves its manager in agreement exactly if the slot has no card by now or bringing it on line succeeds; otherwise the manager is neither attached nor queued |
| SupHistory.AcceptAgreesIff | pdm/src/dynamic_prc_info.cpp:235-244 | the same refusal when a card is accepted: the manager is queued anyway, and agrees with the driver exactly if the callback succeeds |
| SupShutdown.StopOrderCovers | pdm/src/dynamic_prc_info.cpp:311-329 | the loops of a phase reach every manager exactly once, dynamic ones before static ones and each kind from the last to the first |
| SupShutdown.SignalsAllowedIff | pdm/src/rt_prc_info.cpp:213-242 | the TERM phase finds every process in a state its assertion allows exactly if the Killing list is empty when shutdown begins; the KILL phase always does |
| SupShutdown.PhasesKill | pdm/src/pdm_main.cpp:103-113 | however shutdown begins, after both phases every process has been sent TERM then KILL and is Killing, and nothing but children has changed otherwise |
| SupShutdown.ShutdownEnds | pdm/src/pdm_main.cpp:103-122 | whoever dies during the two sleeps: dead children's records are free and in the pool, their managers detached, their slots off line by the last ioctl issued, static ones waiting again; each busy list is what it was without the dead, in order; a record whose child lives is left as it was, manager and slot included; no zombie is left, no timer armed, the program marked as exiting |
| SupShutdown.ShutdownEmpties | pdm/src/pdm_main.cpp:103-122 | if all children are dead by then: every record pooled and free, the busy lists empty, all links cleared, no zombie, no timer armed |
| DriverCoreImpl.DriverCore.RegOnlineOfflineCb | pdm/driver/src/pdm_drv_ext.c:133-198 | the loop over the slots refines the model, including the return value of the last callback made |
| DriverCoreImpl.DriverCore.UnregOnlineOfflineCb | pdm/driver/src/pdm_drv_ext.c:201-246 | the loop takes exactly the slots holding the type off line; it calls a null callback exactly if the type is not registered and some slot holds it |
| DriverCoreImpl.DriverCore.CardOnline | pdm/driver/src/pdm_drv_ext.c:451-514 | refuses bad parameters and occupied slots; records the card unless a registered callback fails |
| DriverCoreImpl.DriverCore.CardOffline | pdm/driver/src/pdm_drv_ext.c:516-568 | an occupied slot loses card, isr and enable flag, and its driver is told |
| DriverCoreImpl.DriverCore.RequestIrq | pdm/driver/src/pdm_drv_ext.c:278-307 | an isr is accepted exactly for an occupied slot without one |
| DriverCoreImpl.DriverCore.FreeIrq | pdm/driver/src/pdm_drv_ext.c:310-328 | the slot is disabled and its isr dropped |
| DriverCoreImpl.DriverCore.SetEnabled | pdm/driver/src/pdm_drv_ext.c:331-373 | the flag of a valid slot is set or cleared and its mask register, if it has one, written accordingly; nothing else changes |
| DriverCoreImpl.DriverCore.CardOnOffLine | pdm/driver/src/file_op.c:477-496 | the ioctl refuses bad slots, the own slot and bad types, and otherwise brings on or off line |
| RegistryProofs.RunOk | pdm/driver/src/pdm_drv_ext.c:133-568 | over every sequence of events a slot's callbacks are active exactly when its card's type has callbacks, and on and off callbacks alternate and match in type |
| RegistryRuns.RegisterLaw | pdm/driver/src/pdm_drv_ext.c:133-198 | refused with -EINVAL for a bad type or a null callback and with -EEXIST for a type that has a driver; otherwise both callbacks are set, each slot holding the type is told unless that fails, the answer is that of the last such slot |
| RegistryRuns.UnregisterLaw | pdm/driver/src/pdm_drv_ext.c:201-246 | afterwards the type has no callback, each slot holding it has been told and is no longer active; cards, interrupts, other types and other slots are as before |
| RegistryRuns.OnlineLaw | pdm/driver/src/pdm_drv_ext.c:451-514 | a card comes on line exactly if slot and type are valid, the slot is empty and the type's driver, if any, accepts; otherwise the answer is negative and nothing changes |
| RegistryRuns.OfflineLaw | pdm/driver/src/pdm_drv_ext.c:516-568 | an occupied slot ends without card and isr, disabled and masked, and its driver is told; any other is left alone |
| RegistryRuns.RequestIrqLaw | pdm/driver/src/pdm_drv_ext.c:278-307 | the answer is 0 exactly for an occupied slot without an isr and an isr that is not null, and then the slot has one; otherwise nothing changes |
| RegistryRuns.FreeIrqLaw | pdm/driver/src/pdm_drv_ext.c:310-328 | the slot ends without isr, disabled and masked, its card and driver untouched |
| RegistryRuns.SetEnabledLaw | pdm/driver/src/pdm_drv_ext.c:331-373 | the flag of a valid slot is what was asked for, its mask register, if any, open exactly if enabled; nothing else changes |
| RegistryRuns.IoctlLaw | pdm/driver/src/file_op.c:477-496 | refused for a bad slot, the own slot and a bad type; otherwise a null card takes the slot off line and any other brings it on line, exactly if the slot is empty and the driver accepts |
| RegistryRuns.RegisteredSince | pdm/driver/src/pdm_drv_ext.c:133-246 | over every run from loading: a type is registered exactly if a registration with both callbacks has no later unregistration |
| RegistryRuns.CardSince | pdm/driver/src/pdm_drv_ext.c:451-568 | over every run: a slot holds a card of a type exactly if one was plugged in and accepted and the slot not unplugged since |
| RegistryRuns.IsrSince | pdm/driver/src/pdm_drv_ext.c:278-328 | over every run: a slot has an isr exactly if one was requested while it was occupied and it was neither freed nor unplugged since |
| RegistryRuns.EnabledSince | pdm/driver/src/pdm_drv_ext.c:310-373 | over every run: a slot is enabled exactly if it was enabled and neither disabled nor freed since, nor unplugged with a card in it |
| RegistryRuns.MaskFollowsFlag | pdm/driver/src/pdm_drv_ext.c:310-373 | over every run: from the first call that touches it on, a mask register is open exactly while its slot is enabled; until then it is as the hardware left it |
| RegistryRuns.RunActive | pdm/driver/src/pdm_drv_ext.c:133-568 | over every run on which registrations' callbacks succeed: a slot's driver has been told of a card exactly if the slot holds one and a driver for its type was registered and not unregistered since |
| RegistryRuns.ActivityOrderIndependent | pdm/driver/src/pdm_drv_ext.c:133-568 | two histories that end with the same card in a slot, and with or without a driver for it, end with the same activity |
| RegistryProofs.RegisterOkIff | pdm/driver/src/pdm_drv_ext.c:168-186 | a registration keeps that exactly if no callback it makes fails |
| RegistryProofs.RegisterFailureWitness | pdm/driver/src/pdm_drv_ext.c:172-186 | one type and one slot on which it does not |
| SlotInt.IrqFindsIdleItem | pdm/driver/src/pdm_drv_ext.c:617-624 | an interrupt finds its work item neither queued nor running |
| SlotInt.EnableOkIff | pdm/driver/src/pdm_drv_ext.c:331-348 | unmasking from the application keeps this exactly if no work is outstanding |
| SlotInt.RunOk | pdm/driver/src/pdm_drv_ext.c:597-651 | over every disciplined interleaving: unmasked plus outstanding at most 1, nothing scheduled twice, taken equals done plus outstanding |
| SlotInt.LostInterruptWitness | pdm/driver/src/pdm_drv_ext.c:331-348 | an undisciplined application loses an interrupt |
| SlotInt.AfterDisable | pdm/driver/src/pdm_drv_ext.c:351-373 | on every run, however undisciplined: after disable has returned and with no later enable at most one more isr call and at most one more interrupt, after which the slot stays masked |
| SlotInt.HandleSlotInt | pdm/driver/src/pdm_drv_ext.c:597-628 | exactly the slots whose bit is set, masked or not, take an interrupt; the result counts them |
| SlotInt.SlotInfo.HandleInt | pdm/driver/src/pdm_drv_ext.c:619-623 | mask, switch work item, schedule: one interrupt taken |
| SlotInt.SlotInfo.EnableInt | pdm/driver/src/pdm_drv_ext.c:331-348 | whatever others do between its two writes: on return the slot is enabled and unmasked, and the hand-off is in order exactly if no work is outstanding by then |
| SlotInt.SlotInfo.DisableInt | pdm/driver/src/pdm_drv_ext.c:351-373 | whatever others do between its two writes: on return the slot is disabled and masked, at most one isr call and one interrupt are still to come, and neither budget has grown |
| SlotInt.SlotInfo.SlotIntHandler | pdm/driver/src/pdm_drv_ext.c:633-651 | whatever others do while it holds the mutex: one handler finished, one isr call exactly if the slot was enabled with an isr when it got the mutex, unmasked exactly if that isr returned a positive value, hand-off kept in order |
| RegWindow.ReadMeaning | pdm/driver/src/pdm_drv_hw.c:140-172 | every covered byte comes from the one window covering it, every other is 0xCC |
| RegWindow.ReadAfterWrite | pdm/driver/src/pdm_drv_hw.c:174-203 | after a write any address reads as the byte written if it is in range and covered, and as before otherwise |
| RegWindow.WriteThenRead | pdm/driver/src/pdm_drv_hw.c:140-203 | reading back the range gives the bytes written wherever a window covers them |
| RegWindow.ReadThenWrite | pdm/driver/src/pdm_drv_hw.c:140-203 | writing back what was read changes nothing |
| RegWindow.WriteSeparate | pdm/driver/src/pdm_drv_hw.c:174-203 | disjoint windows stay disjoint |
| RegWindow.EvenIsWhole | pdm/driver/src/pdm_drv_hw.c:157-163 | even windows and an even range are copied in whole units |
| RegWindow.CopyUnits | pdm/driver/src/pdm_drv_hw.c:157-163 | the copy loop moves the length rounded up to a whole two-byte unit, for every length, and no other byte |
| RegWindow.ReadExactIff | pdm/driver/src/pdm_drv_hw.c:140-172 | for every range and table of disjoint windows: a read delivers exactly what ReadMeaning says, and nothing beyond the buffer, if and only if each byte that an odd share copies too many, and no later window copies over, happens to be the right one |
| RegWindow.ReadWhole | pdm/driver/src/pdm_drv_hw.c:140-172 | in particular when every window's share is whole units, wherever the windows lie |
| RegWindow.WriteExactIff | pdm/driver/src/pdm_drv_hw.c:174-203 | a write changes exactly the covered bytes in range if and only if each byte that an odd share copies too many is there already |
| RegWindow.WriteWhole | pdm/driver/src/pdm_drv_hw.c:174-203 | in particular when every window's share is whole units |
| RegWindow.OddReadWitness | pdm/driver/src/pdm_drv_hw.c:157-163 | one byte read from a window of two: the second goes beyond the buffer |
| RegWindow.RawRegRead | pdm/driver/src/pdm_drv_hw.c:140-172 | for every range, odd ones included, and any number of windows, empty ones included, the loops leave buffer and following byte as the read in units says, and nothing else changed |
| RegWindow.RawRegWrite | pdm/driver/src/pdm_drv_hw.c:174-203 | likewise the loops leave the windows and the bytes following them as the write in units says, and no other memory changed |
| RegField.ForEachAt | include/driver/reg_def_toolkit.h:72-172 | the n-argument expansion lists all arguments, in order forward and reversed backward |
| RegField.EndianIndependentIff | include/driver/reg_def_toolkit.h:182-194 | backward listing from the low bit and forward listing from the high bit give each field the same bits exactly if the widths add up to the register's size |
| RegField.FieldsApart | include/driver/reg_def_toolkit.h:199-216 | fields do not overlap |
| RegField.FieldBounds | include/driver/reg_def_toolkit.h:199-216 | every field lies inside the register |
| RegField.GetBfIsShiftMask | include/driver/reg_def_toolkit.h:250-251 | reading a field is the register's value shifted and masked |
| RegField.AssThenGet | include/driver/reg_def_toolkit.h:262-267 | an assigned field reads as the value modulo two to its width; every field elsewhere reads as before |
| RegField.FromToNat | include/driver/reg_def_toolkit.h:199-207 | a register's bits and its numeric value determine each other |
| RegField.Register.AssBF | include/driver/reg_def_toolkit.h:262-270 | on either kind of machine the read-modify-write sets that field and no other |

## Left out

- The operating system: fork, exec, waitpid, kill, signalfd, timers, work queues and mutexes appear as events and as the small class `Os` with the outcomes stated above. A child's death is an event between handlers; inside a handler it makes no difference before the next waitpid.
- Argument strings, logging, option parsing, device files and their registration, poll and read plumbing, what module loading does besides bringing the own slot on line, the self-test branch of the hello acknowledgement.
- A missing program or card name ends like a failed fork and is one with it here.
- Integer widths of the hello and filter counters: they are reset at every supervision tick or change of report, and are unbounded integers here.
- Table sizes are parameters: any number of slots, static processes, card types, windows and fields. The limit of sixteen macro arguments is not modelled.
- The list headers are fields of records and managers rather than their base class; a header's number stands for the downcast.
- SupervisorImpl.Supervisor.React: requires that the step does not fault, and leaves open what the program does once it has; `SupFaults.StepFaultsIff` and `SupFaults.RunFaultsIff` say exactly when that is. Events inside the driver are not the supervisor's to handle.
- SupervisorImpl.Supervisor.ProcessStop: requires an empty Killing list when shutdown begins, as the assertions of the signalling functions do (`SupShutdown.SignalsAllowedIff`); `SupShutdown.ShutdownEnds` does not. No event is handled during its two sleeps. Its interrupt and file-descriptor calls are left out.
- RegistryProofs.RunOk: supposes that no null callback is called, which `DriverCoreImpl.DriverCore.UnregOnlineOfflineCb` reports otherwise, and that the callbacks made by an accepted registration succeed, without which it fails (`RegistryProofs.RegisterOkIff`). Version information of drivers is left out.
- SlotInt.RunOk: the application is one thread; setting and clearing an isr is atomic and outside a handler's critical section. It models a slot that has a mask register; one without never masks.
- RegWindow.RawRegRead: memory after the buffer and after each mapped window is taken to exist, one byte at least; that the windows are mapped apart from each other and from the buffer is taken for granted.
- RegField.Register.AssBF: for registers whose widths fill them. The raw AND, OR and write macros and the single-bit wrappers are left out as special cases.
- Thin wrappers over ioctl and mmap, the slot and name tables, simulation and dump code, the FPGA loader, the delay routine, seek arithmetic, the test-only write command.
