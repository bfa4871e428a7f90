# A verified model of the msock runtime

msock runs processes that send each other messages. Processes live in domains; each domain is
worked on by one worker thread at a time, and worker threads take domains from a shared lock-free
run queue. An engine domain sleeps in `epoll_wait` when it has nothing to do, and a pipe wakes it.
Around this core lie a hierarchical timer wheel, a slab allocator for messages and processes, and a
map that gives out generation-numbered process ids.

This project models those parts in Dafny and proves what they are for. Verify it with
`dafny verify dfyconfig.toml`.

| files | part |
|---|---|
| `timer_spec`, `timer_slots`, `timer_wheel`, `timer_next`, `timer_runs`, `timer_fifo`, `timer_overtaken`, `timer_history`, `timer_limits`, `timer_base` | the timer wheel, against a map from timers to expiries |
| `msqueue`, `msqueue_solo` | the lock-free run queue, one atomic step at a time |
| `delivery`, `delivery_arrives`, `delivery_base` | messages between domains: order, conservation, and how they come to be consumed |
| `wakeup`, `wakeup_runs`, `wakeup_mail` | workers, senders and the wake pipe: no domain sleeps on a message, and no mail is lost |
| `wakeup_queue`, `wakeup_whole` | workers on the lock-free queue itself: the run queue of `wakeup` is refined by it |
| `wakeup_staff`, `wakeup_moves`, `wakeup_strand`, `wakeup_inside` | how many workers it takes so that no mail waits while all of them sleep |
| `wakeup_pair`, `wakeup_fooled` | the same when gets may be fooled into returning NULL |
| `process`, `process_runs`, `process_lost`, `process_effects`, `process_domain`, `process_served` | scheduling within a domain, selective receive, and when a message is lost |
| `upqueue` | the pointer queues, on the heap |
| `slab_layout`, `slab`, `slab_runs`, `slab_pages`, `slab_zone` | the slab allocator |
| `umap`, `pid` | process numbers and process ids |
| `epoll`, `epoll_answers`, `epoll_engine`, `epoll_timers` | the epoll engine's interests and notifications, and its timeouts by the wheel |
| `epoll_sleep`, `epoll_clock` | how long the engine sleeps |
| `seqs`, `wrappers` | lists without duplicates, optional values |

Code that changes things in place is modelled by a class or a method (`TimerBase.Base`,
`UpQueue.Root`, `UMap.Map`, `DeliveryBase.Base`, `ProcessDomain.Domain`, `SlabZone.Allocator`,
`EpollEngine.LocalData`) whose `ensures` ties the new state to a function of the old one; the lemmas
speak about that function, one call at a time and over whole runs. What several threads do at once
(the run queue, delivery between domains, wake-ups) is a step machine in which every atomic section
of the source is a step, and a run is any interleaving.

How the model was chosen:

- **Callbacks** are given by a script: what the n-th callback does (arm and delete timers; send,
  spawn, ask for deferred messages) and what it returns. The theorems hold for every script. The
  scheduler's loops stop inside the first callback that takes a step which `Process.NextGoodIff`
  shows to break the scheduler, before that step, and say so in their result;
  `ProcessDomain.WellBehavedSafe` names callbacks that never take one.
- **Time** is below 2^63; the 64-bit subtraction and the signed comparisons are written out.
- **Memory** of the shared run queue is sequentially consistent, and a compare-and-swap does not
  succeed on a word that was changed and changed back (words carry a stamp that only hypotheses
  look at, here `NoAba`). The header of `msqueue.h` admits that case. The plain re-read of the head
  in `msqueue_get` is not covered by this: it can be fooled (`MsQueueSolo.NullAfterReread`). What
  is proved of the number of workers is proved twice, once for runs in which no re-read is fooled
  (`UnfooledAll`, `TrueRereads`) and once for all runs; each row says which.
- **The kernel** accepts an `epoll_ctl` call exactly when it is legal, and reports each watched
  descriptor at most once per wait, for what it is watched for or with an error; what it reports of
  the read end of the wake pipe is always that it is readable. `posix_memalign` returns an aligned
  page that is not in use.

Where the code is not what it is said or seems to be, the model follows the code:

- `msqueue_is_enqueued` answers 1 for the poison value, that is, when the domain is *not*
  enqueued. The caller in `send_flush_outbox` relies on that.
- `timer_next_interrupt` can answer too late once a timer was armed more than 0x1_0000_0000 ticks
  ahead; `TimerLimits.NextInTimeIff` shows this bound to be exact. The comment "Timers are FIFO"
  holds for timers that are armed for one expiry at one tick (`TimerFifo.SameTickFifo`); of two
  armed at different ticks the later one can be called back first (`TimerOvertaken.LaterFirst`).
- `queue_splice_prepend` onto an empty queue leaves its `last` NULL although it is not empty, and a
  `queue_put` then drops the queue. Within a domain this happens only when a process sends to
  itself; `Process.NextGoodIff` says exactly when the scheduler is no longer as it should be, and
  `ProcessLost.RunSoundIff` when a message is lost or a process enqueued twice.
- `queue_slow_del` has the same effect when it deletes the last of several elements
  (`UpQueue.SlowDelThenPut`).
- `umap_del(0)` on a map whose slot 0 is free enqueues that slot a second time.
- `worker_domain_run` with two hungry processes in one domain lets that domain sleep on a message;
  every engine has one, and then no domain does (`WakeupRuns.NeverLostIff`).
- A domain in the run queue is not woken when mail comes for it, and `msock_base_loop` has no more
  workers than there are domains with a hungry process. They can all be asleep in engines while
  another domain waits with mail in the run queue. If no get is fooled, it takes one worker more
  than there are such domains, no fewer, to exclude it (`WakeupStrand.NeverStrandedIff`); when only
  workers send, a worker for every domain does too, and with two domains any number
  (`WakeupInside.NeverStrandedInsideIff`).
- `msqueue_get` returns NULL beside an item when that is alone on the chain and another get has
  the divider in its hands (`MsQueueSolo.NullBesideItem`), and a worker ends on it.
  `WakeupStaff.WorkersStay` shows that a worker then is left for every live domain.
- `msqueue_get` also returns NULL beside an item when the node that it has read as the head was
  taken, put back at the end, and has come to the front again before it looks once more
  (`MsQueueSolo.NullAfterReread`). So any number of workers can come down to one
  (`WakeupInside.AllFooled`), but not to none (`WakeupFooled.OneStays`); and then no number of
  workers excludes stranded mail when there is an engine (`WakeupInside.FooledIff`), unless only
  workers send and there are no more than two domains (`WakeupInside.FooledInsideIff`).
- `msock_loopexit` called with an empty inbox broadcasts to the caller too and enqueues it while it
  runs, so its exit does need `queue_slow_del` (`ProcessRuns.LoopExitEnqueuesSelf`). If the caller is
  the last of several processes in the list, it is then the last of the busy queue
  (`ProcessRuns.LoopExitAtEnd`), and the next `queue_put` drops all the others.
- `process_block` converts the time until the next timer to `int`. A request whose expiry has passed
  by the time it is consumed can make it negative, and `epoll_wait` then has no timeout
  (`EpollSleep.OverdueSleepsOn`). It does so just when the first timer of `tv1[timer_jiffies & 255]`
  has expired by the clock (`EpollSleep.BlockLateIff`), and it never happens just when no request is
  behind the clock (`EpollClock.AlwaysEndsIff`).

## Model

| member | source | states |
|---|---|---|
| TimerSlots.SlotForPlaced | src/timer.c:81-117 | The slot that the chain of level tests picks for any expiry, overdue and clamped ones included, is one from which the timer reaches tv1 no later than its due tick; unclamped, it is opened within one turn of the level. |
| TimerWheel.RelinkGood | src/timer.c:136-153 | Emptying a slot and adding its timers again keeps every timer on exactly one list and in place for its due tick. |
| TimerWheel.CascadeAllGood | src/timer.c:173-181 | After the chain of cascades every timer due at the current tick is in its tv1 list and no timer has been lost, doubled or left behind in a slot whose turn has come. |
| TimerWheel.OpGood | src/timer.h:71-76 | Arming and deleting, from a callback or outside, keep the wheel equal to the specification's map of pending timers. |
| TimerWheel.OpenGood | src/timer.c:182-183 | The list opened at a tick holds exactly the timers due at it, overdue ones included. |
| TimerWheel.DrainGood | src/timer.c:184-195 | Running the callbacks, each of which may arm and delete any timer, even those still on the work list, fires only pending due timers and keeps the refinement. |
| TimerWheel.RunIdle | src/timer.c:158-198 | `timers_run` from any reachable wheel extends the history legally and leaves a wheel that represents what the history leaves pending. |
| TimerSpec.FiresExactlyOnce | src/timer.c:158-198 | In every legal history a timer that is neither re-armed nor deleted fires at most once, only while tick max(e, A) is processed, and has fired when the clock is past it. |
| TimerSpec.PendingWasArmed | src/timer.c:124-134 | Whatever pends was armed, and has not been fired, deleted or armed again since: nothing else can fire. |
| TimerRuns.WheelFiresExactlyOnce | src/timer.c:81-198 | Wheel exactness over every run of add, mod, del and `timers_run`, for every script: a timer armed at tick A with expiry e has fired if and only if the clock is past max(e, A), once, in the processing of that tick; this includes expiries beyond the clamp. |
| TimerFifo.SameTickFifo | src/timer.c:118-121 | Over every run, for every script, on what has happened alone: of two timers armed for one expiry with no tick in between, and neither armed again or deleted since, the one armed first has been called back when the second is, through every cascade. |
| TimerOvertaken.LaterFirst | src/timer.c:136-153 | A run in which of two timers armed for one expiry, the second 256 ticks after the first, the second is called back first: a cascade puts the first behind it. |
| TimerNext.NextInTime | src/timer.c:200-267 | The search, which reads one tv1 entry and stops early on each level, answers no later than any pending timer is due, and with an expiry that pends or the horizon. |
| TimerRuns.SleepIsSafe | src/timer.c:200-267 | `timers_run` up to any tick before the answer of `timer_next_interrupt` runs no callback. |
| TimerLimits.HiddenTimer | src/timer.c:107-116 | A concrete run in which a timer armed at 2^32 + 1 hides one that expires a tick earlier, so that the answer is a tick late. |
| TimerLimits.NextExactIff | src/timer.c:200-267 | The answer is min(smallest pending expiry, now + 2^30 - 1) after all runs without overdue timers if and only if timers are armed at most 2^32 ticks ahead. |
| TimerLimits.NextInTimeIff | src/timer.c:200-267 | The answer is never later than a due tick, overdue timers included, after all runs if and only if timers are armed at most 2^32 ticks ahead. |
| TimerBase.Base.constructor | src/timer.c:56-70 | The loops make every list empty, and the wheel starts at the given tick. |
| TimerBase.Base.InternalAdd | src/timer.c:81-122 | With 64-bit subtraction and the signed test, appends the timer at the end of exactly the list the refinement calls for, and leaves the others alone. |
| TimerBase.Base.Mod | src/timer.c:124-134 | Takes a pending timer off its list first; keeps the invariant of the wheel. |
| TimerBase.Base.Del | src/timer.h:71-76 | Deletes a timer wherever it is, a non-pending one without effect; keeps the invariant. |
| TimerBase.Base.CascadeList | src/timer.c:136-153 | The loop over a slot moves all its timers and returns the slot's index. |
| TimerBase.Base.TimersRun | src/timer.c:158-198 | The nested loops compute the run to the given tick that the exactness theorem is about, and return the number of callbacks run. |
| TimerBase.Base.NextInterrupt | src/timer.c:200-267 | The loops with their two ways out of each level compute the value that the search theorems are about. |
| MsQueue.StepInv | src/msqueue.h:57-110 | Every atomic step of concurrent puts and gets keeps: chain NULL-terminated with the tail on it; every node on the chain, held by exactly one thread, or poisoned; no item lost, doubled or reordered; what each thread has read is as old as its stamps say. |
| MsQueue.QueueSafety | src/msqueue.h:57-110 | Over every run of any number of threads without ABA: items come out in the order they went in; the divider is on the chain or held by exactly one thread; neither `abort` is reached; what is on the chain does not read as poisoned. |
| MsQueue.NullOnlyAlone | src/msqueue.h:86-95 | Over every run, in the midst of any other calls: a get that goes on to return NULL, and finds the head word unwritten since it read it, read its successor when one node was on the chain. |
| MsQueueSolo.PutAppends | src/msqueue.h:57-81 | From every reachable state an undisturbed put ends and appends its item, whatever the lag of the tail. |
| MsQueueSolo.GetTakesFirst | src/msqueue.h:83-110 | From every reachable state, whatever the others were about, an undisturbed get ends. It takes the first item if and only if there is one and the divider is on the chain or the chain has two nodes; otherwise it returns NULL and changes nothing. |
| MsQueueSolo.NullBesideItem | src/msqueue.h:92-101 | A run to a state in which an item is enqueued and a get of an undisturbed thread returns NULL: another get has lifted the divider off and not yet put it back. |
| MsQueueSolo.NullAfterReread | src/msqueue.h:86-95 | A run of two threads without ABA in any compare-and-swap, after which a get returns NULL with an item first on the chain, the divider behind it and nothing in anybody's hands: the head that it re-reads was written meanwhile, and written back. |
| Delivery.SendAbroadFifo | src/msock_base.c:64-74 | A message to another domain joins the end of what is in flight to every process it concerns, and disturbs no other pair. |
| Delivery.SendHomeFifo | src/msock_base.c:64-70 | A message within the domain goes behind what its target has, with nothing in flight to overtake. |
| Delivery.FlushFifo | src/msock_base.c:130-157 | Moving an outbox behind the victim's inbox keeps the order of every pair, and dropping one for a missing domain loses nothing that a live process was to get. |
| Delivery.DispatchFifo | src/msock_domain.c:101-166 | Handing out the first local message, single or broadcast, keeps order and number for every process. |
| Delivery.ApplyInv | src/msock_base.c:64-74 | Every action (send, flush, splice, dispatch, consume, spawn, exit, new domain) keeps for each source and live process: sent = consumed ++ inbox ++ local inbox ++ remote inbox ++ outbox. What each action does to these is stated by the rows of DeliveryArrives. |
| Delivery.FifoDelivery | src/msock_domain.c:186-204 | In every interleaving what a live process consumed from a source is a prefix of what that source sent it; it is all of it just when nothing is left on the way. |
| DeliveryArrives.AllArrives | src/msock_base.c:130-157 | From every net that keeps the invariant, for every live process and source: a run of flushes, splices, dispatches and consumptions alone after which the process has consumed all that the source has sent to it, which is unchanged. |
| DeliveryArrives.ArrivesFromAnywhere | src/msock_domain.c:186-204 | There is such a run after every run from the start. |
| DeliveryArrives.ConsumeTakes | src/msock_process.c:69-104 | Consuming takes one message off one inbox: the first of what the process had to get, and it joins what the process has consumed; for all other pairs, and in all other queues, nothing changes. |
| DeliveryArrives.SendReaches | src/msock_base.c:64-74 | A message comes last of what those have to get whom it is for, and nobody else has it to get; nothing is consumed. |
| DeliveryArrives.HandingOnKeeps | src/msock_domain.c:186-201 | Flushes, splices and dispatches change nothing of what anybody has to get, has been sent or has consumed. |
| DeliveryArrives.RunSends | src/msock_base.c:35-74 | Over every run in which a process lives on, what was sent to it is what the sends of the run send to it, in order. |
| DeliveryArrives.LivesChange | src/msock_process.c:4-62 | A spawn makes one process live, an exit ends one, and no other action does either. |
| DeliveryArrives.SpawnExpects | src/msock_process.c:4-34 | A new process has an empty inbox and has to get just what is on its way to its number. |
| DeliveryArrives.OthersKeep | src/msock_process.c:37-62 | That processes and domains come and go changes nothing for the others. |
| Delivery.BroadcastReachesAll | src/msock_base.c:234-253 | A broadcast adds one message, at the end, to what every live process of the listed domains has still to get, and conservation holds afterwards; a memory collection request adds none. |
| DeliveryBase.Base.SendIndirect | src/msock_base.c:35-74 | On the objects: one send action, the invariant of base and domains kept. |
| DeliveryBase.Base.DrainOutbox | src/msock_base.c:118-128 | The loop empties the one queue. |
| DeliveryBase.Base.SendFlushOutbox | src/msock_base.c:130-157 | The loop is the run of one flush per domain; it empties all outboxes, counts the non-empty ones that had a domain, and calls the ingress callback once for each such domain that is not in the run queue. |
| DeliveryBase.Base.SendBroadcast | src/msock_base.c:234-253 | The loop over the domains is the run of sends that reaches all. |
| DeliveryBase.Base.SpliceRemote | src/msock_domain.c:188-191 | The remote inbox goes behind the local one, under the lock. |
| DeliveryBase.Base.DomainNew | src/msock_domain.c:21-62 | A new domain is enqueued under the first free number, and refused just when all are taken. |
| Wakeup.ExclusiveKept | src/msock_worker.c:69-95 | Every step keeps each domain in one place: once in the run queue, with exactly one worker, or retired. |
| Wakeup.PoisonKept | src/msqueue.h:44-62 | The poison value is in `next` from the moment after a worker took the domain until the moment before it is put back, in every interleaving. |
| Wakeup.DividerKept | src/msqueue.h:98-102 | Every step keeps: at most one get has the divider in its hands, and then the queue is not empty. |
| WakeupQueue.StepRefines | src/msqueue.h:57-110 | Every atomic step of `msqueue_put` and `msqueue_get`, from every reachable state, is one step of the worker on the run queue of module Wakeup (read the head, see the end, retry, return NULL, lift, put back, take, mark, clear, link in), or none; nodes, writes to the head word and poison values stay the same on both sides. |
| WakeupWhole.StartsTogether | src/msock_domain.c:21-62 | For every base as the main loop finds it there is a run of `msqueue_put` that enqueues its domains, after which queue and workers agree. |
| WakeupWhole.WholeRuns | src/msock_worker.c:69-95 | Every run of workers on the lock-free queue, one atomic step of the queue or one step of their own at a time, is a run of module Wakeup to the same state; if no re-read of the head is fooled there, none is here. |
| WakeupWhole.NeverStrandedThere | src/msock_worker.c:69-95 | On the lock-free queue itself, with no compare-and-swap and no re-read fooled: with more workers than hungry domains no run leaves mail stranded. |
| Wakeup.LookWakes | src/msock_base.c:149-152 | A sender that looks at a domain whose worker relies on the pipe sees the poison, and so will write. |
| Wakeup.NextInv | src/msock_base.c:145-152 | Every step of senders and workers keeps: a message unseen by a worker on its way to sleep has a byte in the pipe, or a sender that has not yet looked or written. |
| WakeupRuns.OneWorkerPerDomain | src/msock_worker.c:69-95 | Over all runs no two workers have the same domain, none has an enqueued one, and no live domain is forgotten. |
| WakeupRuns.NoLostWakeup | src/msock_worker.c:49-95 | With at most one hungry process in a domain, over all runs: a live domain with a message in its remote inbox is enqueued, or its worker looks before it sleeps, or a byte is in the pipe, or a sender is about to look; a sleeping worker that nothing will wake has missed nothing in its own domain, not even behind the message it sleeps in. Whether a worker comes for an enqueued domain is the subject of the rows of WakeupStaff and WakeupStrand. |
| WakeupRuns.SecondSleepLoses | src/msock_worker.c:54-66 | With two hungry processes a byte read for the first leaves the second asleep on a message. |
| WakeupRuns.NeverLostIff | src/msock_worker.c:49-95 | Over all runs what NoLostWakeup says holds if and only if no domain has more than one hungry process. |
| WakeupMail.MailKept | src/msock_base.c:140-152 | Over every run of senders and workers: what the workers have taken from the inboxes of a domain, followed by what still waits there, is what waited before followed by all that was appended since, in order. |
| WakeupStaff.WorkersStay | src/msock_worker.c:69-95 | Over all runs in which no re-read of the head is fooled: a worker ends, on a true NULL or beside an item, only when as many workers are left as there are live domains; and no domain becomes hungry. |
| WakeupStaff.SomeoneComes | src/msock_worker.c:69-95 | Over all runs that start with more workers than hungry domains and in which no re-read of the head is fooled: whenever a domain is in the run queue some worker is awake and not about to end, however many have ended. |
| WakeupFooled.OneStays | src/msock_worker.c:69-95 | Over all runs, fooled re-reads included: as long as there is a live domain a worker is left, and one that is not about to end. |
| WakeupStaff.OneAwake | src/msock_worker.c:54-66 | In every reachable state with more workers still there and not about to end than hungry domains, one of them is awake when a domain is in the run queue: sleepers have distinct hungry domains. |
| WakeupStrand.EnginesTakeAll | src/msock_worker.c:69-95 | For every number of workers not above the number of engines, a run after which all workers sleep, none to be woken, while another domain waits in the run queue with mail that somebody outside has sent. |
| WakeupStrand.NeverStrandedIff | src/msock_worker.c:69-95 | With senders outside: no run of n workers with at most h hungry domains, in which no re-read of the head is fooled, leaves mail stranded (an enqueued live domain with mail while no worker is awake, has a byte in its pipe or a sender that owes it one) if and only if n is greater than h. |
| WakeupInside.FooledIff | src/msock_worker.c:69-95 | With senders outside and re-reads that may be fooled: no run of n workers with at most h hungry domains leaves mail stranded if and only if there is a worker and no hungry domain. |
| WakeupStrand.OwnWorkers | src/msock_base.c:224-232 | If no re-read is fooled, the workers that the main loop has, one for each hungry domain and at least one, suffice only without engines. |
| WakeupInside.ThenAllSleep | src/msock_worker.c:69-95 | For every n of at least 2 and any d above n, a run of n workers with n engines and d domains in which nobody outside sends and no get is fooled: a domain asks an engine for an event, the engine serves that, sleeps, wakes up for it and answers while the domain still runs, and in the end all workers sleep while that domain is enqueued with the answer. |
| WakeupInside.NeverStrandedInsideIff | src/msock_worker.c:69-95 | When only workers send: no run of n workers, d domains and at most h hungry ones, in which no re-read is fooled, leaves mail stranded if and only if n = 0, n > h, d <= n or d <= 2. |
| WakeupPair.PairNeverStrands | src/msock_worker.c:69-95 | When only workers send: no run of any number of workers on one or two domains leaves mail stranded, fooled re-reads included. |
| WakeupInside.AllFooled | src/msqueue.h:86-95 | For every n above 1 and d of at least 3, a run of n workers, one engine and d domains, with nobody outside, after which all workers but one have ended on a fooled re-read while all domains are live and enqueued. |
| WakeupInside.FooledInsideIff | src/msock_worker.c:69-95 | When only workers send and re-reads may be fooled: no run of n workers, d domains and at most h hungry ones leaves mail stranded if and only if n = 0, h = 0 or d <= 2. |
| WakeupInside.OwnWorkersInside | src/msock_base.c:224-232 | When only workers send, the workers that the main loop has suffice if and only if there is no engine, or nothing but engines, or no more than two domains; if re-reads may be fooled, if and only if there is no engine or no more than two domains. |
| Process.UnreadEat | src/msock_process.c:69-104 | Consuming a message takes just that one out of the unread ones and leaves the others in their order. |
| Process.BadmatchGoodIff | src/msock_process.c:92-95 | Deferring a message keeps arrival order if and only if nothing was put back in the same call. |
| Process.ReceiveGood | src/msock_process.c:108-117 | Putting deferred messages back keeps the order, also when the inbox's `last` becomes stale. |
| Process.ExitIsQuick | src/msock_process.c:37-62 | A process that exits is never in the busy queue, so `queue_slow_del` has nothing to do. |
| Process.NextGoodIff | src/msock_domain.c:83-91 | Every step keeps the scheduler right (busy queue without duplicates and exactly the idle processes with mail, tails valid, arrival order, nothing lost) if and only if it is not a self-send into an inbox without a known end, nor a deferral after messages were put back. |
| ProcessRuns.RunGoodIff | src/msock_domain.c:168-184 | A run keeps the scheduler right all along if and only if each of its steps is safe. |
| ProcessRuns.SelectiveReceive | src/msock_process.c:65-117 | In every safe run badmatch ++ inbox is what arrived and was not consumed, in order of arrival. |
| ProcessRuns.QuietMeansEmpty | src/msock_domain.c:168-184 | When the busy queue is empty and nobody runs, all inboxes are empty. |
| ProcessRuns.SelfSendLoses | src/upqueue.h:113-125 | After a put-back into an empty inbox a self-send loses every deferred message: unconsumed and in no queue. |
| ProcessRuns.LoopExitEnqueuesSelf | src/msock_base.c:256-260 | A process with an empty inbox that asks the loops to exit is enqueued as busy while it runs: an unsafe step. |
| ProcessRuns.LoopExitAtEnd | src/msock_base.c:256-260 | If that process is the last of several in the list of processes, every process is in the busy queue afterwards, itself at the end: where `queue_slow_del` loses the `last` of the queue. |
| ProcessRuns.DispatchDelivers | src/msock_domain.c:101-151 | Loop, busy queue and clones do to the inboxes just what the delivery theorems assume of a dispatch. |
| ProcessEffects.ArriveHandsOut | src/msock_domain.c:125-151 | Where it is safe, a message goes behind the inbox of each process that it is for; deferred messages, consumed ones and the list of processes stay as they were, and who was busy stays so in the same order. |
| ProcessEffects.EachHandsOut | src/msock_domain.c:153-166 | From every good scheduler with nobody running, for all messages: each process then has what it had and behind it those of the messages that are for it, in their order. |
| ProcessEffects.BroadcastQueues | src/msock_domain.c:101-111 | A broadcast makes the processes with empty inboxes busy, in the order of the list of processes. |
| ProcessEffects.TurnsInOrder | src/msock_domain.c:168-184 | Over every run of safe steps the processes have their turns in the order in which they became busy. |
| ProcessEffects.StartAdds | src/msock_process.c:4-34 | A new process heads the list, has empty queues and is not busy; all others are as they were. |
| ProcessEffects.ReceiveFront | src/msock_process.c:108-117 | The deferred messages come to stand before the inbox, in their order, and none stays deferred; nothing else changes. |
| ProcessLost.NextSoundIff | src/upqueue.h:42-55 | Every step loses no message and enqueues no process twice, and leaves the busy queue and the links that say who is in it right, if and only if it is not a put on an inbox that is not empty and has no known end, nor one that enqueues a process that is enqueued, nor one that drops from a busy queue without a known end a process that is not enqueued afresh. |
| ProcessLost.RunSoundIff | src/msock_domain.c:168-184 | Over a run this holds all along if and only if each of its steps is such. |
| ProcessLost.SoundMeans | src/msock_process.c:65-105 | In such a state what arrived for a process and was not consumed is in its inbox, deferred or in hand; with nobody busy and nobody running, deferred. |
| ProcessLost.SafeIsHarmless | src/msock_domain.c:83-91 | In a good state of the scheduler every safe step is harmless, and both models of the step agree. |
| ProcessLost.SelfSends | src/msock_domain.c:83-91 | A process that sends to itself with an empty inbox does harm if and only if it is in the busy queue already. |
| ProcessDomain.Domain.DispatchMsgSingle | src/msock_domain.c:83-91 | Puts the message behind the inbox and enqueues the process just when `queue_put` found no end. |
| ProcessDomain.Domain.DispatchMsgBroadcast | src/msock_domain.c:101-111 | The loop gives every listed process its clone, in list order, and enqueues those with empty inboxes in that order. |
| ProcessDomain.Domain.DispatchMsgLocal | src/msock_domain.c:125-151 | Single, broadcast or collection request, with the returned count. |
| ProcessDomain.Domain.DispatchLocalInbox | src/msock_domain.c:153-166 | The loop empties the local inbox: each process has what it had and behind it those of the messages that are for it, in the order in which they stood there; it returns how many were to live processes or to all. |
| ProcessDomain.Domain.MsockReceive | src/msock_process.c:108-117 | Puts the deferred messages back in front of the inbox, in order, and keeps the scheduler's invariant. |
| ProcessDomain.Domain.Perform | src/msock_process.c:83-86 | Goes through if and only if it is safe: a message at home is handed out to those it is for, one abroad is sent, a spawn adds the process, and msock_receive puts the deferred messages before the inbox. |
| ProcessDomain.Domain.ProcessNew | src/msock_process.c:4-34 | A new process is at the head of the list, with empty queues and not busy. |
| ProcessDomain.Domain.ProcessFree | src/msock_process.c:37-62 | Takes the process out of the list, the map and the busy queue. |
| ProcessDomain.Domain.Return | src/msock_process.c:87-103 | The three results of a callback: consumed, deferred, or exit, which removes that process alone. |
| ProcessDomain.Domain.Callback | src/msock_process.c:83-103 | A call goes through, with exactly its sends at home and abroad, its spawns and its result, if and only if each of its steps is safe. |
| ProcessDomain.WellBehavedSafe | src/msock_process.c:83-95 | A callback that does not send to itself, from whatever good state, takes only safe steps; without a put-back its deferral is safe too. |
| ProcessDomain.Domain.ProcessRun | src/msock_process.c:65-105 | For every script: the loop takes one message after another and calls the callback with it, for every call in turn with all its effects. At its normal end the inbox is empty or the process has exited. Otherwise it has come to the limit, or the callback just called is not safe in the state it was called in, which is never so for well-behaved callbacks. |
| ProcessServed.ServedInOrder | src/msock_process.c:65-105 | For every script whose callbacks send abroad only and do not exit: a process that is served goes through its whole inbox from the first message to the last, each is consumed or put behind the deferred ones as its callback says, all sends go out in order, and nobody else is concerned. |
| ProcessDomain.Domain.ProcessQueueRun | src/msock_domain.c:168-184 | For every script: the loop runs the first busy process, and so on, with all effects in turn. At its normal end nobody is busy and no process has a message left. Otherwise the limit was reached, or the callback just called is not safe in the state it was called in. |
| ProcessDomain.Domain.DomainRun | src/msock_domain.c:186-201 | For every script: hands out the local messages and behind them the remote ones, each process getting those for it in that order, and then runs the processes as the loop over the busy queue does. At its normal end both inboxes of the domain, the busy queue and all process inboxes are empty. Otherwise the limit was reached, or the callback just called is not safe in the state it was called in. |
| UpQueue.Root.Put | src/upqueue.h:42-55 | With a valid tail appends; with a stale one what the queue held is dropped; the result tells whether there was no known end. |
| UpQueue.Root.PutHead | src/upqueue.h:57-69 | Puts in front; a stale tail stays stale. |
| UpQueue.Root.Get | src/upqueue.h:79-93 | Takes the first and poisons its link; NULL just on an empty queue. |
| UpQueue.Splice | src/upqueue.h:95-111 | Concatenates and empties the source; tails stay valid. |
| UpQueue.SplicePrepend | src/upqueue.h:113-125 | Nothing is lost; the tail stays valid if and only if the target was not empty or the source was. |
| UpQueue.SlowDel | src/upqueue.h:127-145 | Leaves exactly prefix ++ suffix; the tail is valid if and only if the prefix is empty or the suffix is not. |
| UpQueue.SlowDelThenPut | src/upqueue.h:127-145 | Deleting the last of several elements and then putting one leaves a queue of that one alone. |
| UMap.JumpLands | src/umap.c:50-57 | The jump is at least 1 and lands on a number congruent to the slot. |
| UMap.NextFollows | src/umap.c:50-61 | The number given out is non-zero, below the bound and congruent to its slot, and greater than the last one unless the counter restarted. |
| UMap.Climb | src/umap.c:41-69 | Without a restart the numbers rise by at most map_sz a call; a restart happens only near the bound. |
| UMap.ReuseIsLate | src/umap.c:41-69 | A number comes back as the k-th following one only if (k + 1) * map_sz >= max_counter. |
| UMap.TakenInOrder | src/umap.c:41-82 | Over every sequence of allocations and deletions: the slots taken, followed by those still free, are those free at first followed by those freed, in order. |
| UMap.FreedSlotWaits | src/umap.c:43-81 | A freed slot is given out again only after all the slots that were free before it, in their order. |
| UMap.TableCount | src/umap.c:41-46 | The live numbers and the free slots together are map_sz: the free queue is empty just when the table is full. |
| UMap.Map.constructor | src/umap.c:11-31 | A new map is empty, with every slot free once, in order. |
| UMap.Map.Get | src/umap.h:37-46 | The stored pointer of a live number, NULL for all others, 0 and freed ones included. |
| UMap.Map.Count | src/umap.c:50-61 | The `count_again` loop restarts the counter at most once. |
| UMap.Map.Add | src/umap.c:41-69 | 0 just when the map is full; otherwise a number that was not live, mapped to the pointer, in the slot that has been free longest. |
| UMap.Map.Del | src/umap.c:71-82 | Removes a live number and puts its slot at the end of the free ones, ignores any other; the map stays valid if and only if it was not number 0 with slot 0 free. |
| Pid.UnpackMake | src/msock_internal.h:37-52 | A number of 59 bits and a domain of 5 come back out of the pid they make. |
| Pid.MakeUnpack | src/msock_internal.h:37-52 | Every word is the pid of its own two parts. |
| Pid.FindFreeGid | src/msock_domain.c:8-19 | The first free domain number from 1, and none just when all are taken. |
| Pid.ProcessPid | src/msock_process.c:14-18 | The pid of a process has both parts non-zero: never a name, never a broadcast. |
| SlabLayout.ChunkInPage | src/memalloc.c:155-173 | Every chunk lies inside its page behind the header, on a cache line, and `_page_from_chunk` leads back to its page. |
| SlabLayout.ChunksApart | src/memalloc.c:162-167 | Chunks of a page do not overlap. |
| SlabLayout.PageMask | src/memalloc.h:58-63 | On 64-bit words the mask of the source clears exactly the remainder. |
| Slab.CarvedFacts | src/memalloc.c:164-173 | The carved queue has every chunk of the page exactly once. |
| Slab.TakePageSound | src/memalloc.c:88-103 | A turn of the fill loop moves a page's chunks to the cache with none lost or doubled and the zone's count right. |
| Slab.PageAllocSound | src/memalloc.c:140-175 | A new page adds its chunks as free ones and no others. |
| Slab.GiveBackSound | src/memalloc.c:120-130 | A turn of the drain loop moves the chunk to the page it was carved from and lists the page just when it has a free chunk. |
| Slab.PageCount | src/memalloc.c:132-134 | A page never has more free chunks than chunks, and when it has as many, none is cached or handed out. |
| Slab.PageFreeSound | src/memalloc.c:177-191 | Freeing a complete page takes exactly its chunks out of the account. |
| SlabRuns.FillRight | src/memalloc.c:77-106 | `_cache_fill` leaves at least chunks_per_page more chunks in the cache and no page all free. |
| SlabPages.FillPages | src/memalloc.c:82-84 | A fill takes a page from the system if and only if fewer chunks are free in the zone than a page has; otherwise pages, counters and `zone_used_bytes` stay as they were. |
| SlabPages.FillTakes | src/memalloc.c:85-103 | Of the pages then listed a fill empties the first ones, page by page in order, as few as have a page's worth of chunks; all other pages stay as they were. |
| SlabPages.MallocPages | src/memalloc.h:65-80 | An allocation takes a page if and only if its cache is empty and the zone has fewer chunks free than a page has. |
| SlabPages.DrainPages | src/memalloc.c:109-138 | Draining takes no page, and a page that stays has its chunks back in front of its queue, the last of the cache first. |
| SlabPages.DrainList | src/memalloc.c:124-134 | After draining the pages that had no free chunk before come first in the list, the one listed last foremost, and behind them those listed before in their order, without the pages that were freed. |
| SlabPages.RunPages | src/memalloc.c:77-106 | Over every run the pages ever taken are as many as the allocations that found their cache empty and the zone short. |
| SlabRuns.MallocRight | src/memalloc.h:65-80 | Every allocation finds a chunk, of a live page, that was not handed out. |
| SlabRuns.FreeThenMalloc | src/memalloc.h:82-95 | What was freed last is allocated next, and the allocator is then as it was. |
| SlabRuns.DrainRight | src/memalloc.c:109-138 | Draining empties the cache, frees every page that becomes complete, changes nothing for the user, and never reaches the abort of `page_free`. |
| SlabRuns.KnownApart | src/memalloc.h:58-63 | Any two chunks of live pages are disjoint. |
| SlabRuns.UsedBytesBound | src/memalloc.c:193-200 | With caches drained at most a page per chunk handed out, although the counters wrap at 2^32. |
| SlabRuns.UsedBytesExact | src/memalloc.c:193-200 | The difference of the wrapped counters is the number of live pages, as long as that is below 2^32. |
| SlabRuns.ZoneFreeIff | src/memalloc.c:57-68 | With caches drained `zone_free` meets none of its aborts if and only if nothing is handed out. |
| SlabRuns.RunRight | src/memalloc.c:78-191 | After any calls on any number of caches every chunk is in exactly one place, a page is listed just when 0 < free chunks < chunks_per_page, and the chunks handed out are those the user has. |
| SlabRuns.NothingLeaks | src/memalloc.c:57-68 | From a new zone, over any calls: with caches drained the zone can be freed if and only if the user has given everything back, and holds at most a page for each chunk still out. |
| SlabZone.Allocator.AllocPage | src/memalloc.c:140-175 | Carves and lists a page as the lemmas have it. |
| SlabZone.Allocator.CacheFill | src/memalloc.c:77-106 | The loop over the pages: at least chunks_per_page more chunks in the cache, from the first listed pages, as few as do; a page is allocated if and only if fewer than chunks_per_page chunks were free. |
| SlabZone.Allocator.CacheDrain | src/memalloc.c:109-138 | The loop empties the cache, each chunk going in front of its page's queue, and leaves all other caches, and what is handed out, alone. |
| SlabZone.Allocator.FreePage | src/memalloc.c:177-191 | Past its abort, which its one caller cannot reach. |
| SlabZone.Allocator.CacheMalloc | src/memalloc.h:65-80 | Returns a chunk not handed out before; the queue is never empty at the second try; a page is allocated only if the cache was empty and fewer than chunks_per_page chunks free. |
| SlabZone.Allocator.CacheFree | src/memalloc.h:82-95 | Puts the chunk on top of any cache of the zone. |
| SlabZone.Allocator.ZoneUsedBytes | src/memalloc.c:193-200 | The size of all live pages, although the counters wrap at 2^32; with caches drained at most a page per chunk handed out. |
| SlabZone.Allocator.ZoneFree | src/memalloc.c:57-68 | Succeeds, with caches drained, if and only if nothing is handed out. |
| Epoll.ScheduleRight | src/msock_engine_epoll.c:118-144 | A descriptor is in `changed`, once, if and only if what was asked for differs from what the kernel has. |
| Epoll.FlushRight | src/msock_engine_epoll.c:163-197 | Every `epoll_ctl` call is legal, `fatal("wtf?")` is not reached, and the kernel ends with exactly the masks asked for last. |
| Epoll.OneShotCounts | src/msock_engine_epoll.c:199-243 | Where every notification answers the registration just before it, notifications never outnumber registrations. |
| Epoll.NotifiedOnce | src/msock_engine_epoll.c:118-281 | Over every run each notification goes to the process that registered last, tells it to read only if it asked to read, to write only if it asked to write, of a timeout only if it gave one, and uses that registration up: no event and timeout for the same one. |
| EpollAnswers.BlockReplies | src/msock_engine_epoll.c:213-241 | A block tells, in the order of the events and then of the timers, exactly one thing for each event but that of the pipe: to the process that registered last for the descriptor, that it is readable, else that it is writable, else that it failed; and a timeout for each timer. What was told of is no longer asked for, and no other request has changed. |
| EpollAnswers.RepliedOnce | src/msock_engine_epoll.c:213-237 | In what a block tells of events each event of another descriptor than the pipe has exactly one entry. |
| EpollAnswers.RunReplies | src/msock_engine_epoll.c:213-241 | The two for every block of every run, and nothing is told of the pipe. |
| EpollAnswers.RequestTaken | src/msock_engine_epoll.c:256-265 | A request is logged, its mask, victim and expiry are what is asked for from then on, and nothing changes for other descriptors. |
| Epoll.BlocksRight | src/msock_engine_epoll.c:163-197 | Whenever the engine blocks it watches what was asked for, its wake pipe included. |
| EpollSleep.AnswerIsHead | src/timer.c:200-267 | With a timer in `tv1[timer_jiffies & 255]` the search answers with the expiry of the first one there, whatever the other pending timers expire at. |
| EpollSleep.LateIff | src/msock_engine_epoll.c:199-205 | For every reachable wheel with timers armed within reach, whatever the clock (differences fitting an `int`): the sleep goes on past the due tick of a pending timer if and only if the first timer of `tv1[timer_jiffies & 255]` has expired by the clock, or none is there and some pending timer has; the timeout then is negative, and otherwise ends at the answer of the search. |
| EpollSleep.BlockLateIff | src/msock_engine_epoll.c:199-205 | With the wheel run up to the clock, as `process_block` finds it: the sleep is late for a pending timer if and only if the first timer of `tv1[timer_jiffies & 255]` has expired by the clock. |
| EpollSleep.SleepsInTime | src/msock_engine_epoll.c:199-205 | With no timer overdue by the clock and all armed within reach the timeout is non-negative, ends at the answer of the search, and is late for no pending timer. |
| EpollSleep.NothingMissed | src/msock_engine_epoll.c:199-205 | Running the wheel to any tick before that sleep ends would run no callback. |
| EpollSleep.OverdueSleepsOn | src/msock_engine_epoll.c:199-205 | A request one tick behind the clock, alone in a new wheel, makes the timeout -1: the wait has no end of its own. |
| EpollClock.AlwaysEndsIff | src/msock_engine_fd.c:22-26 | Over all runs of requests and blocks, with requests at most d ticks behind the clock, the engine never gives `epoll_wait` a negative timeout (timers armed within reach, differences fitting an `int`) if and only if d = 0. |
| TimerHistory.RunFires | src/timer.c:158-198 | With callbacks that leave the wheel alone `timers_run` calls back exactly the pending timers that are due by the tick it is given, each once, and leaves the others pending. |
| EpollTimers.BlockAgrees | src/msock_engine_epoll.c:118-243 | A block keeps the wheel and the table of descriptors in agreement: pending are just the timers of open registrations with an expiry. What the wheel calls back after the events is armed, so it is a block of module Epoll. |
| EpollTimers.RunsThere | src/msock_engine_epoll.c:118-281 | Every run of the engine with its wheel is a run of module Epoll, so that each notification is of its one registration there too. |
| EpollTimers.TimeoutsOnTime | src/msock_engine_epoll.c:146-243 | Over every run, at the end of every block: a process is told of a timeout if and only if its registration is still open after the events, gave an expiry, and the clock has come to it (or to the tick of the wheel at which it was asked for, if that is later); none that is due is left. |
| EpollEngine.LocalData.constructor | src/msock_engine_epoll.c:43-83 | A new engine has asked for its pipe and nothing else. |
| EpollEngine.LocalData.Change | src/msock_engine_epoll.c:118-144 | On the table: mask, victim, timer and the list of changes. |
| EpollEngine.LocalData.ProcessCallback | src/msock_engine_epoll.c:247-281 | A request is logged, is what the descriptor is asked for from then on, leaves all others alone, and keeps the invariant of the engine. |
| EpollEngine.LocalData.FlushChanges | src/msock_engine_epoll.c:169-197 | The loop over the changes issues only legal calls and leaves none. |
| EpollEngine.LocalData.HandleEvents | src/msock_engine_epoll.c:213-237 | The loop over the events answers each one but the pipe's, in order, to the victim of the last registration: readable, else writable, else failed; and unregisters it. |
| EpollEngine.LocalData.TimerCallback | src/msock_engine_epoll.c:146-154 | A timeout notifies the victim and unregisters the descriptor. |
| EpollEngine.LocalData.ProcessBlock | src/msock_engine_epoll.c:163-243 | Changes, then events, then timers: what it logs is one answer for each event and for each timer, in this order, and those descriptors are no longer asked for. |

## Left out

- Nested `timers_run` from a timer callback, and `expired` beyond the width of `int`.
- Payload bytes and their size limit, names (`msock_register`), debugging output, prefetches, Valgrind hooks.
- Liveness: a worker that is awake may be kept busy for ever by other domains, and callbacks may send forever, so the loops over callbacks carry a limit on their number, and what is proved of their end holds when the limit was not what stopped them.
- Weak memory, and ABA in the compare-and-swaps of `msqueue.h`: hypotheses, as the header says. A fooled re-read of the head is in the model.
- The worker loop as a method: `worker_loop` and `worker_domain_run` are steps of the machine in `wakeup.dfy`, because what matters is how their parts interleave.
- `msqueue_put` and `msqueue_get` as methods with loops: their loops are program points of the machine in `msqueue.dfy`, one shared access a step. The run queue of `wakeup.dfy` is a sequence with a divider in it or in the hands of a get; `WakeupQueue.StepRefines` ties it to them.
- The rings of list.h: lists of timers, pages, processes and changed descriptors are sequences; an element knows whether it is on one.
- Freeing domains, which happens when all workers have ended, and sends to a domain number beyond the table.
- DeliveryBase.Base.SendFlushOutbox: one undisturbed call; other threads between its turns are covered by the runs of module Delivery, where each turn is an action.
- Delivery.FifoDelivery: for processes that do not defer messages; order under deferral is the subject of module Process.
- What follows a step of the scheduler that is not harmless, a process that is enqueued twice for instance: what the links of the busy queue then look like is not modelled, only when it comes to it.
- The `free_chunks` counter of a zone does not wrap in the model: it would take 2^32 free chunks.
- Epoll.NotifiedOnce: which timers run out is a choice among the armed ones; module EpollTimers puts the wheel in place of the choice.
- EpollEngine.LocalData.ProcessBlock: takes the timers that run out as a parameter; the loops of the wheel are those of `TimerBase.Base.TimersRun`.
- The select engine, the io and signal engines, the timer drafts that are not built, and the demo programs.
