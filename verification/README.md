# Kameo, verified

A Dafny model of the stateful core of the Kameo actor runtime, with proofs about whole runs of it.

- **Actor lifecycle** (`Lifecycle*.dfy`, `ActorBehaviour.dfy`): the receive loops, the startup buffer, panic recovery
  and the graceful stop. User hooks are arbitrary functions of their arguments and of the number of hook calls made so
  far, so every pattern of failures, kills and decisions is covered.
- **Links** (`Link*.dfy`): any number of actors that link, unlink, die and notify each other, as a transition system
  whose steps are single lock and map operations. Actors run the default hooks.
- **Message queue** (`MessageQueue*.dfy`): exchanges, queues, bindings and consumers with auto-deletion, and publishes
  that prune dead consumers while they deliver.
- **Exactly-once replies** (`ExactlyOnce.dfy`), **connection liveness** (`HandleCache.dfy`) and **remote links**
  (`RemoteLink*.dfy`): in-place indexes proved against the history of events.
- **Replies** (`Replies.dfy`), **worker pool** (`Pool*.dfy`) and **wire header** (`HeaderCodec.dfy`).

Each stateful component has a value-level specification (a datatype of its fields and a function per operation), a class
whose methods, written with the source's loops and updates, are proved to do what the specification says, and lemmas
about runs of the specification. What each operation does is stated once more without its functions: by one fact of the
state at a time, by the history, or by what a hook or handler answered.

Where the code differs from what one would expect, the model follows the code: a publish on a topic exchange that holds
a malformed pattern panics; an auto-delete exchange that never had a binding is removed by any queue deletion; the
pool's retry loop cannot reach a second worker; a reply marker copied from another message makes an ask panic; a forward
dropped half-way loses the reply sender; an actor linked to one that has already drained its links is never notified; a
pool stops at its first refused dispatch, with the asker never answered; a Stop is lost if a waiting message panics
while it drains and the panic hook resumes; cancelling one of several consumers of an auto-delete queue takes effect and
replies that the queue is in use. Each of these has a lemma with a concrete run or an exact condition.

## Model

Class methods without a loop or a proof of their own are tied to the specification functions too, and have no row.

| member | source | states |
|---|---|---|
| `LifecycleProofs.MessagesAreConserved` | src/actor/spawn.rs:272-335 | For any hooks, panic decisions, kills and signals: the messages received are, as a multiset, exactly those handled, those discarded and those still buffered, and each side leaves in the order it came. The log is explained in full: before startup finished inside messages are handled and outside ones wait; the one drain handles the waiting ones up to the first handler that breaks and discards exactly the tail behind it; every later message is handled, in mailbox order. A run that skipped the startup phase discards nothing. |
| `LifecycleProofs.LoopExplained` | src/actor/spawn.rs:280-289 | The same explanation over the two nested loops, from any state before startup finished, with whatever was already waiting. |
| `LifecycleProofs.LaterAllHandled` | src/actor/kind.rs:67-98 | Once startup finished nothing is buffered or discarded any more, recovered panics included: the log grows by the messages taken, each handled, in mailbox order. |
| `LifecycleProofs.DrainIsExact` | src/actor/kind.rs:40-58 | A drain of taken messages logs the handled ones up to the first that breaks, and discards all the rest; it stops short only if it breaks. |
| `LifecycleProofs.FinishingSignal` | src/actor/kind.rs:144-149 | Startup, stop and the last sender gone all drain what waits, once, and leave the buffer empty. |
| `LifecycleProofs.EarlySignal` | src/actor/kind.rs:67-76 | Before startup finished a signal handles an inside message, or appends an outside one to the buffer, and never both. |
| `Lifecycle.SignalKeepsBufferInv` | src/actor/kind.rs:36-58 | Every signal keeps "only outside messages are buffered, and none after startup"; the stop and startup signals leave the buffer empty. |
| `Lifecycle.LoopKeepsBufferInv` | src/actor/spawn.rs:291-335 | The receive loop keeps that invariant at its head and takes at least one signal before it ends. |
| `Lifecycle.DrainEmptiesBuffer` | src/actor/kind.rs:40-58 | While the buffer is drained nothing is buffered again, so no other signal can be met there. |
| `LifecycleOrder.StartupOrder` | src/actor/kind.rs:40-76 | With no handler breaking, a mailbox of `pre`, the startup signal and `post` is handled as: inside messages of `pre`, outside messages of `pre`, then `post`. |
| `LifecycleOrder.FullMailboxOrder` | src/actor/spawn.rs:181-186 | If the startup signal found the mailbox full, the handled order is plain mailbox order. |
| `LifecycleOrder.GracefulStop` | src/actor/kind.rs:144-157 | If no handler breaks, taking Stop (or losing the last sender), before startup finished, after it, or after a full mailbox skipped it, ends the actor normally with every message ahead of it handled exactly once and in order on either side, nothing buffered or discarded, and everything behind it unread. |
| `LifecycleStop.StopEndsExactlyWhen` | src/actor/kind.rs:144-157 | For arbitrary hooks, a Stop that a waiting actor takes (or the loss of its last sender) ends it at once, the rest unread, if and only if the drain of the waiting messages does not break first in an error or panic that `on_panic` answers with Continue. In that one case the actor goes on with the rest as if no Stop had come; with no waiting message breaking, the reason is normal. |
| `LifecycleStop.StopIsSwallowed` | src/actor/spawn.rs:283-288 | A concrete family of runs: an outside message waits, Stop comes, the message's handler panics during the drain of the stop, the panic is recovered from, and the actor keeps waiting for messages. |
| `LifecycleOrder.QuietPrefix` | src/actor/spawn.rs:291-335 | Signals whose hooks all continue are consumed one by one and the loop goes on with the rest of the mailbox. |
| `LifecycleOrder.BeforeStartup` | src/actor/kind.rs:67-76 | Before startup finished, inside messages are handled as they come and outside ones are appended to the buffer. |
| `LifecycleOrder.AfterStartup` | src/actor/kind.rs:78-98 | After startup finished every message is handled in mailbox order and the loop waits for more. |
| `LifecycleEnds.AfterDeath` | src/actor/kind.rs:100-123 | A taken LinkDied, by what the hook answers to that id and reason: Continue goes on, a decision to break is final unless it is a panic, an error or panic of the hook asks the panic hook about OnLinkDied, and a kill in the hook is final. The sibling is forgotten but for the last case. |
| `LifecycleEnds.AfterEstablished` | src/actor/kind.rs:125-142 | The same for LinkEstablished. |
| `LifecycleEnds.AfterMessage` | src/actor/kind.rs:60-98 | A taken message, by what its handler does: replied goes on, asked to stop ends normally, an unanswered error or a panic asks the panic hook about OnMessage or HandlerPanic, a kill is final; an outside message during startup is only buffered. |
| `LifecycleEnds.AfterFinish` | src/actor/kind.rs:36-58 | The end of startup, Stop and the loss of all senders handle what waits: the first handler that breaks decides alone and what waits behind it is dropped; if none does, the end of startup goes on and the other two end the actor normally. |
| `LifecycleEnds.AfterFullMailbox` | src/actor/spawn.rs:272-289 | What waits when the mailbox was found full is handled before the loop, and a handler that breaks there is final without the panic hook being asked. |
| `LifecycleEnds.OneSignal` | src/actor/spawn.rs:283-289 | After a signal that panicked, the panic hook is asked once, about that panic: Continue goes on, any decision to break is final, and so is its own failure (OnPanic) or a kill; every other reason is final as it is. |
| `LifecycleEnds.DefaultDeath` | src/actor.rs:251-267 | With default hooks a sibling's death ends the actor as `LinkDied{id, reason}`, or as PeerDisconnected for that reason; a normal death only forgets the sibling. |
| `LifecycleEnds.DefaultFailure` | src/actor.rs:228-234 | With default hooks an unanswered error ends the actor as an OnMessage panic and a panic of the handler as that panic. |
| `LifecycleEnds.DeadAreForgotten` | src/actor/kind.rs:112 | Over a run, exactly the siblings whose death was taken are forgotten, but for one whose hook was killed, which ends the run. |
| `ActorBehaviours.ActorBehaviour.OnStartupFinished` | src/actor/kind.rs:40-58 | The in-place drain with early exit reaches the state and decision of the recursive drain, and keeps the buffer invariant. |
| `ActorBehaviours.ActorBehaviour.Receive` | src/actor/spawn.rs:291-335 | The imperative receive loop ends in the same state, with the same reason and unread rest, as the loop the theorems are about. |
| `ActorBehaviours.ActorBehaviour.Run` | src/actor/spawn.rs:272-289 | The imperative outer loop, with its early startup path, ends in the state, with the reason and the unread rest, of the loop whose ends LifecycleEnds gives for each signal and answer of a hook. |
| `LinkTheorems.RunKeepsInv` | src/actor/actor_ref.rs:624-648 | Every run of link, unlink, kill, stop, death, drain and notification steps keeps all invariants: who owns each links lock, phases, causes of death, issued signals and link symmetry. |
| `LinkTheorems.LocksNeverDeadlock` | src/actor/actor_ref.rs:624-648 | In every reachable state nobody waits on a links lock in a circle, and while any locked section is pending some section can take its next step. |
| `LinkLocks.NoCyclicWait` | src/actor/actor_ref.rs:629-647 | Sections that wait on each other in a chain never close it to a circle. |
| `LinkLocks.WaitsUpward` | src/actor/actor_ref.rs:629-647 | Whoever owns a wanted lock and itself waits, waits for a larger actor id. |
| `LinkLocks.ProgressWhilePending` | src/actor/actor_ref.rs:722-740 | While a section is pending, one of them can go on, however many run at once. |
| `LinkLocks.ApplyKeepsLocks` | src/actor/spawn.rs:218-237 | Every step keeps each lock owned by exactly the section whose stage says so; drains and removals own one lock only. |
| `LinkTheorems.LinksAreMutual` | src/actor/actor_ref.rs:624-648 | Two actors that have not drained their links are each in the other's links or in neither, unless a link or unlink of these two is between its two map operations; no actor is linked to itself. |
| `LinkTheorems.HalfDoneShowsOneSide` | src/actor/actor_ref.rs:633-637 | Between the two map operations the calling side already shows the outcome. |
| `LinkSymmetry.ApplyKeepsSymmetry` | src/actor/kind.rs:112 | Every step keeps the mutual links, the removal of a dead sibling and drains included. |
| `LinkSymmetry.EditorIsAlone` | src/actor/actor_ref.rs:629-647 | Owning an actor's links lock excludes any half-done section that involves this actor. |
| `LinkCalls.CallAlone` | src/actor/actor_ref.rs:624-648 | The six lock and map steps of one undisturbed call add up to adding (or removing) each actor in the other's links, with both locks free again. |
| `LinkCalls.ActorRef.Call` | src/actor/actor_ref.rs:624-648 | The object with its lock and its links, locking the smaller id first, ends where the six protocol steps end; calling it on the actor itself changes nothing. |
| `LinkCalls.ActorRef.LockBoth` | src/actor/actor_ref.rs:629-644 | Whichever side calls, the two locks are taken in the order of the protocol's two waiting stages. |
| `LinkCalls.UnlinkUndoesLink` | src/actor/actor_ref.rs:722-740 | Running the six steps of a link and then those of an unlink from either side leads back to the very same state of all actors and locks. |
| `LinkTheorems.DrainTakesTheLinks` | src/actor/spawn.rs:218-237 | A drain takes exactly the links held at that step, empties them, happens only after the final reason is known, and happens once. |
| `LinkTheorems.EachLinkNotifiedOnce` | src/actor/spawn.rs:217-242 | A stopped actor issued one LinkDied, with its id and final reason, per link it held when it drained and none to anyone else; never two; and none before it notifies, so none if on_start failed or on_stop panicked. What each issued signal does to a mailbox is NotifyDelivers. |
| `LinkDelivery.NotifyDelivers` | src/actor/spawn.rs:225-242 | A delivered notification appends the dead actor's id and final reason to that sibling's mailbox and to no other; a failed one changes no mailbox; either way it counts as issued once and is done. |
| `LinkDelivery.MailboxesAreQueues` | src/mailbox.rs:899-917 | In every run the notices delivered to an actor are those it took up, in that order, followed by those still in its mailbox: none is lost, repeated, made up or overtaken. |
| `LinkDelivery.TakenIsTakenUp` | src/actor/kind.rs:100-123 | The count of a notice taken is the number of times the actor took it up. |
| `LinkDelivery.DeliverableExactly` | src/mailbox.rs:899-917 | A notification can be delivered to exactly the actors that are not at an end (start failed, on_stop panicked, stopped). |
| `LinkDelivery.EndsAreFinal` | src/actor/spawn.rs:217-270 | Nothing changes an actor at its end any more, except its links by calls of others. |
| `LinkDelivery.DiesNow` | src/actor/spawn.rs:196-215 | A kill, or the actor's own decision to break, fixes its reason at once, records its death after all earlier ones, drops the removal it waits for, and changes nothing else. |
| `LinkCascades.HandlesNotice` | src/actor/kind.rs:100-123 | A running actor that is not disturbed deals with its oldest notice: that leaves the mailbox, the dead sibling leaves its links, and it goes on if that death was normal, ends as PeerDisconnected for that reason, and as `LinkDied{dead, reason}` for any other. |
| `LinkCascades.Departs` | src/actor/spawn.rs:217-242 | A dying actor that is not disturbed drains its links, appends one notice to the mailbox of every sibling in them that still accepts signals, and stops. |
| `LinkCascades.KillSpreads` | src/actor/spawn.rs:217-242 | From any reachable state without sections in progress: of two running linked actors one can be killed, stop, and the other die of `LinkDied{killed one, Killed}`, no longer linked to it. |
| `LinkCascades.DeathsSpread` | src/actor.rs:251-267 | A reachable state in which one actor was killed and another died of its death. |
| `LinkLate.ToldExactly` | src/actor/actor_ref.rs:605-648 | From any reachable state in which b is in a's links, and as long as the link stays until a drains: once a stopped, b was told exactly once if and only if a had not drained when the link was in place, or had drained a link to b before. |
| `LinkTheorems.NoticeTakenAtMostOnce` | src/actor/kind.rs:100-123 | Of each notice, those taken by an actor and those in its mailbox are together never more than those issued to it, and those are at most one. |
| `LinkCascades.LateLinkIsNeverTold` | src/actor/spawn.rs:217-242 | A reachable state in which two actors list each other, one has stopped, and the other was never told: the link was made after the drain. |
| `LinkCauses.ApplyKeepsIssued` | src/actor/spawn.rs:225-242 | Each issued signal stands for one drained link of the sender and its final reason, at every step. |
| `LinkProgress.SectionsEnd` | src/actor/actor_ref.rs:624-648 | However locked sections are scheduled, they take no more steps than they have left: there is no endless run of sections alone. |
| `LinkProgress.SectionsCanFinish` | src/actor/actor_ref.rs:624-648 | From every reachable state the sections in progress can all be brought to their end without anything else happening. |
| `LinkProgress.NobodyIsStuck` | src/actor/spawn.rs:196-270 | From every reachable state every actor, whatever it and others are in the middle of, can come to one of its ends. |
| `LinkProgress.CanStopBy` | src/actor/spawn.rs:208-270 | With no section in progress a running actor can stop for every reason of its own: killed, normal, or any panic. |
| `LinkProgress.CanFail` | src/actor/spawn.rs:157-206 | The on_start of a starting actor can fail: nothing but its phase changes, its links stay and it has no reason. |
| `LinkProgress.CanUnwind` | src/actor/spawn.rs:238-242 | Its on_stop can panic for each of these reasons, and then it never notifies. |
| `LinkProgress.KilledWhileWaiting` | src/actor/kind.rs:112 | A kill while an actor waits to forget a dead sibling drops that section: it dies of the kill, the link stays, and no lock is lost. |
| `LinkProgress.CancelledCallLeavesNothing` | src/actor/actor_ref.rs:629-647 | A link or unlink dropped while it waits for a lock has changed no links and gives back exactly the locks it owned. |
| `LinkTheorems.BlameIsTrue` | src/actor.rs:251-267 | An actor that died of `LinkDied{b, r}`: b died earlier, of exactly r, r is not a normal stop, and b had drained a link to that actor. |
| `LinkTheorems.DiesOfNoticeExactly` | src/actor/kind.rs:100-123 | An actor dies of a sibling's death if and only if it took the notice of it, that death was not normal, and it is neither still dealing with the notice nor killed meanwhile. |
| `LinkTheorems.BlameGoesBack` | src/actor.rs:251-267 | Each nested id died strictly before the one that names it, and the innermost reason is a kill or a panic. |
| `LinkTheorems.CascadesAreFinite` | src/actor.rs:251-267 | The ids nested in a stop reason are distinct, different from the dead actor, in reverse order of death and fewer than the actors there are; a cascade never starts from a normal stop. |
| `LinkCauses.ApplyKeepsCauses` | src/actor/kind.rs:100-123 | Every signal in a mailbox, and every reason taken from one, names a sibling that drained this link with that final reason. |
| `LinkHistory.ApplyKeepsPhases` | src/actor/spawn.rs:196-242 | Every step keeps reason, drain and section in agreement with the actor's phase; a failed start has neither reason nor drain. |
| `LinkHistory.ApplyExtends` | src/actor/spawn.rs:208-237 | Final reasons, drained links and the order of deaths are never rewritten. |
| `MessageQueueProofs.HandleKeepsInv` | actors/src/message_queue.rs:499-782 | Every handler, error replies included, keeps: each binding names an existing queue; the default exchange has exactly one binding per queue, keyed by its name; bindings are unique per queue and key; a header rule exists iff the exchange is a headers exchange; no consumer list is empty and its actors are distinct; exchange names equal their keys and are not empty. |
| `MessageQueueProofs.RunKeepsInv` | actors/src/message_queue.rs:343-355 | That invariant holds after any sequence of operations on a new message queue. |
| `MessageQueueProofs.RefusedExactlyWhen` | actors/src/message_queue.rs:680-735 | After any run a publish panics if and only if its exchange is a topic exchange holding a malformed pattern; misses headers if and only if it is a headers exchange and none were given; misses the exchange if and only if it is neither default nor declared. A refused publish changes nothing. |
| `MessageQueueProofs.MalformedPatternAborts` | actors/src/message_queue.rs:705-710 | A concrete run: binding a malformed pattern is accepted, and the next publish to that exchange panics. |
| `MessageQueueProofs.RemoveQueuesKeepsInv` | actors/src/message_queue.rs:357-385 | Removing queues together with their bindings and emptied auto-delete exchanges keeps the invariant. |
| `MessageQueueDelivery.DeliveryOrderIsInvisible` | actors/src/message_queue.rs:413-496 | Whatever order the target queues are walked in, with dead consumers pruned and queues and exchanges auto-deleted on the way, the tables end the same, and each live consumer with passing tags gets exactly one message per target queue it consumes, nobody else any. |
| `MessageQueueDelivery.AnyTwoOrdersAgree` | actors/src/message_queue.rs:737-740 | Two iteration orders of one target set give equal tables and equal multisets of deliveries. |
| `MessageQueueDelivery.PublishInAnyOrder` | actors/src/message_queue.rs:675-743 | After any run, a publish walked in any order leaves the tables of the order-free closed form and delivers exactly. |
| `MessageQueueDelivery.DeliverOneMore` | actors/src/message_queue.rs:413-496 | One more target changes the outcome by exactly that target, and earlier prunes never touch its consumers. |
| `MessageQueueDelivery.DeliverOnce` | actors/src/message_queue.rs:413-496 | Delivering to a queue cancels its reached dead consumers as one batch, or changes nothing if there are none. |
| `MessageQueueDelivery.CancelAllTogether` | actors/src/message_queue.rs:387-411 | Cancelling consumers one after the other equals removing them at once and then deleting the queue if it is auto-delete and left without consumers. |
| `MessageQueueDelivery.RemoveQueuesTwice` | actors/src/message_queue.rs:357-385 | Removing queues in two batches sweeps the same exchanges as removing them together. |
| `MessageQueueDelivery.ToldIsExact` | actors/src/message_queue.rs:428-459 | Within one queue each live reached consumer is told once and nobody else. |
| `MessageQueueAutoDelete.AutoDeleteQueueKeepsConsumers` | actors/src/message_queue.rs:387-411 | Over whole runs: an auto-delete queue that had a consumer at some moment and was not removed since has a consumer now, also after publishes that prune and after a cancel that answers QueueInUse. |
| `MessageQueueAutoDelete.AutoDeleteExchangeKeepsBindings` | actors/src/message_queue.rs:652-665 | The same for an auto-delete exchange and its bindings. |
| `MessageQueueAutoDelete.SweptExactlyWhen` | actors/src/message_queue.rs:370-384 | Deleting a queue removes an exchange if and only if it is auto-delete and nothing but that queue is bound to it. |
| `MessageQueueAutoDelete.FreshExchangeIsSwept` | actors/src/message_queue.rs:374-383 | A concrete run: an auto-delete exchange that never had a binding disappears when an unrelated queue is deleted. |
| `MessageQueueSteps.RepliesExactly` | actors/src/message_queue.rs:499-782 | The reply of every operation by what the tables hold: which error, and which comes first. An error changes nothing, but for a cancel of one of several consumers of an auto-delete queue, which takes effect and replies QueueInUse. |
| `MessageQueueSteps.ConsumesAfter` | actors/src/message_queue.rs:746-782 | One operation, one consumer: registered afterwards if and only if its queue is still there and it was registered and neither cancelled nor found dead by a publish that reached it, or it registers now and its actor had no registration for that type. |
| `MessageQueueSteps.QueuesAfter` | actors/src/message_queue.rs:549-590 | One operation, one queue: there afterwards if and only if declared now, or there before and neither deleted nor, being auto-delete, left by its last consumers through a cancel or a publish that found them all dead. Its setting stays. |
| `MessageQueueSteps.ExchangesAfter` | actors/src/message_queue.rs:499-548 | One operation, one exchange: there afterwards if and only if declared now, or there before and neither deleted, nor, being auto-delete, unbound from its last queue or left without bindings by the removal of a queue. |
| `MessageQueueSteps.BoundAfter` | actors/src/message_queue.rs:591-667 | One operation, one binding: there afterwards if and only if its exchange is, and it was made now by an accepted bind, or was there, its queue still is, and it was not unbound. |
| `MessageQueueHistory.ConsumersReadTheHistory` | actors/src/message_queue.rs:746-782 | After any run a consumer is registered if and only if some operation of the run registered it and since then its queue stayed, nobody cancelled it and no publish found it dead. |
| `MessageQueueHistory.BindingsReadTheHistory` | actors/src/message_queue.rs:591-667 | After any run a binding is there if and only if an accepted bind of the run made it and since then its queue and exchange stayed and nobody unbound it. |
| `MessageQueueHistory.KindsReadTheHistory` | actors/src/message_queue.rs:499-523 | An exchange is of the kind, and deletes itself or not, as declared when it came to be. |
| `MessageQueueHistory.RoutesByHistory` | actors/src/message_queue.rs:688-735 | After any run a publish to a named exchange goes to a queue if and only if a bind still in force carries it there: by an equal key (direct), a match of the pattern (topic), always (fanout), or the arguments of the bind: all of them equal in the headers, or any for `x-match` any, names in `x-` left out. |
| `MessageQueueHistory.DefaultRoute` | actors/src/message_queue.rs:680-698 | After any run a publish to the default exchange goes to the queue its key names, if there is one, and to no other. |
| `MessageQueueHistory.PublishTellsExactly` | actors/src/message_queue.rs:675-743 | Whom a publish tells, from the history alone: after any run and in any order of the queues, an actor is told once through each queue the message reaches in which it has a registration still in force, of the message's type and with tags that pass, unless it is dead; nobody is told anything else. |
| `MessageQueueActor.MessageQueue.DeleteQueue` | actors/src/message_queue.rs:357-385 | The in-place deletion (queue, default binding, detaching loop, removal loop) reaches the tables with the queue and the emptied auto-delete exchanges gone, or answers the error and changes nothing. |
| `MessageQueueActor.MessageQueue.DetachQueue` | actors/src/message_queue.rs:374-380 | The loop over exchanges, in any order, drops exactly this queue's bindings and lists exactly the auto-delete exchanges left empty. |
| `MessageQueueActor.MessageQueue.TellConsumers` | actors/src/message_queue.rs:422-459 | The loop tells the live consumers whose tags pass and collects exactly the dead ones, in list order. |
| `MessageQueueActor.MessageQueue.DeliverMessage` | actors/src/message_queue.rs:413-496 | One queue's delivery and pruning, tied to the specification of both tables and messages. |
| `MessageQueueActor.MessageQueue.FindTargets` | actors/src/message_queue.rs:688-735 | The loop over bindings ends with the routing that RoutesByHistory and DefaultRoute give, or the header error, or the panic of a malformed topic pattern. |
| `MessageQueueActor.MessageQueue.DeliverToAll` | actors/src/message_queue.rs:737-740 | The loop over an unordered target set ends in the order-free closed form and delivers exactly. |
| `MessageQueueActor.MessageQueue.PublishMessage` | actors/src/message_queue.rs:675-743 | A publish either refuses and changes nothing, or delivers exactly and prunes. |
| `ExactlyOnce.CacheIsTheLastExecutions` | src/remote/exactly_once.rs:94-168 | For any run of resolves, the cached ids are the ids of the last min(capacity, n) executions, in order and distinct, and every answer equals that of a reference that keeps the whole history of executions and looks back only that far. |
| `ExactlyOnce.ResolveReplays` | src/remote/exactly_once.rs:105-155 | One resolve answers and advances as the history does. |
| `ExactlyOnce.InsertRepresents` | src/remote/exactly_once.rs:157-168 | An insert slides the window by one, evicting the oldest execution only when full. |
| `ExactlyOnce.NothingIsReplaced` | src/remote/exactly_once.rs:157-168 | An insert never replaces the reply of an id that is cached. |
| `ExactlyOnce.ReexecutionIsFarApart` | src/remote/exactly_once.rs:157-168 | Two executions of one id have executions of at least `capacity` distinct other ids between them. |
| `ExactlyOnce.FirstReplyWins` | src/remote/exactly_once.rs:128-155 | While an id is cached, a call returns its first reply; a checked one with another fingerprint, or after an unchecked insert, errors; either way nothing runs and nothing changes. |
| `ExactlyOnce.ExactlyOnceDedup.ResolveUnchecked` | src/remote/exactly_once.rs:105-123 | Keeps the tie between cache and history, for a hit and for a miss. |
| `ExactlyOnce.ExactlyOnceDedup.ResolveChecked` | src/remote/exactly_once.rs:128-155 | The same with the fingerprint check. |
| `HandleCache.TokensReadTheHistory` | src/remote/handle_cache.rs:17-70 | After any run of registrations, invalidations and drops, a token still held reads true if and only if no invalidation since its registration named its address or its peer; the index still finds it under both. |
| `HandleCache.TouchedKeysAreExact` | src/remote/handle_cache.rs:17-43 | Right after a registration or invalidation names a key, the tokens found under it are exactly those still held that were registered under it: dropped ones do not pile up. |
| `HandleCache.RunRepresents` | src/remote/handle_cache.rs:17-43 | Every run keeps: index entries are not empty, name a token once and only under its own keys, and no held token is lost by pruning. |
| `HandleCache.InvalidateKeyClears` | src/remote/handle_cache.rs:27-43 | Invalidating a key clears exactly the held tokens registered under it. |
| `HandleCache.RegisterKeyEffect` | src/remote/handle_cache.rs:17-25 | Registering prunes dropped tokens only, and touches no other key. |
| `HandleCache.LiveKeepsHeld` | src/remote/handle_cache.rs:23 | Pruning keeps exactly the tokens that are still held. |
| `HandleCache.ConnectionCache.AddUnder` | src/remote/handle_cache.rs:17-25 | The pruning loop and the push, on the index in place. |
| `HandleCache.ConnectionCache.ClearUnder` | src/remote/handle_cache.rs:27-43 | The loop that clears flags while pruning, and the removal of an empty entry. |
| `RemoteLinks.EventsBalance` | src/remote/remote_link.rs:30-126 | For any interleaving of critical sections: established signals equal died signals plus effective unlinks, plus one exactly if the link is registered; no inner map is ever empty. |
| `RemoteLinkHistory.StepIsExact` | src/remote/remote_link.rs:30-126 | One critical section, one link: there afterwards if and only if made now, or there before and neither unlinked nor taken with its address. Each change, and nothing else, is logged once: an established signal, a death signal or a silent removal. |
| `RemoteLinkHistory.LinksReadTheHistory` | src/remote/remote_link.rs:30-126 | After any run a local actor is linked to a remote one if and only if some operation linked them and none since unlinked them or took the links of that address. |
| `RemoteLinkHistory.UnlinkedHearsNothing` | src/remote/remote_link.rs:74-103 | An unlinked actor hears of no death over that link until it is linked again, whatever else happens. |
| `RemoteLinkHistory.DisconnectByAddrIsExact` | src/remote/remote_link.rs:265-290 | A disconnect by address sends one LinkDied per link there, removes exactly these, and leaves recorded addresses alone. |
| `RemoteLinkHistory.AutoLinkIsExact` | src/remote/remote_link.rs:184-228 | An automatic link records the peer's address and links exactly the waiting actors to the peer's remote id, one signal per new link. |
| `RemoteLinkHistory.RemoteOfPeer` | src/remote/remote_link.rs:205-212 | That remote id is the number in the first eight bytes of the peer's key, the least significant byte first. |
| `RemoteLinks.StepKeepsBalance` | src/remote/remote_link.rs:30-126 | Each critical section keeps both. |
| `RemoteLinks.DisconnectIsExact` | src/remote/remote_link.rs:238-263 | After any run, a disconnect by peer id sends one LinkDied per link under the address recorded last for the peer, address-only links included, and removes exactly those; other addresses stay; repeated, or without a recorded address, it does nothing. |
| `RemoteLinks.LatestAddress` | src/remote/remote_link.rs:56-72 | The address in force is that of the last recording for the peer not followed by another recording or a disconnect. |
| `RemoteLinks.RunKnowsAddress` | src/remote/remote_link.rs:184-197 | The registry knows exactly that address after any run. |
| `RemoteLinks.AutoLinkIsIdempotent` | src/remote/remote_link.rs:184-228 | Linking the waiting local actors to a peer again, in any order and with repetitions, changes nothing and signals nobody. |
| `RemoteLinks.LinkStepsLinkMany` | src/remote/remote_link.rs:213-227 | Linking actors one by one, in any order, equals adding the set of them, with one signal per new link. |
| `RemoteLinks.UnlinkOneOfNone` | src/remote/remote_link.rs:74-103 | Unlinking what is not linked leaves the nested maps as they are. |
| `RemoteLinkRegistries.RemoteLinkRegistry.AutoLinkPeer` | src/remote/remote_link.rs:184-228 | The nested loops over names and actors, in any order of names, link exactly the waiting actors that are not linked yet; the address is recorded even if nobody waits. |
| `RemoteLinkRegistries.RemoteLinkRegistry.DispatchDeaths` | src/remote/remote_link.rs:243-262 | The nested dispatch loops, in any order, signal every taken link exactly once. |
| `RemoteLinkRegistries.RemoteLinkRegistry.NotifyPeerDisconnectedById` | src/remote/remote_link.rs:238-263 | Forgets the address, then takes and signals its links. |
| `Replies.SenderEndsOnce` | src/message.rs:404-428 | For any sequence of context operations and any end of the handler, kills included: an ask's reply sender ends in exactly one place, a tell has none. It is dropped if and only if the first operation that took it was a forward that was abandoned or failed without giving the message back, or nothing took it and the handler panicked, was killed or returned a marker. |
| `Replies.FirstTakerDecides` | src/message.rs:154-166 | The first operation that takes the sender decides where it ends; without one the context still holds it. |
| `Replies.SenderNeverReturns` | src/message.rs:246-282 | Once the context has no sender no later operation brings one back, failed forwards included. |
| `Replies.MarkersAreNeverConverted` | src/reply.rs:230-249 | Converting a reply panics if and only if a marker is returned while the context holds the sender; a marker made by the same context never is converted. |
| `Replies.ForeignMarkerPanics` | src/reply.rs:216-249 | A copied marker of another message, returned for an ask, does panic. |
| `Replies.LocalForwardsKeepSender` | src/message.rs:246-282 | A handler that awaits its forwards to local actors to the end, and returns, never loses the sender. |
| `Replies.AbandonedForwardLosesSender` | src/message.rs:255-260 | A forward dropped while it waits for room loses the sender although the handler goes on and returns. |
| `Replies.AskIsAnswered` | src/message.rs:417-419 | What an asker whose sender was never taken receives, for each kind of reply: a value or error as returned, the error of a failed forward as a forward error, a handler error of a direct reply as a handler error; a marker panics and drops the sender. |
| `Replies.TellReportsErrors` | src/message.rs:420-425 | With no asker, or the sender gone, a returned error is reported as what it is for each kind of reply, values and markers are not, and nothing is sent or converted. |
| `Replies.StopIsRemembered` | src/message.rs:416 | The actor is asked to stop after a message if and only if it was before, or the handler asked at some point. |
| `Replies.MappingIsNatural` | src/error.rs:105-136 | Mapping the message of an error changes what is handed back and nothing else, and commutes with mapping the handler's error. |
| `Replies.HandlerContext.Forward` | src/message.rs:246-282 | Takes the sender first and passes it on; a failure that returns the message restores it, any other, and a forward dropped half-way, does not. |
| `Pool.IdleWorkersTakeTurns` | actors/src/pool.rs:155-161 | From idle, successful dispatches go round the slots: after n of them the first n % size workers have one job more than the others' n / size. |
| `Pool.FullRoundsAreEven` | actors/src/pool.rs:155-161 | From idle, k successful dispatches per worker leave every worker with exactly k. |
| `Pool.RunningPoolsForwardAll` | actors/src/pool.rs:322-360 | As long as all workers run, every dispatch succeeds. |
| `Pool.DispatchesStayBalanced` | actors/src/pool.rs:317-366 | Dispatches, whoever has stopped and whether they succeed, never spread the loads further apart than they were, or than one. |
| `Pool.DispatchFailsOnDeadMinimum` | actors/src/pool.rs:322-365 | A dispatch fails if and only if the first least loaded worker is not running: the retries pick the same worker again; a failed one changes no load and gives the message back. |
| `PoolRefusal.RefusalEndsThePool` | actors/src/pool.rs:317-366 | The pool as an actor with its default panic hook, over any run of dispatches, broadcasts and worker completions, deaths and replacements: it goes on waiting if and only if no dispatch is refused, and the first refused one ends it with an OnMessage panic, what is behind it in the mailbox unread. |
| `PoolRefusal.RefusalLosesTheAsker` | src/message.rs:415-425 | An asker's reply sender is always handed to the pool's handler; afterwards it is in some worker's queue if and only if the dispatch was not refused, so a refusal drops it. |
| `Pool.IdleWorkerIsPassedOver` | actors/src/pool.rs:322-365 | A concrete run: with the first of two idle workers stopped, a dispatch is refused although the second is idle and running. |
| `PoolJobs.DispatchExactly` | actors/src/pool.rs:317-366 | A dispatch appends the message, with who waits for it, to the queue of the first least loaded worker if that runs, and changes nothing else. |
| `PoolJobs.BroadcastExactly` | actors/src/pool.rs:380-410 | A broadcast appends the message, with nobody waiting, to the queue of every running worker, and changes nothing else. |
| `PoolJobs.JobsAreConserved` | actors/src/pool.rs:317-410 | Over any run of dispatches, broadcasts, completions, deaths and replacements: as often as a job was accepted it was done, was lost with its worker, or is queued still. |
| `Pool.NextWorker` | actors/src/pool.rs:155-161 | The chosen worker has a minimal load and is the first such. |
| `Pool.PoolKeepsSize` | actors/src/pool.rs:183-224 | Under any interleaving of dispatches, broadcasts, completions, deaths and replacements the pool keeps its slots, with distinct ids. |
| `Pool.StepKeepsSlots` | actors/src/pool.rs:183-224 | A replacement changes only the dead worker's slot, to an idle new worker; nothing else changes ids. |
| `Pool.ActorPool.Dispatch` | actors/src/pool.rs:317-366 | The retry loop, which gets message and sender back from each failed attempt, ends as the single deciding attempt does. |
| `Pool.ActorPool.Broadcast` | actors/src/pool.rs:380-410 | Every running worker gets one job, and each slot's result says whether it did. |
| `HeaderCodec.WireLayout` | src/remote/message_protocol.rs:94-102 | The encoding is the type's byte (0, 1, 2), two bytes of correlation id, the flags, four bytes of type hash and four reserved ones, each number with its most significant byte first. |
| `HeaderCodec.DecodeEncode` | src/remote/message_protocol.rs:94-124 | Decoding an encoded header gives it back, whatever bytes follow. |
| `HeaderCodec.EncodeDecode` | src/remote/message_protocol.rs:105-124 | Accepted bytes re-encode to their first twelve. |
| `HeaderCodec.AcceptedExactly` | src/remote/message_protocol.rs:105-124 | Exactly the inputs of at least twelve bytes with a type below 3 and flags below 16 are accepted; which error answers each other input; accepted inputs are exactly those that start with an encoding. |
| `HeaderCodec.EncodeIsInjective` | src/remote/message_protocol.rs:94-102 | Different headers are told apart even inside longer messages. |
| `HeaderCodec.StreamReadsBack` | src/remote/message_protocol.rs:127-138 | Headers written one after the other read back as the same sequence, leaving exactly what follows. |
| `HeaderCodec.ReadsExactly` | src/remote/message_protocol.rs:127-138 | Reading n headers succeeds if and only if each has its twelve bytes and they are accepted, and takes just those; it fails at the first that is not so, for that header's own reason or for missing bytes, and reads no further. |
| `HeaderCodec.NothingLeftOver` | src/remote/message_protocol.rs:127-138 | A stream of headers alone is twelve bytes per header and is read to its end. |
| `HeaderCodec.RoundTripBytes32` | src/remote/message_protocol.rs:114-115 | Big-endian bytes and 32-bit numbers determine each other (bytes to number to bytes). |
| `HeaderCodec.RoundTrip32` | src/remote/message_protocol.rs:99-100 | Big-endian bytes and 32-bit numbers determine each other (number to bytes to number). |
| `HeaderCodec.ToBytes` | src/remote/message_protocol.rs:94-102 | The array filled in place holds the encoding. |

## Left out

- Tokio scheduling, capacities and back-pressure: a mailbox is a sequence, a send an outcome, a lock an owner. In particular a dying actor may wait forever for room in the mailbox of another dying actor; only the links locks are proved free of deadlock.
- A kill that arrives while the receive loop waits: it leaves the mailbox unread, as a loop that waits does here, and the reason is Killed. Kills while a hook runs are modelled.
- A custom `next` hook of an actor, and a panic inside `on_panic` itself: signals are taken in mailbox order, and the panic hook answers or returns an error.
- Custom hooks in the link model: cascades are stated for the default `on_link_died` and `on_panic`.
- Links to remote actors in the link model: remote ids share the id space with local ones.
- The blocking variants of link and unlink: same order of locks and same edits as the asynchronous ones.
- Spawned delivery strategies of the message queue: a detached task's cancel is a later cancel operation. A full mailbox under best-effort delivery counts as a delivery, because it prunes nobody.
- Glob matching of topic patterns, and the filter on consumer tags: parameters of a publication.
- Recipients and mailboxes as values: an actor id stands for both. In the remote registry this leaves out which of two mailboxes registered for the same id is kept.
- ExactlyOnce.ExactlyOnceDedup.ResolveUnchecked: the work is a total function; a future that panics or is cancelled before it answers inserts nothing and is not modelled. The variant for raw bytes has the same code and is not repeated.
- Generation of request ids and payload hashing.
- HandleCache.ConnectionCache.Register: the moment a holder drops its last reference is an operation of its own, between the others.
- Replies.HandlerContext.SpawnTask: what the detached task answers, and the hook it calls for an error of a tell.
- Downcasting of boxed replies and errors on the asker's side.
- Pool.ActorPool.Dispatch: workers neither stop nor finish jobs while one dispatch awaits; between dispatches they may. The pool theorems over runs go on past a refused dispatch, which PoolRefusal shows to end the pool: they cover more runs than can happen.
- HeaderCodec.Stream.Read: an in-memory stream; how much another reader consumes before it fails is up to that reader.
- Broker, message bus, pubsub, registry, scheduler, macros, metrics, tracing, gossip, connection pools and TLS.
