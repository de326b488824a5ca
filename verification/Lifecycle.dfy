/**
 The mailbox-driven life of one actor: startup buffering, the receive loop, panic recovery and the
 graceful stop (src/actor/kind.rs, src/actor/spawn.rs).
 */
module Lifecycle {
  import opened Common
  import opened StopReasons

  datatype Signal =
    | StartupFinished
    | Message(body: nat, sentWithinActor: bool)
    | LinkDied(id: ActorId, reason: StopReason)
    | LinkEstablished(id: ActorId)
    | Stop

  /** One result of receiving; `None` is a mailbox whose senders are all gone. */
  type Received = Option<Signal>

  /** How a hook ended. A kill may drop it at any of its awaits. */
  datatype MessageResult = Replied(stop: bool) | ReplyError | HandlerPanicked | HandlerKilled
  datatype HookResult = Decided(flow: Flow) | HookError | HookPanicked | HookKilled
  datatype PanicDecision = Decide(flow: Flow) | PanicHookError | PanicHookKilled

  /** The user's hooks: what the n-th hook call of the actor's life answers to what it is given. */
  datatype Hooks = Hooks(
    onMessage: (nat, nat) -> MessageResult,
    onLinkDied: (nat, ActorId, StopReason) -> HookResult,
    onLinkEstablished: (nat, ActorId) -> HookResult,
    onPanic: (nat, PanicReason) -> PanicDecision)

  /** What became of a message, in the order it happened. */
  datatype Event = Handled(message: Signal, flow: Flow) | Discarded(message: Signal)

  datatype Behaviour = Behaviour(
    finishedStartup: bool,
    startupBuffer: seq<Signal>,
    links: set<ActorId>,
    calls: nat,
    log: seq<Event>)

  function Fresh(links: set<ActorId>): Behaviour {
    Behaviour(false, [], links, 0, [])
  }

  function MessageFlow(r: MessageResult): Flow {
    match r
    case Replied(stop) => if stop then Break(Normal) else Continue
    case ReplyError => Break(Panicked(OnMessage))
    case HandlerPanicked => Break(Panicked(HandlerPanic))
    case HandlerKilled => Break(Killed)
  }

  function HookFlow(r: HookResult, why: PanicReason): Flow {
    match r
    case Decided(flow) => flow
    case HookError => Break(Panicked(why))
    case HookPanicked => Break(Panicked(why))
    case HookKilled => Break(Killed)
  }

  function HandleMessage(b: Behaviour, h: Hooks, m: Signal): (Behaviour, Flow)
    requires m.Message?
  {
    if !m.sentWithinActor && !b.finishedStartup then
      (b.(startupBuffer := b.startupBuffer + [m]), Continue)
    else
      var flow := MessageFlow(h.onMessage(b.calls, m.body));
      (b.(calls := b.calls + 1, log := b.log + [Handled(m, flow)]), flow)
  }

  function Discarding(ms: seq<Signal>): (events: seq<Event>) {
    seq(|ms|, i requires 0 <= i < |ms| => Discarded(ms[i]))
  }

  /** Handles the taken buffer in order; a break drops what is left of it. */
  function DrainBuffer(b: Behaviour, h: Hooks, taken: seq<Signal>): (Behaviour, Flow)
    requires forall m :: m in taken ==> m.Message?
    decreases |taken|
  {
    if taken == [] then (b, Continue)
    else
      var (b1, flow) := HandleMessage(b, h, taken[0]);
      if flow.Break? then (b1.(log := b1.log + Discarding(taken[1..])), flow)
      else DrainBuffer(b1, h, taken[1..])
  }

  /** Only messages from outside are buffered, and only until startup finishes. */
  ghost predicate BufferInv(b: Behaviour) {
    && (forall m :: m in b.startupBuffer ==> m.Message? && !m.sentWithinActor)
    && (b.finishedStartup ==> b.startupBuffer == [])
  }

  function HandleStartupFinished(b: Behaviour, h: Hooks): (Behaviour, Flow)
    requires BufferInv(b)
  {
    DrainBuffer(b.(finishedStartup := true, startupBuffer := []), h, b.startupBuffer)
  }

  /** A kill keeps the dead sibling in the links, any other end of the hook removes it. */
  function HandleLinkDied(b: Behaviour, h: Hooks, id: ActorId, reason: StopReason): (Behaviour, Flow) {
    var result := h.onLinkDied(b.calls, id, reason);
    (b.(calls := b.calls + 1, links := if result.HookKilled? then b.links else b.links - {id}),
     HookFlow(result, OnLinkDied))
  }

  function HandleLinkEstablished(b: Behaviour, h: Hooks, id: ActorId): (Behaviour, Flow) {
    (b.(calls := b.calls + 1), HookFlow(h.onLinkEstablished(b.calls, id), OnLinkEstablished))
  }

  function HandleStop(b: Behaviour, h: Hooks): (Behaviour, Flow)
    requires BufferInv(b)
  {
    var (b1, flow) := HandleStartupFinished(b, h);
    (b1, if flow.Continue? then Break(Normal) else flow)
  }

  function OnShutdown(b: Behaviour, h: Hooks, reason: StopReason): (Behaviour, Flow) {
    if reason.Panicked? then
      (b.(calls := b.calls + 1),
       match h.onPanic(b.calls, reason.why)
       case Decide(flow) => flow
       case PanicHookError => Break(Panicked(OnPanic))
       case PanicHookKilled => Break(Killed))
    else (b, Break(reason))
  }

  function HandleSignal(b: Behaviour, h: Hooks, s: Received): (Behaviour, Flow)
    requires BufferInv(b)
  {
    match s
    case None => HandleStop(b, h)
    case Some(StartupFinished) => HandleStartupFinished(b, h)
    case Some(Message(_, _)) => HandleMessage(b, h, s.value)
    case Some(LinkDied(id, reason)) => HandleLinkDied(b, h, id, reason)
    case Some(LinkEstablished(id)) => HandleLinkEstablished(b, h, id)
    case Some(Stop) => HandleStop(b, h)
  }

  /** A loop either waits for more signals or ended, leaving the rest of the mailbox unread. */
  datatype LoopEnd = Waiting | Ended(reason: StopReason, rest: seq<Received>)

  /** The inner loop: handles signals until one breaks. */
  function RecvMailboxLoop(b: Behaviour, h: Hooks, mailbox: seq<Received>): (Behaviour, LoopEnd)
    requires BufferInv(b)
    decreases |mailbox|
  {
    if mailbox == [] then (b, Waiting)
    else
      var (b1, flow) := HandleSignal(b, h, mailbox[0]);
      SignalKeepsBufferInv(b, h, mailbox[0]);
      match flow
      case Break(reason) => (b1, Ended(reason, mailbox[1..]))
      case Continue => RecvMailboxLoop(b1, h, mailbox[1..])
  }

  /** The outer loop: a panic may be recovered from, any other reason is final. */
  function ActorLoop(b: Behaviour, h: Hooks, mailbox: seq<Received>): (Behaviour, LoopEnd)
    requires BufferInv(b)
    decreases |mailbox|
  {
    var (b1, end) := RecvMailboxLoop(b, h, mailbox);
    LoopKeepsBufferInv(b, h, mailbox);
    if end.Waiting? then (b1, Waiting)
    else
      var (b2, flow) := OnShutdown(b1, h, end.reason);
      if flow.Break? then (b2, Ended(flow.reason, end.rest))
      else ActorLoop(b2, h, end.rest)
  }

  /** A full mailbox at startup (`startupFinished`) skips the buffering phase. */
  function AbortableActorLoop(b: Behaviour, h: Hooks, mailbox: seq<Received>, startupFinished: bool)
    : (Behaviour, LoopEnd)
    requires BufferInv(b)
  {
    if startupFinished then
      var (b1, flow) := HandleStartupFinished(b, h);
      SignalKeepsBufferInv(b, h, Some(StartupFinished));
      if flow.Break? then (b1, Ended(flow.reason, mailbox)) else ActorLoop(b1, h, mailbox)
    else ActorLoop(b, h, mailbox)
  }

  // ---------- The buffer invariant ----------

  lemma {:induction false} DrainEmptiesBuffer(b: Behaviour, h: Hooks, taken: seq<Signal>)
    requires b.finishedStartup && b.startupBuffer == []
    requires forall m :: m in taken ==> m.Message?
    ensures DrainBuffer(b, h, taken).0.finishedStartup && DrainBuffer(b, h, taken).0.startupBuffer == []
    decreases |taken|
  {
    if taken != [] {
      DrainEmptiesBuffer(HandleMessage(b, h, taken[0]).0, h, taken[1..]);
    }
  }

  lemma SignalKeepsBufferInv(b: Behaviour, h: Hooks, s: Received)
    requires BufferInv(b)
    ensures BufferInv(HandleSignal(b, h, s).0)
    ensures s.None? || s.value.Stop? || s.value.StartupFinished? ==> HandleSignal(b, h, s).0.startupBuffer == []
  {
    DrainEmptiesBuffer(b.(finishedStartup := true, startupBuffer := []), h, b.startupBuffer);
  }

  lemma {:induction false} LoopKeepsBufferInv(b: Behaviour, h: Hooks, mailbox: seq<Received>)
    requires BufferInv(b)
    ensures BufferInv(RecvMailboxLoop(b, h, mailbox).0)
    ensures RecvMailboxLoop(b, h, mailbox).1.Ended? ==> |RecvMailboxLoop(b, h, mailbox).1.rest| < |mailbox|
    decreases |mailbox|
  {
    if mailbox != [] {
      SignalKeepsBufferInv(b, h, mailbox[0]);
      var (b1, flow) := HandleSignal(b, h, mailbox[0]);
      if flow.Continue? {
        LoopKeepsBufferInv(b1, h, mailbox[1..]);
      }
    }
  }
}
