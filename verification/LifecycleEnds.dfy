/** How an actor ends, or goes on, after each signal: by what the hooks answer, an early stop or kill included. */
module LifecycleEnds {
  import opened Common
  import opened StopReasons
  import opened Lifecycle
  import opened LifecycleProofs
  import opened LifecycleOrder
  import opened LifecycleStop

  /** The loop takes the signal and goes on from b1 with what follows. */
  ghost predicate GoesOn(b: Behaviour, h: Hooks, s: Received, rest: seq<Received>, b1: Behaviour)
    requires BufferInv(b)
  {
    BufferInv(b1) && ActorLoop(b, h, [s] + rest) == ActorLoop(b1, h, rest)
  }

  /** The loop takes the signal and ends, with what follows unread. */
  ghost predicate EndsWith(
    b: Behaviour, h: Hooks, s: Received, rest: seq<Received>, b1: Behaviour, reason: StopReason)
    requires BufferInv(b)
  {
    ActorLoop(b, h, [s] + rest) == (b1, Ended(reason, rest))
  }

  /** The panic hook is asked once, about this panic, and decides. Its own failure is final. */
  ghost predicate PanicsWith(
    b: Behaviour, h: Hooks, s: Received, rest: seq<Received>, b1: Behaviour, why: PanicReason)
    requires BufferInv(b)
  {
    var asked := b1.(calls := b1.calls + 1);
    match h.onPanic(b1.calls, why)
    case Decide(Continue) => GoesOn(b, h, s, rest, asked)
    case Decide(Break(reason)) => EndsWith(b, h, s, rest, asked, reason)
    case PanicHookError => EndsWith(b, h, s, rest, asked, Panicked(OnPanic))
    case PanicHookKilled => EndsWith(b, h, s, rest, asked, Killed)
  }

  lemma OneSignal(b: Behaviour, h: Hooks, s: Received, rest: seq<Received>)
    requires BufferInv(b)
    ensures var (b1, flow) := HandleSignal(b, h, s);
      match flow
      case Continue => GoesOn(b, h, s, rest, b1)
      case Break(Panicked(why)) => PanicsWith(b, h, s, rest, b1, why)
      case Break(reason) => EndsWith(b, h, s, rest, b1, reason)
  {
    LoopStep(b, h, [s] + rest);
    assert ([s] + rest)[1..] == rest;
    hide ActorLoop, HandleSignal;
  }

  /**
   A sibling's death: the hook's own decision is final unless it is a panic, an error or panic of the hook is one
   that the panic hook is asked about, and the dead sibling is forgotten unless the actor was killed in the hook.
   */
  lemma {:induction false} AfterDeath(b: Behaviour, h: Hooks, id: ActorId, reason: StopReason, rest: seq<Received>)
    requires BufferInv(b)
    ensures var s := Some(Signal.LinkDied(id, reason));
      var asked := b.(calls := b.calls + 1);
      var forgot := asked.(links := b.links - {id});
      match h.onLinkDied(b.calls, id, reason)
      case Decided(Continue) => GoesOn(b, h, s, rest, forgot)
      case Decided(Break(Panicked(why))) => PanicsWith(b, h, s, rest, forgot, why)
      case Decided(Break(own)) => EndsWith(b, h, s, rest, forgot, own)
      case HookError => PanicsWith(b, h, s, rest, forgot, OnLinkDied)
      case HookPanicked => PanicsWith(b, h, s, rest, forgot, OnLinkDied)
      case HookKilled => EndsWith(b, h, s, rest, asked, Killed)
  {
    OneSignal(b, h, Some(Signal.LinkDied(id, reason)), rest);
    hide GoesOn, EndsWith, PanicsWith;
  }

  lemma {:induction false} AfterEstablished(b: Behaviour, h: Hooks, id: ActorId, rest: seq<Received>)
    requires BufferInv(b)
    ensures var s := Some(LinkEstablished(id));
      var asked := b.(calls := b.calls + 1);
      match h.onLinkEstablished(b.calls, id)
      case Decided(Continue) => GoesOn(b, h, s, rest, asked)
      case Decided(Break(Panicked(why))) => PanicsWith(b, h, s, rest, asked, why)
      case Decided(Break(own)) => EndsWith(b, h, s, rest, asked, own)
      case HookError => PanicsWith(b, h, s, rest, asked, OnLinkEstablished)
      case HookPanicked => PanicsWith(b, h, s, rest, asked, OnLinkEstablished)
      case HookKilled => EndsWith(b, h, s, rest, asked, Killed)
  {
    OneSignal(b, h, Some(LinkEstablished(id)), rest);
    hide GoesOn, EndsWith, PanicsWith;
  }

  /** The actor after a handler ran and decided, which drops what waits behind its message if it breaks. */
  function Ran(b: Behaviour, m: Signal, flow: Flow, dropped: seq<Signal>): Behaviour {
    b.(calls := b.calls + 1, log := b.log + [Handled(m, flow)] + Discarding(dropped))
  }

  /** A handler that asks to stop ends the actor normally; after its error or panic the panic hook is asked. */
  ghost predicate HandlerEnds(
    b: Behaviour, h: Hooks, s: Received, rest: seq<Received>, before: Behaviour, m: Signal, dropped: seq<Signal>)
    requires BufferInv(b) && m.Message?
  {
    match h.onMessage(before.calls, m.body)
    case Replied(false) => GoesOn(b, h, s, rest, Ran(before, m, Continue, []))
    case Replied(true) => EndsWith(b, h, s, rest, Ran(before, m, Break(Normal), dropped), Normal)
    case ReplyError => PanicsWith(b, h, s, rest, Ran(before, m, Break(Panicked(OnMessage)), dropped), OnMessage)
    case HandlerPanicked =>
      PanicsWith(b, h, s, rest, Ran(before, m, Break(Panicked(HandlerPanic)), dropped), HandlerPanic)
    case HandlerKilled => EndsWith(b, h, s, rest, Ran(before, m, Break(Killed), dropped), Killed)
  }

  /** A message that waits for startup is only buffered; any other is handled, and its handler decides. */
  lemma {:induction false} AfterMessage(b: Behaviour, h: Hooks, m: Signal, rest: seq<Received>)
    requires BufferInv(b) && m.Message?
    ensures if m.sentWithinActor || b.finishedStartup then HandlerEnds(b, h, Some(m), rest, b, m, [])
            else GoesOn(b, h, Some(m), rest, b.(startupBuffer := b.startupBuffer + [m]))
  {
    OneSignal(b, h, Some(m), rest);
    assert forall log: seq<Event> :: log + Discarding([]) == log;
    hide GoesOn, EndsWith, PanicsWith;
  }

  /** The actor once startup finished and the first n waiting messages are handled. */
  function DrainedTo(b: Behaviour, n: nat): Behaviour
    requires n <= |b.startupBuffer|
  {
    b.(finishedStartup := true, startupBuffer := [], calls := b.calls + n,
       log := b.log + AllHandled(b.startupBuffer[..n]))
  }

  lemma {:induction false} CalmDrain(b: Behaviour, h: Hooks, taken: seq<Signal>)
    requires b.finishedStartup && forall m :: m in taken ==> m.Message?
    ensures var k := Calm(h, b.calls, taken);
      var calm := b.(calls := b.calls + k, log := b.log + AllHandled(taken[..k]));
      DrainBuffer(b, h, taken) ==
        if k == |taken| then (calm, Continue)
        else
          var flow := MessageFlow(Answer(h, b.calls, taken, k));
          (Ran(calm, taken[k], flow, taken[k + 1..]), flow)
    decreases |taken|
  {
    if taken == [] {
      assert b.log + AllHandled([]) == b.log;
    } else if !Quiets(Answer(h, b.calls, taken, 0)) {
      assert b.log + AllHandled([]) == b.log;
    } else {
      var b1 := HandleMessage(b, h, taken[0]).0;
      var k := Calm(h, b1.calls, taken[1..]);
      CalmDrain(b1, h, taken[1..]);
      assert b.log + AllHandled(taken[..k + 1]) == b1.log + AllHandled(taken[1..][..k]);
      assert k < |taken| - 1 ==> taken[1..][k + 1..] == taken[k + 2..];
      assert k < |taken| - 1 ==> Answer(h, b1.calls, taken[1..], k) == Answer(h, b.calls, taken, k + 1);
    }
  }

  predicate Finishes(s: Received) {
    s == None || s == Some(Stop) || s == Some(StartupFinished)
  }

  /**
   The end of startup, Stop and the loss of the last sender handle what waits. If one of those handlers breaks, it
   decides alone and what waits behind it is dropped, Stop or not; if none does, the end of startup goes on and the
   other two end the actor normally.
   */
  lemma {:induction false} AfterFinish(b: Behaviour, h: Hooks, s: Received, rest: seq<Received>)
    requires BufferInv(b) && Finishes(s)
    ensures var k := Calm(h, b.calls, b.startupBuffer);
      var calm := DrainedTo(b, k);
      if k < |b.startupBuffer| then HandlerEnds(b, h, s, rest, calm, b.startupBuffer[k], b.startupBuffer[k + 1..])
      else if s == Some(StartupFinished) then GoesOn(b, h, s, rest, calm)
      else EndsWith(b, h, s, rest, calm, Normal)
  {
    OneSignal(b, h, s, rest);
    CalmDrain(b.(finishedStartup := true, startupBuffer := []), h, b.startupBuffer);
    hide GoesOn, EndsWith, PanicsWith, DrainBuffer, Calm;
  }

  /**
   When startup found the mailbox full, what waits is handled before the loop starts, so that a handler that breaks
   is final: the panic hook is not asked.
   */
  lemma {:induction false} AfterFullMailbox(b: Behaviour, h: Hooks, mailbox: seq<Received>)
    requires BufferInv(b)
    ensures var k := Calm(h, b.calls, b.startupBuffer);
      var calm := DrainedTo(b, k);
      var run := AbortableActorLoop(b, h, mailbox, true);
      if k == |b.startupBuffer| then BufferInv(calm) && run == ActorLoop(calm, h, mailbox)
      else
        var m, dropped := b.startupBuffer[k], b.startupBuffer[k + 1..];
        match h.onMessage(calm.calls, m.body)
        case Replied(_) => run == (Ran(calm, m, Break(Normal), dropped), Ended(Normal, mailbox))
        case ReplyError =>
          run == (Ran(calm, m, Break(Panicked(OnMessage)), dropped), Ended(Panicked(OnMessage), mailbox))
        case HandlerPanicked =>
          run == (Ran(calm, m, Break(Panicked(HandlerPanic)), dropped), Ended(Panicked(HandlerPanic), mailbox))
        case HandlerKilled => run == (Ran(calm, m, Break(Killed), dropped), Ended(Killed, mailbox))
  {
    CalmDrain(b.(finishedStartup := true, startupBuffer := []), h, b.startupBuffer);
    hide ActorLoop, DrainBuffer, Calm;
  }

  /** The hooks of an actor that overrides neither its panic hook nor its hook for the death of a sibling. */
  ghost predicate DefaultHooks(h: Hooks) {
    && (forall c, id, reason :: h.onLinkDied(c, id, reason) == Decided(DefaultOnLinkDied(id, reason)))
    && (forall c, why :: h.onPanic(c, why) == Decide(DefaultOnPanic(why)))
  }

  /** By default a sibling's death is fatal, with that sibling and its reason named, unless it was normal. */
  lemma {:induction false} DefaultDeath(b: Behaviour, h: Hooks, id: ActorId, reason: StopReason, rest: seq<Received>)
    requires BufferInv(b) && DefaultHooks(h)
    ensures var s := Some(Signal.LinkDied(id, reason));
      var forgot := b.(calls := b.calls + 1, links := b.links - {id});
      if reason.Normal? then GoesOn(b, h, s, rest, forgot)
      else EndsWith(b, h, s, rest, forgot,
                    if reason.PeerDisconnected? then PeerDisconnected else StopReason.LinkDied(id, reason))
  {
    AfterDeath(b, h, id, reason, rest);
    hide GoesOn, EndsWith, PanicsWith;
  }

  /** By default an error that nobody is told of, or a panic, ends the actor as what it was. */
  lemma {:induction false} DefaultFailure(b: Behaviour, h: Hooks, m: Signal, rest: seq<Received>)
    requires BufferInv(b) && DefaultHooks(h) && m.Message? && (m.sentWithinActor || b.finishedStartup)
    ensures var result := h.onMessage(b.calls, m.body);
      var end := ActorLoop(b, h, [Some(m)] + rest).1;
      && (result.ReplyError? ==> end == Ended(Panicked(OnMessage), rest))
      && (result.HandlerPanicked? ==> end == Ended(Panicked(HandlerPanic), rest))
  {
    AfterMessage(b, h, m, rest);
    hide ActorLoop;
  }

  // ---------- Links over a run ----------

  lemma {:induction false} DrainKeepsLinks(b: Behaviour, h: Hooks, taken: seq<Signal>)
    requires forall m :: m in taken ==> m.Message?
    ensures DrainBuffer(b, h, taken).0.links == b.links
    decreases |taken|
  {
    if taken != [] {
      DrainKeepsLinks(HandleMessage(b, h, taken[0]).0, h, taken[1..]);
    }
  }

  predicate TellsOf(s: Received, id: ActorId) {
    s.Some? && s.value.LinkDied? && s.value.id == id
  }

  lemma SignalLinks(b: Behaviour, h: Hooks, s: Received, id: ActorId)
    requires BufferInv(b)
    ensures var b1 := Recovered(b, h, s).0;
      id in b1.links <==> id in b.links && !(TellsOf(s, id) && !h.onLinkDied(b.calls, id, s.value.reason).HookKilled?)
  {
    DrainKeepsLinks(b.(finishedStartup := true, startupBuffer := []), h, b.startupBuffer);
  }

  /** The links left once some signals were taken: of the ids in these only the last, if its hook was cut short. */
  ghost predicate LinksLeft(before: set<ActorId>, now: set<ActorId>, taken: seq<Received>, id: ActorId) {
    && (id in now ==> id in before && forall i :: 0 <= i < |taken| - 1 ==> !TellsOf(taken[i], id))
    && (id in before && id !in now ==> exists i :: 0 <= i < |taken| && TellsOf(taken[i], id))
  }

  lemma OneMoreTaken(
    before: set<ActorId>, mid: set<ActorId>, now: set<ActorId>, s: Received, later: seq<Received>, id: ActorId)
    requires id in mid <==> id in before && !TellsOf(s, id)
    requires LinksLeft(mid, now, later, id)
    ensures LinksLeft(before, now, [s] + later, id)
  {
    var taken := [s] + later;
    assert taken[0] == s && forall i :: 0 <= i < |later| ==> taken[i + 1] == later[i];
  }

  lemma {:induction false} LoopLinks(b: Behaviour, h: Hooks, mailbox: seq<Received>, id: ActorId)
    requires BufferInv(b)
    ensures var (b1, end) := ActorLoop(b, h, mailbox); LinksLeft(b.links, b1.links, Taken(mailbox, end), id)
    decreases |mailbox|
  {
    if mailbox != [] {
      var s := mailbox[0];
      SignalLinks(b, h, s, id);
      TakenStep(b, h, mailbox);
      var (b1, flow) := Recovered(b, h, s);
      if TellsOf(s, id) && h.onLinkDied(b.calls, id, s.value.reason).HookKilled? {
        KilledBreaks(b, h, s);
      }
      hide Recovered, ActorLoop, BufferInv, Taken;
      if flow.Continue? {
        LoopLinks(b1, h, mailbox[1..], id);
        OneMoreTaken(b.links, b1.links, ActorLoop(b1, h, mailbox[1..]).0.links, s,
                     Taken(mailbox[1..], ActorLoop(b, h, mailbox).1), id);
      } else {
        assert ([s] + [])[0] == s;
      }
    }
  }

  lemma KilledBreaks(b: Behaviour, h: Hooks, s: Received)
    requires BufferInv(b) && s.Some? && s.value.LinkDied?
    requires h.onLinkDied(b.calls, s.value.id, s.value.reason).HookKilled?
    ensures Recovered(b, h, s).1 == Break(Killed)
  {
  }

  /**
   Over a run: a sibling is forgotten exactly when its death was taken, unless the actor was killed while its hook dealt
   with that, which is the last thing it does.
   */
  lemma {:induction false} DeadAreForgotten(
    h: Hooks, links: set<ActorId>, mailbox: seq<Received>, startupFinished: bool, id: ActorId)
    ensures var (b, end) := AbortableActorLoop(Fresh(links), h, mailbox, startupFinished);
      var taken := Taken(mailbox, end);
      && (id in b.links ==> id in links && forall i :: 0 <= i < |taken| - 1 ==> !TellsOf(taken[i], id))
      && (id in links && id !in b.links ==> exists i :: 0 <= i < |taken| && TellsOf(taken[i], id))
  {
    var started := if startupFinished then Fresh(links).(finishedStartup := true) else Fresh(links);
    assert AbortableActorLoop(Fresh(links), h, mailbox, startupFinished) == ActorLoop(started, h, mailbox);
    LoopLinks(started, h, mailbox, id);
    hide ActorLoop, AbortableActorLoop;
  }
}
