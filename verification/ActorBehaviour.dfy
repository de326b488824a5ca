/** The running actor: its loops and handlers update the startup buffer and the links in place. */
module ActorBehaviours {
  import opened Common
  import opened StopReasons
  import opened Lifecycle

  class ActorBehaviour {
    const hooks: Hooks
    var finishedStartup: bool
    var startupBuffer: seq<Signal>
    var links: set<ActorId>
    /** How often a hook ran, and what became of each message so far. */
    var calls: nat
    ghost var log: seq<Event>

    ghost function State(): Behaviour
      reads this
    {
      Behaviour(finishedStartup, startupBuffer, links, calls, log)
    }

    constructor (hooks: Hooks, links: set<ActorId>)
      ensures this.hooks == hooks && State() == Fresh(links)
    {
      this.hooks := hooks;
      finishedStartup, startupBuffer := false, [];
      this.links := links;
      calls, log := 0, [];
    }

    method OnStartupFinished() returns (flow: Flow)
      requires BufferInv(State())
      modifies this
      ensures (State(), flow) == HandleStartupFinished(old(State()), hooks)
      ensures BufferInv(State())
    {
      SignalKeepsBufferInv(State(), hooks, Some(StartupFinished));
      finishedStartup := true;
      var taken := startupBuffer;
      startupBuffer := [];
      for i := 0 to |taken|
        invariant finishedStartup && startupBuffer == [] && taken == old(startupBuffer)
        invariant DrainBuffer(State(), hooks, taken[i..]) == HandleStartupFinished(old(State()), hooks)
      {
        assert taken[i] in taken;
        assert taken[i..][0] == taken[i] && taken[i..][1..] == taken[i + 1..];
        match taken[i]
        case Message(_, _) =>
          flow := OnMessage(taken[i]);
          if flow.Break? {
            log := log + Discarding(taken[i + 1..]);
            return;
          }
        case _ =>
          assert false;
      }
      flow := Continue;
    }

    method OnMessage(m: Signal) returns (flow: Flow)
      requires m.Message?
      modifies this
      ensures (State(), flow) == HandleMessage(old(State()), hooks, m)
    {
      if !m.sentWithinActor && !finishedStartup {
        startupBuffer := startupBuffer + [m];
        return Continue;
      }
      var result := hooks.onMessage(calls, m.body);
      calls := calls + 1;
      flow := MessageFlow(result);
      log := log + [Handled(m, flow)];
    }

    method OnLinkDied(id: ActorId, reason: StopReason) returns (flow: Flow)
      modifies this
      ensures (State(), flow) == HandleLinkDied(old(State()), hooks, id, reason)
    {
      var result := hooks.onLinkDied(calls, id, reason);
      calls := calls + 1;
      if result.HookKilled? {
        return Break(Killed);
      }
      links := links - {id};
      flow := HookFlow(result, PanicReason.OnLinkDied);
    }

    method OnLinkEstablished(id: ActorId) returns (flow: Flow)
      modifies this
      ensures (State(), flow) == HandleLinkEstablished(old(State()), hooks, id)
    {
      var result := hooks.onLinkEstablished(calls, id);
      calls := calls + 1;
      flow := HookFlow(result, PanicReason.OnLinkEstablished);
    }

    method OnStop() returns (flow: Flow)
      requires BufferInv(State())
      modifies this
      ensures (State(), flow) == HandleStop(old(State()), hooks)
      ensures BufferInv(State())
    {
      flow := OnStartupFinished();
      if flow.Continue? {
        flow := Break(Normal);
      }
    }

    method OnShutdownReason(reason: StopReason) returns (flow: Flow)
      modifies this
      ensures (State(), flow) == OnShutdown(old(State()), hooks, reason)
    {
      if reason.Panicked? {
        var decision := hooks.onPanic(calls, reason.why);
        calls := calls + 1;
        match decision
        case Decide(decided) => flow := decided;
        case PanicHookError => flow := Break(Panicked(OnPanic));
        case PanicHookKilled => flow := Break(Killed);
      } else {
        flow := Break(reason);
      }
    }

    /** Receives until a signal breaks the loop. */
    method Receive(mailbox: seq<Received>) returns (end: LoopEnd)
      requires BufferInv(State())
      modifies this
      ensures (State(), end) == RecvMailboxLoop(old(State()), hooks, mailbox)
      ensures BufferInv(State())
      ensures end.Ended? ==> |end.rest| < |mailbox|
    {
      LoopKeepsBufferInv(State(), hooks, mailbox);
      var rest := mailbox;
      while rest != []
        invariant BufferInv(State()) && |rest| <= |mailbox|
        invariant RecvMailboxLoop(State(), hooks, rest) == RecvMailboxLoop(old(State()), hooks, mailbox)
        decreases |rest|
      {
        SignalKeepsBufferInv(State(), hooks, rest[0]);
        var flow;
        match rest[0] {
        case None => flow := OnStop();
        case Some(StartupFinished) => flow := OnStartupFinished();
        case Some(Message(_, _)) => flow := OnMessage(rest[0].value);
        case Some(LinkDied(id, reason)) => flow := OnLinkDied(id, reason);
        case Some(LinkEstablished(id)) => flow := OnLinkEstablished(id);
        case Some(Stop) => flow := OnStop();
        }
        rest := rest[1..];
        if flow.Break? {
          return Ended(flow.reason, rest);
        }
      }
      end := Waiting;
    }

    /** The actor's whole run: a panic may be recovered from, every other reason ends it. */
    method Run(mailbox: seq<Received>, startupFinished: bool) returns (end: LoopEnd)
      requires BufferInv(State())
      modifies this
      ensures (State(), end) == AbortableActorLoop(old(State()), hooks, mailbox, startupFinished)
    {
      if startupFinished {
        var flow := OnStartupFinished();
        if flow.Break? {
          return Ended(flow.reason, mailbox);
        }
      }
      ghost var started := State();
      var rest := mailbox;
      while true
        invariant BufferInv(State())
        invariant ActorLoop(State(), hooks, rest) == ActorLoop(started, hooks, mailbox)
        decreases |rest|
      {
        end := Receive(rest);
        if end.Waiting? {
          return;
        }
        var flow := OnShutdownReason(end.reason);
        rest := end.rest;
        if flow.Break? {
          return Ended(flow.reason, rest);
        }
      }
    }
  }
}
