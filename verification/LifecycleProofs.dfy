/** What happens to every message of an actor over a whole run. */
module LifecycleProofs {
  import opened Common
  import opened StopReasons
  import opened Lifecycle

  // ---------- Reading mailboxes and logs ----------

  function MessageOf(s: Received): (ms: seq<Signal>) {
    if s.Some? && s.value.Message? then [s.value] else []
  }

  function Messages(mailbox: seq<Received>): (ms: seq<Signal>)
    ensures forall m :: m in ms ==> m.Message?
  {
    if mailbox == [] then [] else MessageOf(mailbox[0]) + Messages(mailbox[1..])
  }

  /** The messages sent from within the actor, or those from outside. */
  function Sent(within: bool, ms: seq<Signal>): (sent: seq<Signal>)
    ensures forall m :: m in sent ==> m.Message? && m.sentWithinActor == within
  {
    if ms == [] then []
    else if ms[0].Message? && ms[0].sentWithinActor == within then [ms[0]] + Sent(within, ms[1..])
    else Sent(within, ms[1..])
  }

  function Logged(log: seq<Event>): (ms: seq<Signal>)
    ensures |ms| == |log|
  {
    seq(|log|, i requires 0 <= i < |log| => log[i].message)
  }

  function HandledIn(log: seq<Event>): seq<Signal> {
    if log == [] then []
    else if log[0].Handled? then [log[0].message] + HandledIn(log[1..])
    else HandledIn(log[1..])
  }

  function DiscardedIn(log: seq<Event>): seq<Signal> {
    if log == [] then []
    else if log[0].Discarded? then [log[0].message] + DiscardedIn(log[1..])
    else DiscardedIn(log[1..])
  }

  /** What a loop took out of its mailbox. */
  function Taken(mailbox: seq<Received>, end: LoopEnd): seq<Received> {
    if end.Ended? && |end.rest| <= |mailbox| then mailbox[..|mailbox| - |end.rest|] else mailbox
  }

  lemma {:induction false} SentAppend(within: bool, one: seq<Signal>, two: seq<Signal>)
    ensures Sent(within, one + two) == Sent(within, one) + Sent(within, two)
    decreases |one|
  {
    if one == [] {
      assert one + two == two;
    } else {
      var rest := one[1..];
      SentAppend(within, rest, two);
      assert (one + two)[0] == one[0] && (one + two)[1..] == rest + two;
      var now, later := Sent(within, rest), Sent(within, two);
      assert ([one[0]] + now) + later == [one[0]] + (now + later);
    }
  }

  lemma {:induction false} MessagesAppend(one: seq<Received>, two: seq<Received>)
    ensures Messages(one + two) == Messages(one) + Messages(two)
    decreases |one|
  {
    if one == [] {
      assert one + two == two;
    } else {
      var first, rest := one[0], one[1..];
      MessagesAppend(rest, two);
      assert (one + two)[0] == first && (one + two)[1..] == rest + two;
      var now, later, last := MessageOf(first), Messages(rest), Messages(two);
      assert (now + later) + last == now + (later + last);
    }
  }

  lemma {:induction false} SentSplits(ms: seq<Signal>)
    requires forall m :: m in ms ==> m.Message?
    ensures multiset(Sent(true, ms)) + multiset(Sent(false, ms)) == multiset(ms)
    decreases |ms|
  {
    if ms != [] {
      var m, rest := ms[0], ms[1..];
      SentSplits(rest);
      assert ms == [m] + rest;
      var within := m.sentWithinActor;
      assert Sent(within, ms) == [m] + Sent(within, rest);
      assert Sent(!within, ms) == Sent(!within, rest);
    }
  }

  lemma {:induction false} LogSplits(log: seq<Event>)
    ensures multiset(HandledIn(log)) + multiset(DiscardedIn(log)) == multiset(Logged(log))
    decreases |log|
  {
    if log != [] {
      LogSplits(log[1..]);
      assert Logged(log) == [log[0].message] + Logged(log[1..]);
    }
  }

  // ---------- What one run logs ----------

  ghost predicate Handles(events: seq<Event>) {
    forall i :: 0 <= i < |events| ==> events[i].Handled?
  }

  /** What a drain logs of the messages it took: handled up to the first that breaks, all the rest discarded. */
  ghost predicate DrainLog(events: seq<Event>, taken: seq<Signal>, kept: nat) {
    && Logged(events) == taken && kept <= |taken|
    && (forall i :: 0 <= i < kept ==> events[i].Handled? && (i < kept - 1 ==> events[i].flow == Continue))
    && (forall i :: kept <= i < |taken| ==> events[i].Discarded?)
    && (kept < |taken| ==> kept > 0 && events[kept - 1].flow.Break?)
  }

  /** The signals that end the startup phase. */
  predicate Finishing(s: Received) {
    s.None? || s.value.StartupFinished? || s.value.Stop?
  }

  /** What was received before startup finished. */
  function Ahead(received: seq<Received>): (ahead: seq<Received>)
    ensures |ahead| <= |received| && ahead == received[..|ahead|]
    ensures |ahead| < |received| ==> Finishing(received[|ahead|])
    ensures forall i :: 0 <= i < |ahead| ==> !Finishing(ahead[i])
  {
    if received == [] || Finishing(received[0]) then [] else [received[0]] + Ahead(received[1..])
  }

  function After(received: seq<Received>): seq<Received> {
    if Ahead(received) == received then [] else received[|Ahead(received)| + 1..]
  }

  /** A log in three parts: before startup finished, the drain of the startup buffer, and everything later. */
  datatype Split = Split(early: seq<Event>, drained: seq<Event>, kept: nat, late: seq<Event>) {
    function Log(): seq<Event> {
      early + (drained + late)
    }
  }

  /**
   How a log and a buffer came about, from the signals received and the messages already waiting: ahead of the
   end of startup, messages from within are handled and those from outside wait; the drain handles what waits up
   to the first handler that breaks and discards exactly the rest; every later message is handled.
   */
  ghost predicate Explains(x: Split, buffer: seq<Signal>, waiting: seq<Signal>, received: seq<Received>) {
    var outside := waiting + Sent(false, Messages(Ahead(received)));
    && Handles(x.early) && Logged(x.early) == Sent(true, Messages(Ahead(received)))
    && Handles(x.late) && Logged(x.late) == Messages(After(received))
    && (if Ahead(received) == received then buffer == outside && x.drained == []
        else buffer == [] && DrainLog(x.drained, outside, x.kept))
  }

  lemma SentAtEnd(within: bool, ms: seq<Signal>, m: Signal)
    requires m.Message?
    ensures Sent(within, ms + [m]) == Sent(within, ms) + (if m.sentWithinActor == within then [m] else [])
  {
    SentAppend(within, ms, [m]);
  }

  lemma {:induction false} DrainIsExact(b: Behaviour, h: Hooks, taken: seq<Signal>)
    returns (events: seq<Event>, kept: nat)
    requires b.finishedStartup && forall m :: m in taken ==> m.Message?
    ensures DrainBuffer(b, h, taken).0.log == b.log + events && DrainLog(events, taken, kept)
    ensures kept == |taken| || DrainBuffer(b, h, taken).1.Break?
    decreases |taken|
  {
    if taken == [] {
      return [], 0;
    }
    var (b1, flow) := HandleMessage(b, h, taken[0]);
    if flow.Break? {
      events, kept := [Handled(taken[0], flow)] + Discarding(taken[1..]), 1;
    } else {
      var later, n := DrainIsExact(b1, h, taken[1..]);
      events, kept := [Handled(taken[0], flow)] + later, n + 1;
      assert taken == [taken[0]] + Logged(later);
    }
  }

  /** The two nested loops, one signal at a time. */
  lemma LoopStep(b: Behaviour, h: Hooks, mailbox: seq<Received>)
    requires BufferInv(b) && mailbox != []
    ensures BufferInv(HandleSignal(b, h, mailbox[0]).0)
    ensures ActorLoop(b, h, mailbox) ==
      var (b1, flow) := HandleSignal(b, h, mailbox[0]);
      if flow.Continue? then ActorLoop(b1, h, mailbox[1..])
      else
        var (b2, flow2) := OnShutdown(b1, h, flow.reason);
        if flow2.Break? then (b2, Ended(flow2.reason, mailbox[1..])) else ActorLoop(b2, h, mailbox[1..])
  {
    SignalKeepsBufferInv(b, h, mailbox[0]);
  }

  /** Handling one signal, a panic recovered from included. */
  function Recovered(b: Behaviour, h: Hooks, s: Received): (Behaviour, Flow)
    requires BufferInv(b)
  {
    var (b1, flow) := HandleSignal(b, h, s);
    if flow.Break? then OnShutdown(b1, h, flow.reason) else (b1, flow)
  }

  lemma RecoveredStep(b: Behaviour, h: Hooks, mailbox: seq<Received>)
    requires BufferInv(b) && mailbox != []
    ensures var (b1, flow) := Recovered(b, h, mailbox[0]);
      && BufferInv(b1)
      && ActorLoop(b, h, mailbox) ==
         if flow.Break? then (b1, Ended(flow.reason, mailbox[1..])) else ActorLoop(b1, h, mailbox[1..])
  {
    LoopStep(b, h, mailbox);
  }

  lemma {:induction false} LoopLeavesSuffix(b: Behaviour, h: Hooks, mailbox: seq<Received>)
    requires BufferInv(b)
    ensures var end := ActorLoop(b, h, mailbox).1;
      end.Ended? ==> |end.rest| < |mailbox| && end.rest == mailbox[|mailbox| - |end.rest|..]
    ensures BufferInv(ActorLoop(b, h, mailbox).0)
    decreases |mailbox|
  {
    if mailbox != [] {
      RecoveredStep(b, h, mailbox);
      var (b1, flow) := Recovered(b, h, mailbox[0]);
      hide Recovered, ActorLoop, BufferInv;
      if flow.Continue? {
        LoopLeavesSuffix(b1, h, mailbox[1..]);
      }
    }
  }

  /** After a signal the loop either ends with it, or takes what it takes of the rest. */
  lemma TakenStep(b: Behaviour, h: Hooks, mailbox: seq<Received>)
    requires BufferInv(b) && mailbox != []
    ensures var (b1, flow) := Recovered(b, h, mailbox[0]);
      var (last, end) := ActorLoop(b, h, mailbox);
      && BufferInv(b1)
      && if flow.Break? then last == b1 && Taken(mailbox, end) == [mailbox[0]] + []
         else (last, end) == ActorLoop(b1, h, mailbox[1..])
              && Taken(mailbox, end) == [mailbox[0]] + Taken(mailbox[1..], end)
  {
    RecoveredStep(b, h, mailbox);
    var (b1, flow) := Recovered(b, h, mailbox[0]);
    hide Recovered, ActorLoop, BufferInv;
    if flow.Continue? {
      LoopLeavesSuffix(b1, h, mailbox[1..]);
    }
  }

  /** What one signal does once startup finished. */
  lemma LaterSignal(b: Behaviour, h: Hooks, s: Received) returns (events: seq<Event>)
    requires BufferInv(b) && b.finishedStartup
    ensures var b1 := Recovered(b, h, s).0;
      && b1.finishedStartup && b1.startupBuffer == []
      && b1.log == b.log + events && Handles(events) && Logged(events) == MessageOf(s)
  {
    events := if MessageOf(s) == [] then [] else [Handled(s.value, HandleSignal(b, h, s).1)];
  }

  /** Once startup finished nothing is discarded or buffered: each message taken is handled, in mailbox order. */
  lemma {:induction false} LaterAllHandled(b: Behaviour, h: Hooks, mailbox: seq<Received>) returns (events: seq<Event>)
    requires BufferInv(b) && b.finishedStartup
    ensures var (b1, end) := ActorLoop(b, h, mailbox);
      && b1.finishedStartup && b1.startupBuffer == []
      && b1.log == b.log + events && Handles(events) && Logged(events) == Messages(Taken(mailbox, end))
    decreases |mailbox|
  {
    events := [];
    if mailbox != [] {
      TakenStep(b, h, mailbox);
      var (b1, flow) := Recovered(b, h, mailbox[0]);
      var now := LaterSignal(b, h, mailbox[0]);
      hide Recovered, ActorLoop, BufferInv, Taken;
      var later: seq<Event> := [];
      if flow.Continue? {
        later := LaterAllHandled(b1, h, mailbox[1..]);
      }
      events := now + later;
      LoggedAppend(now, later);
      HandlesAppend(now, later);
      SameTail(b.log, now, later);
      hide Handles, Logged, MessageOf;
    }
  }

  /** What one signal does before startup finished. */
  lemma EarlySignal(b: Behaviour, h: Hooks, s: Received) returns (events: seq<Event>)
    requires BufferInv(b) && !b.finishedStartup && !Finishing(s)
    ensures var b1 := Recovered(b, h, s).0;
      && !b1.finishedStartup
      && b1.startupBuffer == b.startupBuffer + Sent(false, MessageOf(s))
      && b1.log == b.log + events && Handles(events) && Logged(events) == Sent(true, MessageOf(s))
  {
    events := [];
    if s.value.Message? {
      SentAtEnd(true, [], s.value);
      SentAtEnd(false, [], s.value);
      assert [] + [s.value] == [s.value];
      if s.value.sentWithinActor {
        events := [Handled(s.value, HandleSignal(b, h, s).1)];
      }
    }
  }

  /** What the signal that ends startup does: it drains the buffer. */
  lemma FinishingSignal(b: Behaviour, h: Hooks, s: Received) returns (events: seq<Event>, kept: nat)
    requires BufferInv(b) && !b.finishedStartup && Finishing(s)
    ensures var b1 := Recovered(b, h, s).0;
      && b1.finishedStartup && b1.startupBuffer == []
      && b1.log == b.log + events && DrainLog(events, b.startupBuffer, kept)
  {
    var started := b.(finishedStartup := true, startupBuffer := []);
    events, kept := DrainIsExact(started, h, b.startupBuffer);
    DrainEmptiesBuffer(started, h, b.startupBuffer);
    hide DrainBuffer, DrainLog;
  }

  lemma ExplainFinish(x: Split, waiting: seq<Signal>, s: Received, later: seq<Received>)
    requires Finishing(s) && x.early == [] && DrainLog(x.drained, waiting, x.kept)
    requires Handles(x.late) && Logged(x.late) == Messages(later)
    ensures Explains(x, [], waiting, [s] + later)
  {
    assert Handles(x.early);
    hide DrainLog, Handles;
    assert ([s] + later)[1..] == later;
    assert Ahead([s] + later) == [] && After([s] + later) == later;
    assert waiting + [] == waiting;
  }

  /** The signal that ends startup drains the buffer, whatever the drain ends in. */
  lemma FinishExplained(b: Behaviour, h: Hooks, mailbox: seq<Received>) returns (x: Split)
    requires BufferInv(b) && !b.finishedStartup && mailbox != [] && Finishing(mailbox[0])
    ensures var (b1, end) := ActorLoop(b, h, mailbox);
      b1.log == b.log + x.Log() && Explains(x, b1.startupBuffer, b.startupBuffer, Taken(mailbox, end))
  {
    TakenStep(b, h, mailbox);
    var (b1, flow) := Recovered(b, h, mailbox[0]);
    var events, kept := FinishingSignal(b, h, mailbox[0]);
    hide Recovered, ActorLoop, BufferInv, Taken, DrainLog, Explains;
    var later: seq<Event> := [];
    assert Handles(later);
    hide Handles;
    var received: seq<Received> := [];
    if flow.Continue? {
      later := LaterAllHandled(b1, h, mailbox[1..]);
      received := Taken(mailbox[1..], ActorLoop(b1, h, mailbox[1..]).1);
    }
    x := Split([], events, kept, later);
    ExplainFinish(x, b.startupBuffer, mailbox[0], received);
    FinishLog(b.log, x);
  }

  lemma FinishLog(log: seq<Event>, x: Split)
    requires x.early == []
    ensures log + x.Log() == log + x.drained + x.late
  {
    assert x.early + (x.drained + x.late) == x.drained + x.late;
  }

  lemma AheadOneMore(s: Received, received: seq<Received>)
    requires !Finishing(s)
    ensures Ahead([s] + received) == [s] + Ahead(received) && After([s] + received) == After(received)
    ensures Messages([s] + Ahead(received)) == MessageOf(s) + Messages(Ahead(received))
    ensures Ahead([s] + received) == [s] + received <==> Ahead(received) == received
  {
    assert ([s] + received)[1..] == received;
    assert ([s] + Ahead(received))[1..] == Ahead(received);
    assert Ahead(received) == received <==> |Ahead(received)| == |received|;
  }

  lemma LoggedAppend(one: seq<Event>, two: seq<Event>)
    ensures Logged(one + two) == Logged(one) + Logged(two)
  {
  }

  lemma HandlesAppend(one: seq<Event>, two: seq<Event>)
    requires Handles(one) && Handles(two)
    ensures Handles(one + two)
  {
  }

  lemma OneMoreAhead(
    x: Split, now: seq<Event>, buffer: seq<Signal>, waiting: seq<Signal>, s: Received, received: seq<Received>)
    requires !Finishing(s) && Handles(now) && Logged(now) == Sent(true, MessageOf(s))
    requires Explains(x, buffer, waiting + Sent(false, MessageOf(s)), received)
    ensures Explains(x.(early := now + x.early), buffer, waiting, [s] + received)
  {
    AheadOneMore(s, received);
    var ms, later := MessageOf(s), Messages(Ahead(received));
    SentAppend(true, ms, later);
    SentAppend(false, ms, later);
    LoggedAppend(now, x.early);
    HandlesAppend(now, x.early);
    hide Ahead, After, Messages, MessageOf, Sent, DrainLog, Logged, Handles, Finishing;
    SameTail(waiting, Sent(false, ms), Sent(false, later));
    assert Messages(Ahead([s] + received)) == ms + later;
    assert Sent(false, ms + later) == Sent(false, ms) + Sent(false, later);
    assert Logged(now + x.early) == Sent(true, ms + later);
  }

  lemma SameTail<T>(one: seq<T>, two: seq<T>, three: seq<T>)
    ensures (one + two) + three == one + (two + three)
  {
  }

  /** The log of any run that starts before startup finished. */
  lemma {:induction false} LoopExplained(b: Behaviour, h: Hooks, mailbox: seq<Received>) returns (x: Split)
    requires BufferInv(b) && !b.finishedStartup
    ensures var (b1, end) := ActorLoop(b, h, mailbox);
      b1.log == b.log + x.Log() && Explains(x, b1.startupBuffer, b.startupBuffer, Taken(mailbox, end))
    decreases |mailbox|
  {
    if mailbox == [] {
      x := NothingExplained(b.startupBuffer);
      return;
    }
    if Finishing(mailbox[0]) {
      x := FinishExplained(b, h, mailbox);
      return;
    }
    TakenStep(b, h, mailbox);
    var (b1, flow) := Recovered(b, h, mailbox[0]);
    var now := EarlySignal(b, h, mailbox[0]);
    hide Recovered, ActorLoop, BufferInv, Taken, Explains, Handles, Messages, Sent;
    var later;
    var received: seq<Received> := [];
    if flow.Continue? {
      later := LoopExplained(b1, h, mailbox[1..]);
      received := Taken(mailbox[1..], ActorLoop(b1, h, mailbox[1..]).1);
    } else {
      later := NothingExplained(b1.startupBuffer);
    }
    OneMoreAhead(later, now, ActorLoop(b, h, mailbox).0.startupBuffer, b.startupBuffer, mailbox[0], received);
    x := later.(early := now + later.early);
    LogGrows(b.log, now, later);
  }

  lemma LogGrows(log: seq<Event>, now: seq<Event>, x: Split)
    ensures log + x.(early := now + x.early).Log() == log + now + x.Log()
  {
    assert now + x.early + (x.drained + x.late) == now + x.Log();
  }

  lemma NothingExplained(waiting: seq<Signal>) returns (x: Split)
    ensures x.Log() == [] && Explains(x, waiting, waiting, [])
  {
    x := Split([], [], 0, []);
    assert waiting + [] == waiting;
  }

  // ---------- Conservation ----------

  lemma {:induction false} SentTwice(within: bool, again: bool, ms: seq<Signal>)
    ensures Sent(again, Sent(within, ms)) == if again == within then Sent(within, ms) else []
    decreases |ms|
  {
    if ms != [] {
      SentTwice(within, again, ms[1..]);
    }
  }

  lemma {:induction false} ExternalOnly(ms: seq<Signal>)
    requires forall m :: m in ms ==> m.Message? && !m.sentWithinActor
    ensures Sent(false, ms) == ms && Sent(true, ms) == []
    decreases |ms|
  {
    if ms != [] {
      ExternalOnly(ms[1..]);
    }
  }

  lemma {:induction false} AheadAndAfter(received: seq<Received>)
    ensures Messages(received) == Messages(Ahead(received)) + Messages(After(received))
    decreases |received|
  {
    if received != [] {
      var s, rest := received[0], received[1..];
      assert received == [s] + rest;
      if Finishing(s) {
        assert Ahead(received) == [] && After(received) == rest;
      } else {
        AheadAndAfter(rest);
        AheadOneMore(s, rest);
      }
    }
  }

  lemma LoggedParts(x: Split)
    ensures Logged(x.Log()) == Logged(x.early) + (Logged(x.drained) + Logged(x.late))
  {
    LoggedAppend(x.drained, x.late);
    LoggedAppend(x.early, x.drained + x.late);
  }

  /** An explained log holds what was received, each side in order. */
  lemma ExplainedConserves(x: Split, buffer: seq<Signal>, received: seq<Received>, within: bool)
    requires Explains(x, buffer, [], received)
    ensures Sent(within, Logged(x.Log())) + Sent(within, buffer) == Sent(within, Messages(received))
    ensures forall m :: m in Logged(x.Log()) ==> m.Message?
  {
    var ahead, late := Messages(Ahead(received)), Messages(After(received));
    assert Logged(x.drained) == if Ahead(received) == received then [] else Sent(false, ahead) by {
      assert [] + Sent(false, ahead) == Sent(false, ahead);
    }
    assert buffer == if Ahead(received) == received then Sent(false, ahead) else [] by {
      assert [] + Sent(false, ahead) == Sent(false, ahead);
    }
    assert Logged(x.early) == Sent(true, ahead) && Logged(x.late) == late;
    LoggedParts(x);
    assert Ahead(received) == received ==> late == [];
    AheadAndAfter(received);
    hide Ahead, After, Handles, DrainLog, Explains, Messages;
    PartsConserve(ahead, late, Logged(x.drained), buffer, within);
  }

  lemma SentNothing(within: bool)
    ensures Sent(within, []) == []
  {
  }

  lemma PartsConserve(
    ahead: seq<Signal>, late: seq<Signal>, drained: seq<Signal>, buffer: seq<Signal>, within: bool)
    requires (drained == Sent(false, ahead) && buffer == []) || (drained == late == [] && buffer == Sent(false, ahead))
    ensures Sent(within, Sent(true, ahead) + (drained + late)) + Sent(within, buffer) == Sent(within, ahead + late)
  {
    var inside, outside := Sent(true, ahead), Sent(false, ahead);
    SentTwice(true, within, ahead);
    SentTwice(false, within, ahead);
    SentAppend(within, ahead, late);
    SentAppend(within, inside, drained + late);
    SentAppend(within, drained, late);
    hide Sent;
    if buffer == [] {
      assert Sent(within, buffer) == [] by { SentNothing(within); }
    } else {
      assert drained + late == [];
      SentNothing(within);
    }
  }

  /** Received messages are handled, discarded or still buffered, none twice, and each side keeps its order. */
  ghost predicate Conserves(b: Behaviour, received: seq<Signal>) {
    && multiset(HandledIn(b.log)) + multiset(DiscardedIn(b.log)) + multiset(b.startupBuffer) == multiset(received)
    && Sent(false, Logged(b.log)) + b.startupBuffer == Sent(false, received)
    && Sent(true, Logged(b.log)) == Sent(true, received)
    && BufferInv(b)
  }

  /** The log in full. A run that skipped the startup phase handles everything, in mailbox order. */
  ghost predicate LogExplained(b: Behaviour, received: seq<Received>, startupFinished: bool) {
    if startupFinished then Handles(b.log) && Logged(b.log) == Messages(received) && b.startupBuffer == []
    else exists x :: Explains(x, b.startupBuffer, [], received) && x.Log() == b.log
  }

  lemma SplitsAsMultisets(log: seq<Event>, buffer: seq<Signal>, received: seq<Signal>)
    requires forall m :: m in Logged(log) || m in received ==> m.Message?
    requires Sent(false, Logged(log)) + buffer == Sent(false, received)
    requires Sent(true, Logged(log)) == Sent(true, received)
    ensures multiset(HandledIn(log)) + multiset(DiscardedIn(log)) + multiset(buffer) == multiset(received)
  {
    hide *;
    LogSplits(log);
    SentSplits(received);
    SentSplits(Logged(log));
    AddUp(multiset(HandledIn(log)), multiset(DiscardedIn(log)),
          Sent(true, Logged(log)), Sent(false, Logged(log)), buffer);
  }

  lemma AddUp(
    handled: multiset<Signal>, discarded: multiset<Signal>,
    within: seq<Signal>, outside: seq<Signal>, buffer: seq<Signal>)
    requires handled + discarded == multiset(within) + multiset(outside)
    ensures handled + discarded + multiset(buffer) == multiset(within) + multiset(outside + buffer)
  {
  }

  /**
   Message conservation, for any hooks and any signals. What was received is exactly what was handled, is still
   buffered or was discarded, no message twice, and each side keeps its order. The log is explained in full: a
   message is discarded only if it was in the startup buffer when the one drain of that buffer began and a handler
   broke ahead of it there, and then the whole tail behind that handler is.
   */
  lemma {:induction false} MessagesAreConserved(
    h: Hooks, links: set<ActorId>, mailbox: seq<Received>, startupFinished: bool)
    ensures var (b, end) := AbortableActorLoop(Fresh(links), h, mailbox, startupFinished);
      Conserves(b, Messages(Taken(mailbox, end))) && LogExplained(b, Taken(mailbox, end), startupFinished)
  {
    var (b, end) := AbortableActorLoop(Fresh(links), h, mailbox, startupFinished);
    var received := Messages(Taken(mailbox, end));
    if startupFinished {
      var started := Fresh(links).(finishedStartup := true);
      LoopLeavesSuffix(started, h, mailbox);
      var log := LaterAllHandled(started, h, mailbox);
      assert b.log == log;
    } else {
      LoopLeavesSuffix(Fresh(links), h, mailbox);
      var x := LoopExplained(Fresh(links), h, mailbox);
      assert x.Log() == b.log;
      ExplainedConserves(x, b.startupBuffer, Taken(mailbox, end), true);
      ExplainedConserves(x, b.startupBuffer, Taken(mailbox, end), false);
      ExternalOnly(b.startupBuffer);
    }
    SplitsAsMultisets(b.log, b.startupBuffer, received);
  }
}
