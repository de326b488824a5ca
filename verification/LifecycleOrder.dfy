/** The order in which messages are handled around startup, and what a graceful stop guarantees. */
module LifecycleOrder {
  import opened Common
  import opened StopReasons
  import opened Lifecycle
  import opened LifecycleProofs

  /** The first n hook calls all let the actor continue. */
  ghost predicate QuietUntil(h: Hooks, n: nat) {
    && (forall k, body :: 0 <= k < n ==> h.onMessage(k, body) == Replied(false))
    && (forall k, id, reason :: 0 <= k < n ==> h.onLinkDied(k, id, reason) == Decided(Continue))
    && (forall k, id :: 0 <= k < n ==> h.onLinkEstablished(k, id) == Decided(Continue))
  }

  predicate Ordinary(s: Received) {
    s.Some? && !s.value.StartupFinished? && !s.value.Stop?
  }

  function AllHandled(ms: seq<Signal>): seq<Event> {
    seq(|ms|, i requires 0 <= i < |ms| => Handled(ms[i], Continue))
  }

  /** An upper bound on the hook calls made once the buffer is drained. */
  function Pending(b: Behaviour): nat {
    b.calls + |b.startupBuffer|
  }

  lemma {:induction false} QuietDrain(b: Behaviour, h: Hooks, taken: seq<Signal>)
    requires b.finishedStartup && b.startupBuffer == []
    requires forall m :: m in taken ==> m.Message?
    requires QuietUntil(h, b.calls + |taken|)
    ensures DrainBuffer(b, h, taken) ==
      (b.(calls := b.calls + |taken|, log := b.log + AllHandled(taken)), Continue)
    decreases |taken|
  {
    if taken == [] {
      assert b.log + AllHandled(taken) == b.log;
    } else {
      assert h.onMessage(b.calls, taken[0].body) == Replied(false);
      var b1 := HandleMessage(b, h, taken[0]).0;
      QuietDrain(b1, h, taken[1..]);
      assert b1.log + AllHandled(taken[1..]) == b.log + AllHandled(taken);
    }
  }

  /** A quiet startup drain handles the whole buffer, in order. */
  lemma QuietStartup(b: Behaviour, h: Hooks)
    requires BufferInv(b) && QuietUntil(h, Pending(b))
    ensures HandleStartupFinished(b, h) ==
      (b.(finishedStartup := true, startupBuffer := [], calls := Pending(b),
          log := b.log + AllHandled(b.startupBuffer)),
       Continue)
  {
    QuietDrain(b.(finishedStartup := true, startupBuffer := []), h, b.startupBuffer);
  }

  lemma QuietSignal(b: Behaviour, h: Hooks, s: Received)
    requires BufferInv(b) && Ordinary(s) && QuietUntil(h, Pending(b) + 1)
    ensures var (b1, flow) := HandleSignal(b, h, s);
      && flow == Continue && BufferInv(b1) && Pending(b1) <= Pending(b) + 1
      && b1.finishedStartup == b.finishedStartup
      && b1.startupBuffer == b.startupBuffer + (if b.finishedStartup then [] else Sent(false, MessageOf(s)))
      && b1.log == b.log + AllHandled(if b.finishedStartup then MessageOf(s) else Sent(true, MessageOf(s)))
  {
    if s.value.Message? {
      SentAtEnd(true, [], s.value);
      SentAtEnd(false, [], s.value);
      assert [] + [s.value] == [s.value];
    }
  }

  lemma HandledAppend(log: seq<Event>, one: seq<Signal>, two: seq<Signal>)
    ensures (log + AllHandled(one)) + AllHandled(two) == log + AllHandled(one + two)
  {
  }

  /** Handling signals one after the other, ignoring what they decide. */
  ghost function AfterSignals(b: Behaviour, h: Hooks, signals: seq<Received>): (b1: Behaviour)
    requires BufferInv(b)
    ensures BufferInv(b1)
    decreases |signals|
  {
    if signals == [] then b
    else
      SignalKeepsBufferInv(b, h, signals[0]);
      AfterSignals(HandleSignal(b, h, signals[0]).0, h, signals[1..])
  }

  ghost predicate Quiet(log: seq<Event>) {
    forall e :: e in log ==> e.Handled? && e.flow == Continue
  }

  /** As long as no hook breaks and nobody asks to stop, the loop just goes on. */
  lemma {:induction false} QuietPrefix(b: Behaviour, h: Hooks, pre: seq<Received>, rest: seq<Received>)
    requires BufferInv(b)
    requires forall s :: s in pre ==> s.Some? && !s.value.Stop?
    requires QuietUntil(h, Pending(b) + |pre|)
    ensures var b1 := AfterSignals(b, h, pre);
      && Pending(b1) <= Pending(b) + |pre|
      && (Quiet(b.log) ==> Quiet(b1.log))
      && ActorLoop(b, h, pre + rest) == ActorLoop(b1, h, rest)
    decreases |pre|
  {
    if pre == [] {
      assert pre + rest == rest;
    } else {
      LoopStep(b, h, pre + rest);
      assert (pre + rest)[1..] == pre[1..] + rest;
      if pre[0].value.StartupFinished? {
        QuietStartup(b, h);
      } else {
        QuietSignal(b, h, pre[0]);
      }
      QuietPrefix(HandleSignal(b, h, pre[0]).0, h, pre[1..], rest);
    }
  }

  /** What startup's first half does with some messages: those from within are handled, the rest wait. */
  ghost predicate Buffered(b: Behaviour, b1: Behaviour, ms: seq<Signal>) {
    && !b1.finishedStartup
    && b1.startupBuffer == b.startupBuffer + Sent(false, ms)
    && b1.log == b.log + AllHandled(Sent(true, ms))
  }

  lemma BufferedCompose(b: Behaviour, mid: Behaviour, b1: Behaviour, now: seq<Signal>, later: seq<Signal>)
    requires Buffered(b, mid, now) && Buffered(mid, b1, later)
    ensures Buffered(b, b1, now + later)
  {
    SentAppend(true, now, later);
    SentAppend(false, now, later);
    HandledAppend(b.log, Sent(true, now), Sent(true, later));
  }

  lemma {:induction false} BeforeStartup(b: Behaviour, h: Hooks, pre: seq<Received>)
    requires BufferInv(b) && !b.finishedStartup
    requires forall s :: s in pre ==> Ordinary(s)
    requires QuietUntil(h, Pending(b) + |pre|)
    ensures Buffered(b, AfterSignals(b, h, pre), Messages(pre))
    decreases |pre|
  {
    if pre != [] {
      QuietSignal(b, h, pre[0]);
      var mid := HandleSignal(b, h, pre[0]).0;
      BeforeStartup(mid, h, pre[1..]);
      BufferedCompose(b, mid, AfterSignals(mid, h, pre[1..]), MessageOf(pre[0]), Messages(pre[1..]));
    }
  }

  /** After startup finished: every message is handled as it comes. */
  lemma {:induction false} AfterStartup(b: Behaviour, h: Hooks, post: seq<Received>)
    requires BufferInv(b) && b.finishedStartup
    requires forall s :: s in post ==> Ordinary(s)
    requires QuietUntil(h, Pending(b) + |post|)
    ensures var b1 := AfterSignals(b, h, post);
      b1.finishedStartup && b1.log == b.log + AllHandled(Messages(post))
    ensures ActorLoop(b, h, post) == (AfterSignals(b, h, post), Waiting)
    decreases |post|
  {
    if post != [] {
      LoopStep(b, h, post);
      QuietSignal(b, h, post[0]);
      AfterStartup(HandleSignal(b, h, post[0]).0, h, post[1..]);
      HandledAppend(b.log, MessageOf(post[0]), Messages(post[1..]));
    }
  }

  /** From any startup state: the buffer is handled when startup finishes, then everything as it comes. */
  lemma FinishStartup(b: Behaviour, h: Hooks, post: seq<Received>)
    requires BufferInv(b)
    requires forall s :: s in post ==> Ordinary(s)
    requires QuietUntil(h, Pending(b) + |post|)
    ensures var (b1, end) := ActorLoop(b, h, [Some(StartupFinished)] + post);
      && end == Waiting && b1.startupBuffer == []
      && b1.log == b.log + AllHandled(b.startupBuffer) + AllHandled(Messages(post))
  {
    var mailbox := [Some(StartupFinished)] + post;
    LoopStep(b, h, mailbox);
    QuietStartup(b, h);
    assert mailbox[1..] == post;
    AfterStartup(HandleStartupFinished(b, h).0, h, post);
  }

  /** Startup stably partitions what was queued ahead of it: from within first, then from outside. */
  lemma {:induction false} StartupOrder(h: Hooks, links: set<ActorId>, pre: seq<Received>, post: seq<Received>)
    requires forall s :: s in pre || s in post ==> Ordinary(s)
    requires QuietUntil(h, |pre| + |post|)
    ensures var (b, end) := AbortableActorLoop(Fresh(links), h, pre + [Some(StartupFinished)] + post, false);
      && end == Waiting && b.startupBuffer == []
      && b.log == AllHandled(Sent(true, Messages(pre)) + Sent(false, Messages(pre)) + Messages(post))
  {
    var tail := [Some(StartupFinished)] + post;
    assert pre + [Some(StartupFinished)] + post == pre + tail;
    QuietPrefix(Fresh(links), h, pre, tail);
    BeforeStartup(Fresh(links), h, pre);
    var b1 := AfterSignals(Fresh(links), h, pre);
    assert b1.startupBuffer == Sent(false, Messages(pre));
    assert b1.log == AllHandled(Sent(true, Messages(pre)));
    FinishStartup(b1, h, post);
    ThreePhases(Sent(true, Messages(pre)), Sent(false, Messages(pre)), Messages(post));
  }

  lemma ThreePhases(one: seq<Signal>, two: seq<Signal>, three: seq<Signal>)
    ensures AllHandled(one) + AllHandled(two) + AllHandled(three) == AllHandled(one + two + three)
  {
  }

  /** When the startup signal found the mailbox full, messages are handled in plain mailbox order. */
  lemma {:induction false} FullMailboxOrder(h: Hooks, links: set<ActorId>, mailbox: seq<Received>)
    requires forall s :: s in mailbox ==> Ordinary(s)
    requires QuietUntil(h, |mailbox|)
    ensures var (b, end) := AbortableActorLoop(Fresh(links), h, mailbox, true);
      end == Waiting && b.startupBuffer == [] && b.log == AllHandled(Messages(mailbox))
  {
    QuietStartup(Fresh(links), h);
    AfterStartup(HandleStartupFinished(Fresh(links), h).0, h, mailbox);
    assert [] + AllHandled(Messages(mailbox)) == AllHandled(Messages(mailbox));
  }

  // ---------- Graceful stop ----------

  lemma StopEndsTheLoop(b: Behaviour, h: Hooks, pre: seq<Received>, stop: Received, rest: seq<Received>)
    requires BufferInv(b) && Quiet(b.log)
    requires forall s :: s in pre ==> s.Some? && !s.value.Stop?
    requires stop == None || stop == Some(Stop)
    requires QuietUntil(h, Pending(b) + |pre|)
    ensures var (b1, end) := ActorLoop(b, h, pre + [stop] + rest);
      end == Ended(Normal, rest) && b1.startupBuffer == [] && Quiet(b1.log)
  {
    var tail := [stop] + rest;
    assert pre + [stop] + rest == pre + tail;
    QuietPrefix(b, h, pre, tail);
    var b1 := AfterSignals(b, h, pre);
    LoopStep(b1, h, tail);
    QuietStartup(b1, h);
    assert tail[1..] == rest;
  }

  /**
   Graceful stop: when Stop is taken, or the last sender is gone, even before startup finished or after a full
   mailbox skipped the startup phase, every message queued ahead was handled exactly once, in order on either
   side, none queued behind it is ever handled, nothing stays buffered or is dropped, and the reason is normal.
   */
  lemma {:induction false} GracefulStop(
    h: Hooks, links: set<ActorId>, pre: seq<Received>, stop: Received, rest: seq<Received>, startupFinished: bool)
    requires forall s :: s in pre ==> s.Some? && !s.value.Stop?
    requires stop == None || stop == Some(Stop)
    requires QuietUntil(h, |pre|)
    ensures var (b, end) := AbortableActorLoop(Fresh(links), h, pre + [stop] + rest, startupFinished);
      && end == Ended(Normal, rest) && b.startupBuffer == [] && Quiet(b.log)
      && multiset(HandledIn(b.log)) == multiset(Messages(pre))
      && (forall within :: Sent(within, Logged(b.log)) == Sent(within, Messages(pre)))
      && (startupFinished ==> Logged(b.log) == Messages(pre))
  {
    var mailbox := pre + [stop] + rest;
    var (b, end) := AbortableActorLoop(Fresh(links), h, mailbox, startupFinished);
    var started := if startupFinished then Fresh(links).(finishedStartup := true) else Fresh(links);
    StopEndsTheLoop(started, h, pre, stop, rest);
    MessagesAreConserved(h, links, mailbox, startupFinished);
    TakenBeforeStop(pre, stop, rest);
    hide AbortableActorLoop, Taken, Messages, Explains, Conserves, Quiet;
    QuietConserves(b, Messages(pre));
  }

  /** A run that broke nowhere handled all it received, and in order on either side. */
  lemma QuietConserves(b: Behaviour, received: seq<Signal>)
    requires Conserves(b, received) && b.startupBuffer == [] && Quiet(b.log)
    ensures multiset(HandledIn(b.log)) == multiset(received)
    ensures forall within :: Sent(within, Logged(b.log)) == Sent(within, received)
  {
    QuietDiscardsNothing(b.log);
    forall within ensures Sent(within, Logged(b.log)) == Sent(within, received) {
      assert within == true || within == false;
    }
  }

  lemma TakenBeforeStop(pre: seq<Received>, stop: Received, rest: seq<Received>)
    requires stop == None || stop == Some(Stop)
    ensures Messages(Taken(pre + [stop] + rest, Ended(Normal, rest))) == Messages(pre)
  {
    assert Taken(pre + [stop] + rest, Ended(Normal, rest)) == pre + [stop];
    MessagesAppend(pre, [stop]);
    assert Messages([stop]) == [];
  }

  lemma {:induction false} QuietDiscardsNothing(log: seq<Event>)
    requires Quiet(log)
    ensures DiscardedIn(log) == []
    decreases |log|
  {
    if log != [] {
      assert log[0] in log;
      QuietDiscardsNothing(log[1..]);
    }
  }
}
