/** When a Stop that was taken ends the actor, for any hooks: a recovered panic can swallow it. */
module LifecycleStop {
  import opened Common
  import opened StopReasons
  import opened Lifecycle
  import opened LifecycleProofs

  predicate Quiets(r: MessageResult) {
    r == Replied(false)
  }

  /** How many of the taken messages are handled before one breaks. */
  function Calm(h: Hooks, calls: nat, taken: seq<Signal>): (k: nat)
    requires forall m :: m in taken ==> m.Message?
    ensures k <= |taken| && forall i :: 0 <= i < k ==> Quiets(Answer(h, calls, taken, i))
    ensures k < |taken| ==> !Quiets(Answer(h, calls, taken, k))
    decreases |taken|
  {
    if taken == [] || !Quiets(Answer(h, calls, taken, 0)) then 0
    else
      assert forall i :: 1 <= i < |taken| ==> Answer(h, calls, taken, i) == Answer(h, calls + 1, taken[1..], i - 1);
      Calm(h, calls + 1, taken[1..]) + 1
  }

  /** What the handler of the i-th of some taken messages answers if the ones before it all return. */
  function Answer(h: Hooks, calls: nat, taken: seq<Signal>, i: nat): MessageResult
    requires i < |taken| && forall m :: m in taken ==> m.Message?
  {
    h.onMessage(calls + i, taken[i].body)
  }

  lemma {:induction false} DrainBreaksAt(b: Behaviour, h: Hooks, taken: seq<Signal>)
    requires b.finishedStartup && forall m :: m in taken ==> m.Message?
    ensures var k := Calm(h, b.calls, taken);
      var (b1, flow) := DrainBuffer(b, h, taken);
      && b1.calls == b.calls + (if k < |taken| then k + 1 else k)
      && flow == (if k < |taken| then MessageFlow(Answer(h, b.calls, taken, k)) else Continue)
    decreases |taken|
  {
    if taken != [] && Quiets(Answer(h, b.calls, taken, 0)) {
      DrainBreaksAt(HandleMessage(b, h, taken[0]).0, h, taken[1..]);
    }
  }

  /** The first waiting message whose handler breaks does so in an error or a panic, and the panic hook resumes. */
  ghost predicate Swallows(b: Behaviour, h: Hooks)
    requires BufferInv(b)
  {
    var k := Calm(h, b.calls, b.startupBuffer);
    && k < |b.startupBuffer|
    && var result := Answer(h, b.calls, b.startupBuffer, k);
       || (result.ReplyError? && h.onPanic(b.calls + k + 1, OnMessage) == Decide(Continue))
       || (result.HandlerPanicked? && h.onPanic(b.calls + k + 1, HandlerPanic) == Decide(Continue))
  }

  predicate Stopping(stop: Received) {
    stop == None || stop == Some(Stop)
  }

  lemma StopDecides(b: Behaviour, h: Hooks, stop: Received)
    requires BufferInv(b) && Stopping(stop)
    ensures Recovered(b, h, stop).1.Continue? <==> Swallows(b, h)
    ensures Calm(h, b.calls, b.startupBuffer) == |b.startupBuffer| ==> Recovered(b, h, stop).1 == Break(Normal)
    ensures Recovered(b, h, stop).0.finishedStartup
  {
    DrainEmptiesBuffer(b.(finishedStartup := true, startupBuffer := []), h, b.startupBuffer);
    DrainBreaksAt(b.(finishedStartup := true, startupBuffer := []), h, b.startupBuffer);
  }

  /** A loop that waits goes on with whatever comes next. */
  lemma {:induction false} LoopGoesOn(b: Behaviour, h: Hooks, pre: seq<Received>, next: seq<Received>)
    requires BufferInv(b) && ActorLoop(b, h, pre).1.Waiting?
    ensures BufferInv(ActorLoop(b, h, pre).0)
    ensures ActorLoop(b, h, pre + next) == ActorLoop(ActorLoop(b, h, pre).0, h, next)
    decreases |pre|
  {
    if pre == [] {
      assert pre + next == next;
    } else {
      RecoveredStep(b, h, pre);
      RecoveredStep(b, h, pre + next);
      assert (pre + next)[1..] == pre[1..] + next;
      var (b1, flow) := Recovered(b, h, pre[0]);
      hide Recovered, ActorLoop, BufferInv;
      if flow.Continue? {
        LoopGoesOn(b1, h, pre[1..], next);
      }
    }
  }

  lemma StartedGoesOn(h: Hooks, links: set<ActorId>, pre: seq<Received>, next: seq<Received>, startupFinished: bool)
    requires AbortableActorLoop(Fresh(links), h, pre, startupFinished).1.Waiting?
    ensures var b := AbortableActorLoop(Fresh(links), h, pre, startupFinished).0;
      && BufferInv(b)
      && AbortableActorLoop(Fresh(links), h, pre + next, startupFinished) == ActorLoop(b, h, next)
  {
    var started := if startupFinished then Fresh(links).(finishedStartup := true) else Fresh(links);
    assert AbortableActorLoop(Fresh(links), h, pre, startupFinished) == ActorLoop(started, h, pre);
    assert AbortableActorLoop(Fresh(links), h, pre + next, startupFinished) == ActorLoop(started, h, pre + next);
    LoopGoesOn(started, h, pre, next);
  }

  /**
   For any hooks: a Stop that the actor takes, or the loss of its last sender, ends it there and then, leaving the
   rest unread, unless the drain of the startup buffer breaks first in an error or panic that the panic hook resumes
   from; then the actor goes on with the rest as if no Stop had come. If no waiting message breaks, the reason is
   normal.
   */
  lemma {:induction false} StopEndsExactlyWhen(
    h: Hooks, links: set<ActorId>, pre: seq<Received>, stop: Received, rest: seq<Received>, startupFinished: bool)
    requires Stopping(stop)
    requires AbortableActorLoop(Fresh(links), h, pre, startupFinished).1.Waiting?
    ensures var b := AbortableActorLoop(Fresh(links), h, pre, startupFinished).0;
      var (last, end) := AbortableActorLoop(Fresh(links), h, pre + ([stop] + rest), startupFinished);
      && BufferInv(b)
      && (end.Ended? && end.rest == rest <==> !Swallows(b, h))
      && (Calm(h, b.calls, b.startupBuffer) == |b.startupBuffer| ==> end == Ended(Normal, rest))
      && var b1 := Recovered(b, h, stop).0;
         && BufferInv(b1) && b1.finishedStartup
         && (Swallows(b, h) ==> (last, end) == ActorLoop(b1, h, rest))
  {
    StartedGoesOn(h, links, pre, [stop] + rest, startupFinished);
    var b := AbortableActorLoop(Fresh(links), h, pre, startupFinished).0;
    StopDecides(b, h, stop);
    RecoveredStep(b, h, [stop] + rest);
    assert ([stop] + rest)[1..] == rest;
    LoopLeavesSuffix(Recovered(b, h, stop).0, h, rest);
    hide AbortableActorLoop, ActorLoop, Recovered, Swallows, BufferInv;
  }

  /** A concrete run: the actor keeps waiting for messages after a Stop. */
  lemma StopIsSwallowed(body: nat, h: Hooks)
    requires h.onMessage(0, body) == HandlerPanicked && h.onPanic(1, HandlerPanic) == Decide(Continue)
    ensures AbortableActorLoop(Fresh({}), h, [Some(Message(body, false)), Some(Stop)], false).1 == Waiting
  {
    var m: Received := Some(Message(body, false));
    RecoveredStep(Fresh({}), h, [m]);
    assert [m][1..] == [];
    var b := Recovered(Fresh({}), h, m).0;
    assert ActorLoop(Fresh({}), h, [m]) == (b, Waiting);
    assert b.startupBuffer == [m.value] && b.calls == 0;
    assert Swallows(b, h);
    StopEndsExactlyWhen(h, {}, [m], Some(Stop), [], false);
    assert [m] + ([Some(Stop)] + []) == [m, Some(Stop)];
  }
}
