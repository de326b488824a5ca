/**
 What a refused dispatch does to the pool and to whoever asked: the pool's handler as one message of its actor
 (actors/src/pool.rs, src/message.rs, src/actor/kind.rs).
 */
module PoolRefusal {
  import opened Common
  import opened StopReasons
  import opened Pool
  import Replies
  import opened Lifecycle
  import LifecycleProofs
  import LifecycleStop

  /** A worker's reply is a marker, or the error of the send. It is never converted to a value. */
  function ReplyOf(reply: WorkerReply): Replies.Reply {
    match reply
    case Forwarded => Replies.Forwarded(None)
    case ActorNotRunning(msg) => Replies.Forwarded(Some(Replies.ActorNotRunning(msg)))
  }

  /** The handler takes the reply sender before it tries any worker. */
  function Context(job: Job): Replies.Context {
    Replies.Run(Replies.NewContext(job.tx, false), [Replies.TakeReplySender])
  }

  function HandleDispatch(ws: seq<Worker>, job: Job): (Replies.Context, Replies.Ending) {
    Replies.Finish(Context(job), Replies.Returned(ReplyOf(Dispatched(ws, job.msg, job.tx).1)))
  }

  /** What the actor sees of a message's end. */
  function ResultOf(c: Replies.Context, ending: Replies.Ending): MessageResult {
    match ending
    case Done => Replied(c.stop)
    case Unanswered(_) => ReplyError
    case HandlerPanicked => MessageResult.HandlerPanicked
    case ConversionPanicked => MessageResult.HandlerPanicked
    case HandlerKilled => MessageResult.HandlerKilled
  }

  function DispatchResult(ws: seq<Worker>, job: Job): MessageResult {
    var (c, ending) := HandleDispatch(ws, job);
    ResultOf(c, ending)
  }

  lemma ContextIsEmpty(job: Job)
    ensures Context(job).reply.None? && !Context(job).stop
    ensures Context(job).fates == match job.tx case None => [] case Some(tx) => [Replies.Fate(tx, Replies.HandedOut)]
  {
    var ops, context := [Replies.TakeReplySender], Replies.NewContext(job.tx, false);
    assert ops[..0] == [] && Replies.Run(context, ops[..0]) == context;
  }

  /** A dispatch is either forwarded quietly or refused with an error that nobody is told. */
  lemma DispatchDecides(ws: seq<Worker>, job: Job)
    ensures DispatchResult(ws, job) ==
      if Dispatched(ws, job.msg, job.tx).1.Forwarded? then Replied(false) else ReplyError
  {
    ContextIsEmpty(job);
    hide Context, Dispatched;
  }

  /**
   Whoever asks through the pool: the handler holds the sender when it returns, and passes it on to a worker exactly
   if the dispatch is not refused. A refusal leaves it in no queue, so that it is dropped and the asker never answered.
   */
  lemma {:induction false} RefusalLosesTheAsker(ws: seq<Worker>, msg: Message, tx: Sender)
    requires forall i, job :: 0 <= i < |ws| && job in ws[i].jobs ==> job.tx != Some(tx)
    ensures var ws1 := Dispatched(ws, msg, Some(tx)).0;
      var (c, ending) := HandleDispatch(ws, Job(msg, Some(tx)));
      && c.fates == [Replies.Fate(tx, Replies.HandedOut)]
      && ((exists i, job :: 0 <= i < |ws1| && job in ws1[i].jobs && job.tx == Some(tx)) <==> !ending.Unanswered?)
  {
    var job := Job(msg, Some(tx));
    ContextIsEmpty(job);
    if Dispatched(ws, msg, Some(tx)).1.Forwarded? {
      var i := NextWorker(ws);
      assert job in Give(ws, i, job)[i].jobs;
    }
    hide Context;
  }

  // ---------- The pool as an actor ----------

  /** The signals that tell the pool of a step. Workers finish jobs and stop without telling it. */
  function Signals(op: Op, within: bool, why: StopReason): seq<Received> {
    match op
    case Dispatch(msg, _) => [Some(Message(msg, within))]
    case Broadcast(msg) => [Some(Message(msg, within))]
    case LinkDied(id, _) => [Some(Signal.LinkDied(id, why))]
    case _ => []
  }

  function Mailbox(ops: seq<Op>, within: bool, why: StopReason): seq<Received>
    decreases |ops|
  {
    if ops == [] then []
    else Mailbox(ops[..|ops| - 1], within, why) + Signals(ops[|ops| - 1], within, why)
  }

  predicate Refuses(ws: seq<Worker>, op: Op) {
    op.Dispatch? && Dispatched(ws, op.msg, op.tx).1.ActorNotRunning?
  }

  predicate Refused(ws: seq<Worker>, ops: seq<Op>, n: nat)
    requires n < |ops|
  {
    Refuses(Run(ws, ops[..n]), ops[n])
  }

  /** What the pool's hooks answer to a step: a broadcast returns a list of results, which is no error. */
  ghost predicate Answers(h: Hooks, call: nat, ws: seq<Worker>, op: Op) {
    match op
    case Dispatch(msg, tx) => h.onMessage(call, msg) == DispatchResult(ws, Job(msg, tx))
    case Broadcast(msg) => h.onMessage(call, msg) == Replied(false)
    case LinkDied(id, _) => forall why :: h.onLinkDied(call, id, why) == Decided(Continue)
    case _ => true
  }

  ghost predicate AnswersAt(h: Hooks, calls: nat, ws: seq<Worker>, ops: seq<Op>, n: nat)
    requires n < |ops|
  {
    Answers(h, calls + |Mailbox(ops[..n], false, Normal)|, Run(ws, ops[..n]), ops[n])
  }

  ghost predicate DefaultPanics(h: Hooks) {
    forall c, why :: h.onPanic(c, why) == Decide(DefaultOnPanic(why))
  }

  /** The hooks of a pool that meets these steps from its next hook call on. It keeps the default panic hook. */
  ghost predicate PoolHooks(h: Hooks, calls: nat, ws: seq<Worker>, ops: seq<Op>) {
    DefaultPanics(h) && forall n :: 0 <= n < |ops| ==> AnswersAt(h, calls, ws, ops, n)
  }

  lemma {:induction false} MailboxSize(ops: seq<Op>, within: bool, why: StopReason)
    ensures |Mailbox(ops, within, why)| == |Mailbox(ops, false, Normal)|
    decreases |ops|
  {
    if ops != [] {
      MailboxSize(ops[..|ops| - 1], within, why);
    }
  }

  lemma OneMoreStep(ops: seq<Op>, n: nat, within: bool, why: StopReason)
    requires n < |ops|
    ensures Mailbox(ops[..n + 1], within, why) == Mailbox(ops[..n], within, why) + Signals(ops[n], within, why)
  {
    assert ops[..n + 1][..n] == ops[..n];
  }

  lemma {:induction false} MailboxBegins(ops: seq<Op>, n: nat, within: bool, why: StopReason)
    requires n <= |ops|
    ensures Mailbox(ops[..n], within, why) <= Mailbox(ops, within, why)
    decreases |ops| - n
  {
    if n < |ops| {
      MailboxBegins(ops, n + 1, within, why);
      OneMoreStep(ops, n, within, why);
    } else {
      assert ops[..n] == ops;
    }
  }

  /** One step as the pool sees it, whatever follows. */
  lemma OneStep(b: Behaviour, h: Hooks, ws: seq<Worker>, op: Op, within: bool, why: StopReason, rest: seq<Received>)
    returns (b1: Behaviour)
    requires BufferInv(b) && b.finishedStartup && Answers(h, b.calls, ws, op) && DefaultPanics(h)
    ensures BufferInv(b1) && b1.finishedStartup
    ensures if Refuses(ws, op)
            then ActorLoop(b, h, Signals(op, within, why) + rest).1 == Ended(Panicked(OnMessage), rest)
            else && ActorLoop(b, h, Signals(op, within, why) + rest) == ActorLoop(b1, h, rest)
                 && b1.calls == b.calls + |Signals(op, within, why)|
  {
    var signals := Signals(op, within, why);
    if signals == [] {
      assert signals + rest == rest;
      return b;
    }
    LifecycleProofs.RecoveredStep(b, h, signals + rest);
    assert (signals + rest)[1..] == rest;
    b1 := LifecycleProofs.Recovered(b, h, signals[0]).0;
    if op.Dispatch? {
      DispatchDecides(ws, Job(op.msg, op.tx));
    }
    hide DispatchResult, Dispatched, ActorLoop;
  }

  lemma {:induction false} UnrefusedGoOn(
    b: Behaviour, h: Hooks, ws: seq<Worker>, ops: seq<Op>, n: nat, within: bool, why: StopReason)
    returns (b1: Behaviour)
    requires BufferInv(b) && b.finishedStartup && n <= |ops|
    requires PoolHooks(h, b.calls, ws, ops) && forall k :: 0 <= k < n ==> !Refused(ws, ops, k)
    ensures BufferInv(b1) && b1.finishedStartup && b1.calls == b.calls + |Mailbox(ops[..n], false, Normal)|
    ensures ActorLoop(b, h, Mailbox(ops[..n], within, why)) == (b1, Waiting)
    decreases n
  {
    if n == 0 {
      return b;
    }
    var mid := UnrefusedGoOn(b, h, ws, ops, n - 1, within, why);
    var pre, signals := Mailbox(ops[..n - 1], within, why), Signals(ops[n - 1], within, why);
    OneMoreStep(ops, n - 1, within, why);
    OneMoreStep(ops, n - 1, false, Normal);
    LifecycleStop.LoopGoesOn(b, h, pre, signals);
    assert AnswersAt(h, b.calls, ws, ops, n - 1) && !Refused(ws, ops, n - 1);
    b1 := OneStep(mid, h, Run(ws, ops[..n - 1]), ops[n - 1], within, why, []);
    assert signals + [] == signals && ActorLoop(b1, h, []) == (b1, Waiting);
    hide Mailbox, Answers, Refuses, ActorLoop, BufferInv, Run;
  }

  lemma RefusedEnds(b: Behaviour, h: Hooks, ws: seq<Worker>, ops: seq<Op>, n: nat, within: bool, why: StopReason)
    requires BufferInv(b) && b.finishedStartup && PoolHooks(h, b.calls, ws, ops)
    requires n < |ops| && Refused(ws, ops, n) && forall k :: 0 <= k < n ==> !Refused(ws, ops, k)
    ensures ActorLoop(b, h, Mailbox(ops, within, why)).1 == Ended(Panicked(OnMessage), Behind(ops, n, within, why))
  {
    var mid := UnrefusedGoOn(b, h, ws, ops, n, within, why);
    var pre, signals := Mailbox(ops[..n], within, why), Signals(ops[n], within, why);
    var rest := Behind(ops, n, within, why);
    assert Mailbox(ops, within, why) == pre + (signals + rest);
    LifecycleStop.LoopGoesOn(b, h, pre, signals + rest);
    assert AnswersAt(h, b.calls, ws, ops, n);
    var _ := OneStep(mid, h, Run(ws, ops[..n]), ops[n], within, why, rest);
    hide Mailbox, Answers, Refuses, ActorLoop, BufferInv, Run;
  }

  /** What is in the mailbox behind the n-th step. */
  function Behind(ops: seq<Op>, n: nat, within: bool, why: StopReason): (rest: seq<Received>)
    requires n < |ops|
    ensures Mailbox(ops, within, why) == Mailbox(ops[..n], within, why) + (Signals(ops[n], within, why) + rest)
  {
    MailboxBegins(ops, n + 1, within, why);
    OneMoreStep(ops, n, within, why);
    Mailbox(ops, within, why)[|Mailbox(ops[..n + 1], within, why)|..]
  }

  /**
   Over any run of the pool, with broadcasts, workers that finish jobs, stop and are replaced: the first refused
   dispatch ends the pool and leaves what is behind it unread, and a pool that refuses none goes on.
   */
  lemma {:induction false} RefusalEndsThePool(
    b: Behaviour, h: Hooks, ws: seq<Worker>, ops: seq<Op>, within: bool, why: StopReason)
    requires BufferInv(b) && b.finishedStartup && PoolHooks(h, b.calls, ws, ops)
    ensures var end := ActorLoop(b, h, Mailbox(ops, within, why)).1;
      && (end == Waiting <==> forall n :: 0 <= n < |ops| ==> !Refused(ws, ops, n))
      && forall n :: 0 <= n < |ops| && Refused(ws, ops, n) && (forall k :: 0 <= k < n ==> !Refused(ws, ops, k)) ==>
           end == Ended(Panicked(OnMessage), Behind(ops, n, within, why))
  {
    if forall n :: 0 <= n < |ops| ==> !Refused(ws, ops, n) {
      var _ := UnrefusedGoOn(b, h, ws, ops, |ops|, within, why);
      assert ops[..|ops|] == ops;
    } else {
      var n := FirstRefused(ws, ops);
      RefusedEnds(b, h, ws, ops, n, within, why);
    }
    hide PoolHooks, ActorLoop, Mailbox, Refused, BufferInv;
  }

  lemma FirstRefused(ws: seq<Worker>, ops: seq<Op>) returns (n: nat)
    requires exists k :: 0 <= k < |ops| && Refused(ws, ops, k)
    ensures n < |ops| && Refused(ws, ops, n) && forall k :: 0 <= k < n ==> !Refused(ws, ops, k)
  {
    hide Refused;
    n := 0;
    while !Refused(ws, ops, n)
      invariant n < |ops| && forall k :: 0 <= k < n ==> !Refused(ws, ops, k)
      decreases |ops| - n
    {
      n := n + 1;
      assert exists k :: 0 <= k < |ops| && Refused(ws, ops, k);
    }
  }
}
