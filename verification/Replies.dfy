/**
 Who answers an ask: the reply sender held by the handler's context, and the markers a handler returns when
 somebody else will answer (src/message.rs, src/reply.rs, src/error.rs).
 */
module Replies {
  import opened Common

  type Sender = nat
  type Message = nat
  type Fault = nat

  datatype SendError<M, E> =
    | ActorNotRunning(msg: M)
    | ActorStopped
    | MissingConnection
    | ConnectionClosed
    | MailboxFull(msg: M)
    | HandlerError(err: E)
    | Timeout(timedOut: Option<M>)
  {
    function MapMsg<N>(f: M -> N): SendError<N, E> {
      match this
      case ActorNotRunning(m) => ActorNotRunning(f(m))
      case ActorStopped => ActorStopped
      case MissingConnection => MissingConnection
      case ConnectionClosed => ConnectionClosed
      case MailboxFull(m) => MailboxFull(f(m))
      case HandlerError(e) => HandlerError(e)
      case Timeout(None) => Timeout(None)
      case Timeout(Some(m)) => Timeout(Some(f(m)))
    }

    function MapErr<F>(f: E -> F): SendError<M, F> {
      match this
      case ActorNotRunning(m) => ActorNotRunning(m)
      case ActorStopped => ActorStopped
      case MissingConnection => MissingConnection
      case ConnectionClosed => ConnectionClosed
      case MailboxFull(m) => MailboxFull(m)
      case HandlerError(e) => HandlerError(f(e))
      case Timeout(m) => Timeout(m)
    }

    /** What the sender of a failed message gets back. */
    function Returned(): Option<M> {
      match this
      case ActorNotRunning(m) => Some(m)
      case MailboxFull(m) => Some(m)
      case Timeout(m) => m
      case _ => None
    }
  }

  /** Mapping the message changes what comes back and nothing else, and mapping the error commutes with it. */
  lemma MappingIsNatural<M, N, E, F>(e: SendError<M, E>, f: M -> N, g: E -> F)
    ensures e.MapMsg(f).Returned() == (match e.Returned() case None => None case Some(m) => Some(f(m)))
    ensures e.MapMsg(f).MapErr(g) == e.MapErr(g).MapMsg(f)
    ensures e.MapErr(g).Returned() == e.Returned()
    ensures e.MapMsg((m: M) => m) == e && e.MapErr((x: E) => x) == e
    ensures e.MapErr(g).HandlerError? <==> e.HandlerError?
    ensures e.HandlerError? ==> e.MapErr(g).err == g(e.err)
  {
  }

  // ---------- What handlers return ----------

  datatype Answer = Value(value: nat) | Error(fault: Fault) | ForwardError(error: SendError<Message, Fault>)

  datatype Reply =
    | Plain(answer: Answer)                                    // an ordinary value or result
    | Delegated                                                // answered elsewhere
    | Forwarded(result: Option<SendError<Message, Fault>>)     // passed on; None if that succeeded
    | Direct(answer: Answer)                                   // a ForwardedReply that answers itself

  /** The markers are values no caller may receive. */
  predicate Marker(r: Reply) {
    r.Delegated? || (r.Forwarded? && r.result.None?)
  }

  /** What is sent for a returned reply; None stands for the panic of converting a marker. */
  function IntoValue(r: Reply): Option<Answer> {
    match r
    case Plain(answer) => Some(answer)
    case Delegated => None
    case Forwarded(None) => None
    case Forwarded(Some(e)) => Some(ForwardError(e))
    case Direct(Error(fault)) => Some(ForwardError(HandlerError(fault)))
    case Direct(answer) => Some(answer)
  }

  /** The error a reply is treated as when nobody asked. */
  function IntoAnyErr(r: Reply): Option<Answer> {
    match r
    case Plain(Value(_)) => None
    case Plain(answer) => Some(answer)
    case Delegated => None
    case Forwarded(None) => None
    case Forwarded(Some(e)) => Some(ForwardError(e))
    case Direct(Value(_)) => None
    case Direct(Error(fault)) => Some(ForwardError(HandlerError(fault)))
    case Direct(answer) => Some(answer)
  }

  // ---------- The context ----------

  /** Where a reply sender went: used, put into a forwarded message, given to the handler or a task, or lost. */
  datatype End = Sent(answer: Answer) | PassedOn | HandedOut | Dropped
  datatype Fate = Fate(sender: Sender, end: End)

  datatype Context = Context(reply: Option<Sender>, stop: bool, fates: seq<Fate>, made: seq<Reply>)

  /** The outcome of sending the forwarded message; abandoned if the handler drops the forward while it waits. */
  datatype Delivery = Delivered | Failed(error: SendError<Message, Fault>) | Abandoned

  datatype Op =
    | Stop
    | TakeReplySender
    | ReplyNow(answer: Answer)
    | Spawn
    | Forward(delivery: Delivery)

  function NewContext(reply: Option<Sender>, stop: bool): Context {
    Context(reply, stop, [], [])
  }

  /** The context lets go of its sender, if it has one. */
  function Release(c: Context, end: End): Context {
    match c.reply
    case None => c
    case Some(tx) => c.(reply := None, fates := c.fates + [Fate(tx, end)])
  }

  function Made(c: Context, r: Reply): Context {
    c.(made := c.made + [r])
  }

  function HandOut(c: Context): Context {
    Made(Release(c, HandedOut), Delegated)
  }

  /** A failure gives the sender back together with the message; without a message both are gone, as if abandoned. */
  function ForwardOnce(c: Context, delivery: Delivery): Context {
    match delivery
    case Delivered => Made(Release(c, PassedOn), Forwarded(None))
    case Failed(e) => Made(if e.Returned().Some? then c else Release(c, Dropped), Forwarded(Some(e)))
    case Abandoned => Release(c, Dropped)
  }

  function Step(c: Context, op: Op): Context {
    match op
    case Stop => c.(stop := true)
    case TakeReplySender => HandOut(c)
    case ReplyNow(answer) => Made(Release(c, Sent(answer)), Delegated)
    case Spawn => HandOut(c)
    case Forward(delivery) => ForwardOnce(c, delivery)
  }

  function Run(c: Context, ops: seq<Op>): Context
    decreases |ops|
  {
    if ops == [] then c else Step(Run(c, ops[..|ops| - 1]), ops[|ops| - 1])
  }

  // ---------- One message ----------

  /** How a handler ends: it returns, panics, or its future is dropped by a kill. */
  datatype Exit = Returned(reply: Reply) | Panicked | Killed

  /** How handling ended: quietly, with an error nobody asked for, or cut short by one of three causes. */
  datatype Ending = Done | Unanswered(error: Answer) | HandlerPanicked | HandlerKilled | ConversionPanicked

  function Finish(c: Context, exit: Exit): (Context, Ending) {
    match exit
    case Panicked => (Release(c, Dropped), HandlerPanicked)
    case Killed => (Release(c, Dropped), HandlerKilled)
    case Returned(r) =>
      if c.reply.Some? then
        match IntoValue(r)
        case Some(answer) => (Release(c, Sent(answer)), Done)
        case None => (Release(c, Dropped), ConversionPanicked)
      else
        (c, match IntoAnyErr(r) case Some(e) => Unanswered(e) case None => Done)
  }

  /** A returned marker was made by the context of this very message. */
  predicate Returnable(c: Context, exit: Exit) {
    exit.Returned? && Marker(exit.reply) ==> exit.reply in c.made
  }

  // ---------- Proofs ----------

  predicate AnyMarker(made: seq<Reply>) {
    exists i :: 0 <= i < |made| && Marker(made[i])
  }

  /** The sender is in the context or has exactly one fate; once a marker was made it is gone for good. */
  ghost predicate Linear(tx: Option<Sender>, c: Context) {
    && (c.reply.Some? ==> c.reply == tx && c.fates == [] && !AnyMarker(c.made))
    && (c.reply.None? ==> |c.fates| == (if tx.Some? then 1 else 0))
    && (|c.fates| == 1 ==> tx.Some? && c.fates[0].sender == tx.value)
  }

  lemma MadeMarker(made: seq<Reply>, r: Reply)
    ensures AnyMarker(made + [r]) <==> AnyMarker(made) || Marker(r)
  {
    assert (made + [r])[|made|] == r;
    if AnyMarker(made) {
      var i :| 0 <= i < |made| && Marker(made[i]);
      assert (made + [r])[i] == made[i];
    }
  }

  lemma StepKeepsLinear(tx: Option<Sender>, c: Context, op: Op)
    requires Linear(tx, c)
    ensures Linear(tx, Step(c, op))
    ensures c.reply.None? ==> Step(c, op).reply.None? && Step(c, op).fates == c.fates
  {
    if op.Forward? && op.delivery.Failed? {
      MadeMarker(c.made, Forwarded(Some(op.delivery.error)));
    }
  }

  lemma {:induction false} RunKeepsLinear(tx: Option<Sender>, stop: bool, ops: seq<Op>)
    ensures Linear(tx, Run(NewContext(tx, stop), ops))
    decreases |ops|
  {
    if ops != [] {
      RunKeepsLinear(tx, stop, ops[..|ops| - 1]);
      StepKeepsLinear(tx, Run(NewContext(tx, stop), ops[..|ops| - 1]), ops[|ops| - 1]);
    }
  }

  /** Once gone, a sender never comes back, whatever the handler does next. */
  lemma {:induction false} SenderNeverReturns(c: Context, ops: seq<Op>)
    requires c.reply.None?
    ensures Run(c, ops).reply.None? && Run(c, ops).fates == c.fates
    decreases |ops|
  {
    if ops != [] {
      SenderNeverReturns(c, ops[..|ops| - 1]);
    }
  }

  /** The operation that took the sender out of the context, if one did. */
  predicate Takes(op: Op) {
    match op
    case Stop => false
    case Forward(Failed(e)) => e.Returned().None?
    case _ => true
  }

  function EndOf(op: Op): End {
    match op
    case ReplyNow(answer) => Sent(answer)
    case Forward(Delivered) => PassedOn
    case Forward(_) => Dropped
    case _ => HandedOut
  }

  /** The first operation that takes the sender decides its fate, for the whole of the handler. */
  lemma {:induction false} FirstTakerDecides(tx: Sender, stop: bool, ops: seq<Op>)
    ensures var c := Run(NewContext(Some(tx), stop), ops);
      && (c.reply == Some(tx) <==> forall i :: 0 <= i < |ops| ==> !Takes(ops[i]))
      && forall i :: 0 <= i < |ops| && Takes(ops[i]) && (forall j :: 0 <= j < i ==> !Takes(ops[j])) ==>
           c.fates == [Fate(tx, EndOf(ops[i]))]
    decreases |ops|
  {
    RunKeepsLinear(Some(tx), stop, ops);
    if ops != [] {
      var n := |ops| - 1;
      var before := Run(NewContext(Some(tx), stop), ops[..n]);
      FirstTakerDecides(tx, stop, ops[..n]);
      RunKeepsLinear(Some(tx), stop, ops[..n]);
      StepKeepsLinear(Some(tx), before, ops[n]);
      assert forall i :: 0 <= i < n ==> ops[..n][i] == ops[i];
      if before.reply.None? {
        assert exists i :: 0 <= i < n && Takes(ops[..n][i]);
      }
    }
  }

  /** The forward that lost the sender: abandoned, or failed with an error that came back without the message. */
  predicate LosesSender(op: Op) {
    op.Forward? && (op.delivery.Abandoned? || (op.delivery.Failed? && op.delivery.error.Returned().None?))
  }

  predicate LostOnTheWay(ops: seq<Op>) {
    exists i :: 0 <= i < |ops| && LosesSender(ops[i]) && forall j :: 0 <= j < i ==> !Takes(ops[j])
  }

  predicate Untaken(ops: seq<Op>) {
    forall i :: 0 <= i < |ops| ==> !Takes(ops[i])
  }

  /**
   The sender of an ask ends in exactly one place, and a tell has none to lose. It is dropped exactly if the first
   operation that took it was a forward that lost it, or if nothing took it and the handler panicked, was killed or
   returned a marker.
   */
  lemma {:induction false} SenderEndsOnce(tx: Option<Sender>, stop: bool, ops: seq<Op>, exit: Exit)
    ensures var (c, ending) := Finish(Run(NewContext(tx, stop), ops), exit);
      && c.reply.None?
      && (ending.HandlerPanicked? <==> exit.Panicked?) && (ending.HandlerKilled? <==> exit.Killed?)
      && (tx.None? ==> c.fates == [])
      && (tx.Some? ==>
            && |c.fates| == 1 && c.fates[0].sender == tx.value
            && (c.fates[0].end.Dropped? <==>
                  LostOnTheWay(ops) || (Untaken(ops) && (exit.Returned? ==> Marker(exit.reply)))))
  {
    RunKeepsLinear(tx, stop, ops);
    if tx.Some? {
      if Untaken(ops) {
        FirstTakerDecides(tx.value, stop, ops);
        assert !LostOnTheWay(ops);
      } else {
        TakenDecides(tx.value, stop, ops);
      }
    }
    hide Run, Takes, LosesSender, IntoValue;
  }

  /** Only the first operation that took the sender can have lost it. */
  lemma FirstOrNobody(ops: seq<Op>, i: nat)
    requires i < |ops| && Takes(ops[i]) && forall j :: 0 <= j < i ==> !Takes(ops[j])
    ensures LostOnTheWay(ops) <==> LosesSender(ops[i])
    ensures EndOf(ops[i]).Dropped? <==> LosesSender(ops[i])
  {
    if k :| 0 <= k < |ops| && LosesSender(ops[k]) && forall j :: 0 <= j < k ==> !Takes(ops[j]) {
      assert Takes(ops[k]);
      assert k == i;
    }
  }

  lemma TakenDecides(tx: Sender, stop: bool, ops: seq<Op>)
    requires !Untaken(ops)
    ensures var c := Run(NewContext(Some(tx), stop), ops);
      c.reply.None? && |c.fates| == 1 && (c.fates[0].end.Dropped? <==> LostOnTheWay(ops))
  {
    FirstTakerDecides(tx, stop, ops);
    RunKeepsLinear(Some(tx), stop, ops);
    var i := FirstTaker(ops);
    FirstOrNobody(ops, i);
    hide Run, LostOnTheWay, LosesSender, EndOf, Takes;
  }

  lemma {:induction false} FirstTaker(ops: seq<Op>) returns (i: nat)
    requires exists k :: 0 <= k < |ops| && Takes(ops[k])
    ensures i < |ops| && Takes(ops[i]) && forall j :: 0 <= j < i ==> !Takes(ops[j])
    decreases |ops|
  {
    if Takes(ops[0]) {
      return 0;
    }
    var k :| 0 <= k < |ops| && Takes(ops[k]);
    assert ops[1..][k - 1] == ops[k];
    var rest := FirstTaker(ops[1..]);
    i := rest + 1;
    forall j | 0 <= j < i ensures !Takes(ops[j]) {
      if j > 0 {
        assert ops[j] == ops[1..][j - 1];
      }
    }
  }

  /**
   Converting a reply panics exactly when a marker is returned while the context still holds the sender; a marker
   made by the same context never is.
   */
  lemma {:induction false} MarkersAreNeverConverted(tx: Option<Sender>, stop: bool, ops: seq<Op>, exit: Exit)
    ensures var c := Run(NewContext(tx, stop), ops);
      && (Finish(c, exit).1.ConversionPanicked? <==> c.reply.Some? && exit.Returned? && Marker(exit.reply))
      && (Returnable(c, exit) ==> !Finish(c, exit).1.ConversionPanicked?)
  {
    RunKeepsLinear(tx, stop, ops);
  }

  /** A marker kept from another message is the one way left: a handler that returns it for an ask panics. */
  lemma ForeignMarkerPanics(tx: Sender)
    ensures Finish(NewContext(Some(tx), false), Returned(Delegated)) ==
      (Context(None, false, [Fate(tx, Dropped)], []), ConversionPanicked)
    ensures !Returnable(NewContext(Some(tx), false), Returned(Delegated))
  {
    var none: seq<Fate> := [];
    assert none + [Fate(tx, Dropped)] == [Fate(tx, Dropped)];
  }

  /** Errors of sending to a local actor: the message always comes back. */
  predicate LocalFailure(e: SendError<Message, Fault>) {
    e.ActorNotRunning? || e.MailboxFull? || (e.Timeout? && e.timedOut.Some?)
  }

  /** A handler that awaits all its forwards to local actors to the end, and returns, never loses the sender. */
  lemma {:induction false} LocalForwardsKeepSender(tx: Sender, stop: bool, ops: seq<Op>, returned: Reply)
    requires forall i :: 0 <= i < |ops| && ops[i].Forward? ==>
      ops[i].delivery.Delivered? || (ops[i].delivery.Failed? && LocalFailure(ops[i].delivery.error))
    requires Returnable(Run(NewContext(Some(tx), stop), ops), Returned(returned))
    ensures var c := Finish(Run(NewContext(Some(tx), stop), ops), Returned(returned)).0;
      |c.fates| == 1 && !c.fates[0].end.Dropped?
  {
    SenderEndsOnce(Some(tx), stop, ops, Returned(returned));
    MarkersAreNeverConverted(Some(tx), stop, ops, Returned(returned));
    FirstTakerDecides(tx, stop, ops);
  }

  /** Waiting for room in a mailbox under a timeout of the handler's own loses the sender, and nobody panics. */
  lemma AbandonedForwardLosesSender(tx: Sender, answer: Answer)
    ensures var c := Run(NewContext(Some(tx), false), [Forward(Abandoned)]);
      Finish(c, Returned(Direct(answer))).0.fates == [Fate(tx, Dropped)]
      && !Finish(c, Returned(Direct(answer))).1.ConversionPanicked?
  {
    var ops := [Forward(Abandoned)];
    assert ops[..0] == [] && Run(NewContext(Some(tx), false), ops[..0]) == NewContext(Some(tx), false);
    var none: seq<Fate> := [];
    assert none + [Fate(tx, Dropped)] == [Fate(tx, Dropped)];
  }

  /**
   What an asker that is still waiting at the end receives for each kind of reply: an answer as it is, the error of a
   forward as one, and nothing for a marker, which panics.
   */
  lemma {:induction false} AskIsAnswered(tx: Sender, stop: bool, ops: seq<Op>, returned: Reply)
    requires Untaken(ops)
    ensures var (c, ending) := Finish(Run(NewContext(Some(tx), stop), ops), Returned(returned));
      match returned
      case Plain(answer) => ending == Done && c.fates == [Fate(tx, Sent(answer))]
      case Delegated => ending == ConversionPanicked && c.fates == [Fate(tx, Dropped)]
      case Forwarded(None) => ending == ConversionPanicked && c.fates == [Fate(tx, Dropped)]
      case Forwarded(Some(e)) => ending == Done && c.fates == [Fate(tx, Sent(ForwardError(e)))]
      case Direct(Value(value)) => ending == Done && c.fates == [Fate(tx, Sent(Value(value)))]
      case Direct(Error(fault)) => ending == Done && c.fates == [Fate(tx, Sent(ForwardError(HandlerError(fault))))]
      case Direct(ForwardError(e)) => ending == Done && c.fates == [Fate(tx, Sent(ForwardError(e)))]
  {
    FirstTakerDecides(tx, stop, ops);
    RunKeepsLinear(Some(tx), stop, ops);
    assert forall f: Fate :: [] + [f] == [f];
  }

  /**
   With no asker, or with the sender gone before the end, a returned error is reported, whether it is the handler's
   own or that of a forward; a value or a marker is not.
   */
  lemma {:induction false} TellReportsErrors(tx: Option<Sender>, stop: bool, ops: seq<Op>, returned: Reply)
    requires tx.None? || !Untaken(ops)
    ensures var before := Run(NewContext(tx, stop), ops);
      var (c, ending) := Finish(before, Returned(returned));
      c == before && c.reply.None? &&
      match returned
      case Plain(Value(_)) => ending == Done
      case Plain(answer) => ending == Unanswered(answer)
      case Delegated => ending == Done
      case Forwarded(None) => ending == Done
      case Forwarded(Some(e)) => ending == Unanswered(ForwardError(e))
      case Direct(Value(_)) => ending == Done
      case Direct(Error(fault)) => ending == Unanswered(ForwardError(HandlerError(fault)))
      case Direct(ForwardError(e)) => ending == Unanswered(ForwardError(e))
  {
    RunKeepsLinear(tx, stop, ops);
    if tx.Some? {
      FirstTakerDecides(tx.value, stop, ops);
    }
    hide Run, Takes, IntoValue;
  }

  /** A handler that asked to stop, at any point, has asked; nothing else does, and nothing takes it back. */
  lemma {:induction false} StopIsRemembered(tx: Option<Sender>, stop: bool, ops: seq<Op>)
    ensures Run(NewContext(tx, stop), ops).stop <==> stop || exists i :: 0 <= i < |ops| && ops[i].Stop?
    decreases |ops|
  {
    if ops != [] {
      var n := |ops| - 1;
      StopIsRemembered(tx, stop, ops[..n]);
      assert forall i :: 0 <= i < n ==> ops[..n][i] == ops[i];
    }
  }

  // ---------- The object ----------

  class HandlerContext {
    var reply: Option<Sender>
    var stop: bool
    ghost var fates: seq<Fate>
    ghost var made: seq<Reply>

    ghost function State(): Context
      reads this
    {
      Context(reply, stop, fates, made)
    }

    constructor (reply: Option<Sender>, stop: bool)
      ensures State() == NewContext(reply, stop)
    {
      this.reply, this.stop := reply, stop;
      fates, made := [], [];
    }

    method StopActor()
      modifies this`stop
      ensures State() == Step(old(State()), Stop)
    {
      stop := true;
    }

    method ReplySender() returns (marker: Reply, sender: Option<Sender>)
      modifies this
      ensures State() == Step(old(State()), TakeReplySender)
      ensures marker == Delegated && sender == old(reply)
    {
      marker, sender := Delegated, reply;
      if sender.Some? {
        fates := fates + [Fate(sender.value, HandedOut)];
      }
      reply := None;
      made := made + [marker];
    }

    method ReplyNow(answer: Answer) returns (marker: Reply)
      modifies this
      ensures State() == Step(old(State()), Op.ReplyNow(answer)) && marker == Delegated
    {
      var sender := reply;
      reply := None;
      if sender.Some? {
        fates := fates + [Fate(sender.value, Sent(answer))];
      }
      marker := Delegated;
      made := made + [marker];
    }

    /** A detached future gets the sender and decides when and what to answer. */
    method SpawnTask() returns (marker: Reply, sender: Option<Sender>)
      modifies this
      ensures State() == Step(old(State()), Spawn)
      ensures marker == Delegated && sender == old(reply)
    {
      marker, sender := ReplySender();
    }

    /** `delivery` is how sending the message ended, as an ask with the sender or else as a tell. */
    method Forward(delivery: Delivery) returns (r: Option<Reply>)
      modifies this
      ensures State() == Step(old(State()), Op.Forward(delivery))
      ensures r == match delivery
                   case Delivered => Some(Forwarded(None))
                   case Failed(e) => Some(Forwarded(Some(e)))
                   case Abandoned => None
    {
      var sender := reply;
      reply := None;
      match delivery {
      case Abandoned =>
        if sender.Some? {
          fates := fates + [Fate(sender.value, Dropped)];
        }
        return None;
      case Delivered =>
        if sender.Some? {
          fates := fates + [Fate(sender.value, PassedOn)];
        }
        r := Some(Forwarded(None));
      case Failed(e) =>
        if sender.Some? {
          var failure := e.MapMsg(msg => (msg, sender.value));
          MappingIsNatural(e, msg => (msg, sender.value), (fault: Fault) => fault);
          if failure.Returned().Some? {
            reply := Some(failure.Returned().value.1);
          } else {
            fates := fates + [Fate(sender.value, Dropped)];
          }
          r := Some(Forwarded(Some(failure.MapMsg((back: (Message, Sender)) => back.0))));
        } else {
          r := Some(Forwarded(Some(e)));
        }
      }
      made := made + [r.value];
    }

    /** What the runtime does with the handler's reply. */
    method AfterHandler(r: Reply) returns (ending: Ending)
      modifies this`reply, this`fates
      ensures (State(), ending) == Finish(old(State()), Returned(r))
    {
      var sender := reply;
      reply := None;
      if sender.Some? {
        match IntoValue(r)
        case Some(answer) => fates := fates + [Fate(sender.value, Sent(answer))]; ending := Done;
        case None => fates := fates + [Fate(sender.value, Dropped)]; ending := ConversionPanicked;
      } else {
        match IntoAnyErr(r)
        case Some(e) => ending := Unanswered(e);
        case None => ending := Done;
      }
    }
  }
}
