/** How a death spreads: what a notification puts into a mailbox, and what becomes of what is in there. */
module LinkDelivery {
  import opened Common
  import opened StopReasons
  import opened LinkProtocol
  import opened LinkEffects
  import opened LinkHistory
  import opened LinkNotices
  import opened LinkTheorems

  // ---------- Mailboxes are queues ----------

  /** A delivered notification appends the death and its final reason to that sibling's mailbox, and to no other. */
  lemma {:induction false} NotifyDelivers(s: System, a: ActorId, b: ActorId, delivered: bool)
    requires PhaseInv(s) && Enabled(s, Notify(a, b, delivered))
    ensures var s' := Apply(s, Notify(a, b, delivered));
      && s.actors[a].reason.Some? && s'.actors.Keys == s.actors.Keys
      && s'.actors[a].toNotify == s.actors[a].toNotify - {b}
      && s'.issued == s.issued + multiset{(a, b, s.actors[a].reason.value)}
      && s'.taken == s.taken
      && forall c :: c in s.actors ==>
           s'.actors[c].mailbox ==
             if delivered && c == b then s.actors[c].mailbox + [Notice(a, s.actors[a].reason.value)]
             else s.actors[c].mailbox
  {
    assert PhaseOk(s, a);
    NotifyEffect(s, a, b, delivered);
    hide Apply;
  }

  /** Taking a signal takes the oldest. */
  lemma TakesOldest(s: System, a: ActorId, t: TaskId)
    requires TasksOk(s) && Enabled(s, Take(a, t))
    ensures var s' := Apply(s, Take(a, t));
      && s'.actors.Keys == s.actors.Keys
      && s'.actors[a].phase == Handling(t, s.actors[a].mailbox[0])
      && s'.taken == s.taken + multiset{(a, s.actors[a].mailbox[0])}
      && forall c :: c in s.actors ==>
           s'.actors[c].mailbox == if c == a then s.actors[c].mailbox[1..] else s.actors[c].mailbox
  {
    TakeEffect(s, a, t);
    hide Apply;
  }

  /** Mail is neither lost nor made up by any other step; a new actor has none. */
  ghost predicate MailStays(s: System, s': System) {
    && s'.taken == s.taken && s.actors.Keys <= s'.actors.Keys
    && (forall a :: a in s.actors ==> s'.actors[a].mailbox == s.actors[a].mailbox)
    && forall a :: a in s'.actors && a !in s.actors ==> s'.actors[a].mailbox == []
  }

  lemma AdvanceKeepsMail(s: System, t: TaskId)
    requires PhaseInv(s) && CanAdvance(s, t)
    ensures MailStays(s, AdvanceTask(s, t))
  {
    hide AdvanceTask;
    if QuietStep(s.tasks[t]) {
      QuietEffect(s, t);
    } else {
      OwnStepKeepsMail(s, t);
    }
  }

  lemma OthersKeepMail(s: System, act: Action)
    requires PhaseInv(s) && Enabled(s, act) && !act.Notify? && !act.Take?
    ensures MailStays(s, Apply(s, act))
  {
    hide Apply, AdvanceTask;
    match act
    case Advance(t) => AdvanceEffect(s, t); AdvanceKeepsMail(s, t);
    case Spawn(a) => SpawnEffect(s, a);
    case BeginPair(t, kind, a, b) => BeginPairEffect(s, t, kind, a, b);
    case Cancel(t) => CancelEffect(s, t);
    case Break(a, reason) => BreakEffect(s, a, reason);
    case Kill(a) => KillEffect(s, a);
    case BeginDrain(a, t) => BeginDrainEffect(s, a, t);
    case _ => MoveEffect(s, act);
  }

  /** The final reason of an actor once these actions were done. */
  ghost function ReasonAfter(trace: seq<Action>, a: ActorId): Option<StopReason> {
    var s := Run(trace);
    if s.Some? && a in s.value.actors then s.value.actors[a].reason else None
  }

  /** The notice an actor has in hand once these actions were done. */
  ghost function InHand(trace: seq<Action>, a: ActorId): Option<Notice> {
    var s := Run(trace);
    if s.Some? && a in s.value.actors && s.value.actors[a].phase.Handling?
    then Some(s.value.actors[a].phase.notice) else None
  }

  /** The deaths that were delivered to an actor, in the order of the deliveries. */
  ghost function DeliveredTo(trace: seq<Action>, b: ActorId): seq<Notice>
    decreases |trace|
  {
    if trace == [] then []
    else
      var before, act := trace[..|trace| - 1], trace[|trace| - 1];
      DeliveredTo(before, b)
      + (if act.Notify? && act.sibling == b && act.delivered && ReasonAfter(before, act.actor).Some?
         then [Notice(act.actor, ReasonAfter(before, act.actor).value)] else [])
  }

  /** The deaths an actor has dealt with, or is dealing with, in the order it took them up. */
  ghost function TakenUpBy(trace: seq<Action>, b: ActorId): seq<Notice>
    decreases |trace|
  {
    if trace == [] then []
    else
      var before, act := trace[..|trace| - 1], trace[|trace| - 1];
      TakenUpBy(before, b)
      + (if act.Take? && act.actor == b && InHand(trace, b).Some? then [InHand(trace, b).value] else [])
  }

  function MailOf(s: System, b: ActorId): seq<Notice> {
    if b in s.actors then s.actors[b].mailbox else []
  }

  /** What one step puts into a mailbox, and what it takes out. */
  function PutInto(s: System, act: Action, b: ActorId): seq<Notice> {
    if act.Notify? && act.sibling == b && act.delivered && act.actor in s.actors && s.actors[act.actor].reason.Some?
    then [Notice(act.actor, s.actors[act.actor].reason.value)] else []
  }

  function TakenOut(s: System, act: Action, b: ActorId): seq<Notice> {
    if act.Take? && act.actor == b && MailOf(s, b) != [] then [MailOf(s, b)[0]] else []
  }

  lemma MailMoves(s: System, act: Action, b: ActorId)
    requires PhaseInv(s) && Enabled(s, act)
    ensures TakenOut(s, act, b) + MailOf(Apply(s, act), b) == MailOf(s, b) + PutInto(s, act, b)
  {
    hide Apply, PhaseInv, Enabled;
    if act.Notify? {
      NotifyDelivers(s, act.actor, act.sibling, act.delivered);
      TheyExist(s, act);
    } else if act.Take? {
      TakeMovesMail(s, act.actor, act.task, b);
    } else {
      OthersKeepMail(s, act);
    }
  }

  lemma TheyExist(s: System, act: Action)
    requires Enabled(s, act) && act.Notify?
    ensures act.actor in s.actors
    ensures act.delivered ==> act.sibling in s.actors
  {
  }

  lemma TakeMovesMail(s: System, a: ActorId, t: TaskId, b: ActorId)
    requires PhaseInv(s) && Enabled(s, Take(a, t))
    ensures TakenOut(s, Take(a, t), b) + MailOf(Apply(s, Take(a, t)), b) == MailOf(s, b)
  {
    hide Apply;
    TakesOldest(s, a, t);
  }

  lemma PhasedTasks(s: System)
    requires PhaseInv(s)
    ensures TasksOk(s)
  {
  }

  lemma TakenGrows(s: System, act: Action, b: ActorId)
    requires PhaseInv(s) && Enabled(s, act)
    ensures act.Take? ==> TakenOut(s, act, act.actor) != []
    ensures Apply(s, act).taken ==
      if act.Take? then s.taken + multiset{(act.actor, TakenOut(s, act, act.actor)[0])} else s.taken
    ensures act.Take? && act.actor == b ==>
      b in Apply(s, act).actors && Apply(s, act).actors[b].phase == Handling(act.task, TakenOut(s, act, b)[0])
  {
    hide Apply, PhaseInv;
    match act
    case Notify(a, c, delivered) => NotifyDelivers(s, a, c, delivered);
    case Take(a, t) => assert TasksOk(s) by { PhasedTasks(s); } TakesOldest(s, a, t);
    case _ => OthersKeepMail(s, act);
  }

  lemma LastState(trace: seq<Action>)
    requires Run(trace).Some? && trace != []
    ensures var before, act := trace[..|trace| - 1], trace[|trace| - 1];
      && Run(before).Some? && PhaseInv(Run(before).value) && Enabled(Run(before).value, act)
      && Run(trace).value == Apply(Run(before).value, act)
  {
    RunKeepsInv(trace[..|trace| - 1]);
    hide Apply, PhaseInv;
  }

  lemma LastDelivery(trace: seq<Action>, b: ActorId)
    requires Run(trace).Some? && trace != []
    ensures Run(trace[..|trace| - 1]).Some?
    ensures DeliveredTo(trace, b) == DeliveredTo(trace[..|trace| - 1], b)
            + PutInto(Run(trace[..|trace| - 1]).value, trace[|trace| - 1], b)
  {
    LastState(trace);
    hide Run, PhaseInv;
  }

  lemma LastTakenUp(trace: seq<Action>, b: ActorId)
    requires Run(trace).Some? && trace != []
    ensures Run(trace[..|trace| - 1]).Some?
    ensures TakenUpBy(trace, b) == TakenUpBy(trace[..|trace| - 1], b)
            + TakenOut(Run(trace[..|trace| - 1]).value, trace[|trace| - 1], b)
  {
    LastState(trace);
    TakenGrows(Run(trace[..|trace| - 1]).value, trace[|trace| - 1], b);
    hide Run, Apply, PhaseInv;
  }

  /** What comes in goes to the back, what goes out comes from the front. */
  lemma QueueStep(
    arrived: seq<Notice>, gone: seq<Notice>, queue: seq<Notice>,
    into: seq<Notice>, out: seq<Notice>, queue1: seq<Notice>)
    requires arrived == gone + queue && out + queue1 == queue + into
    ensures arrived + into == (gone + out) + queue1
  {
    assert arrived + into == gone + (queue + into);
    assert (gone + out) + queue1 == gone + (out + queue1);
  }

  /**
   A mailbox is a queue without loss, in every run: what was delivered to an actor is what it took up, in that
   order, followed by what still waits in its mailbox.
   */
  lemma {:induction false} MailboxesAreQueues(trace: seq<Action>, b: ActorId)
    requires Run(trace).Some?
    ensures DeliveredTo(trace, b) == TakenUpBy(trace, b) + MailOf(Run(trace).value, b)
    decreases |trace|
  {
    if trace == [] {
      assert DeliveredTo(trace, b) == [] && TakenUpBy(trace, b) == [] && MailOf(Run(trace).value, b) == [];
    } else {
      hide MailOf, DeliveredTo, TakenUpBy, TakenOut, PutInto;
      var before, act := trace[..|trace| - 1], trace[|trace| - 1];
      LastState(trace);
      hide Apply, Run, PhaseInv;
      MailboxesAreQueues(before, b);
      var s, s' := Run(before).value, Run(trace).value;
      LastDelivery(trace, b);
      LastTakenUp(trace, b);
      MailMoves(s, act, b);
      QueueStep(DeliveredTo(before, b), TakenUpBy(before, b), MailOf(s, b),
                PutInto(s, act, b), TakenOut(s, act, b), MailOf(s', b));
    }
  }

  /** The count of notices taken is the number of times they were taken up. */
  lemma {:induction false} TakenIsTakenUp(trace: seq<Action>, b: ActorId, n: Notice)
    requires Run(trace).Some?
    ensures Run(trace).value.taken[(b, n)] == multiset(TakenUpBy(trace, b))[n]
    decreases |trace|
  {
    if trace != [] {
      var before, act := trace[..|trace| - 1], trace[|trace| - 1];
      LastState(trace);
      TakenIsTakenUp(before, b, n);
      LastTakenUp(trace, b);
      TakenGrows(Run(before).value, act, b);
      hide Apply, Run, PhaseInv, TakenUpBy;
    }
  }

  // ---------- Who dies when ----------

  /** A notification can be delivered to every actor that is not at its end, and to no other; it can fail for each. */
  lemma DeliverableExactly(s: System, a: ActorId, b: ActorId)
    requires a in s.actors && s.actors[a].phase.Notifying? && b in s.actors[a].toNotify
    ensures Enabled(s, Notify(a, b, false))
    ensures Enabled(s, Notify(a, b, true)) <==>
      b in s.actors && !s.actors[b].phase.Failed? && !s.actors[b].phase.Unwound? && !s.actors[b].phase.Stopped?
  {
  }

  /** A kill, or the end of the receive loop by its own decision, gives the actor its final reason at once. */
  lemma DiesNow(s: System, act: Action)
    requires PhaseInv(s) && Enabled(s, act) && (act.Kill? || act.Break?)
    ensures var a, s' := act.actor, Apply(s, act);
      var reason := if act.Kill? then Killed else act.reason;
      && s'.actors == s.actors[a := s.actors[a].(phase := Dying, reason := Some(reason))]
      && s'.deaths == s.deaths + [a]
      && (forall t :: t in s'.tasks <==>
            t in s.tasks && !(s.actors[a].phase.Handling? && s.actors[a].phase.task == t))
      && s'.owner == s.owner && s'.drained == s.drained && s'.issued == s.issued && s'.taken == s.taken
  {
    hide Apply;
    match act
    case Kill(a) => KillEffect(s, a);
    case Break(a, reason) => BreakEffect(s, a, reason);
  }

  /** Nothing reaches an actor at one of its ends: it only loses or gains links by the calls of others. */
  lemma EndsAreFinal(s: System, act: Action, a: ActorId)
    requires PhaseInv(s) && Enabled(s, act)
    requires a in s.actors && (s.actors[a].phase.Failed? || s.actors[a].phase.Unwound? || s.actors[a].phase.Stopped?)
    ensures var s' := Apply(s, act);
      a in s'.actors && s'.actors[a] == s.actors[a].(links := s'.actors[a].links)
  {
    hide Apply, AdvanceTask;
    PhasedTasks(s);
    match act
    case Advance(t) => AdvanceEffect(s, t); AdvanceKeepsEnds(s, t, a);
    case BeginPair(t, kind, b, c) => BeginPairEffect(s, t, kind, b, c);
    case Cancel(t) => CancelEffect(s, t);
    case _ => OthersKeepEnds(s, act, a);
  }

  lemma OthersKeepEnds(s: System, act: Action, a: ActorId)
    requires TasksOk(s) && Enabled(s, act) && !act.Advance? && !act.BeginPair? && !act.Cancel?
    requires a in s.actors && (s.actors[a].phase.Failed? || s.actors[a].phase.Unwound? || s.actors[a].phase.Stopped?)
    ensures var s' := Apply(s, act);
      a in s'.actors && s'.actors[a] == s.actors[a].(links := s'.actors[a].links)
  {
    hide Apply, TasksOk;
    match act
    case Spawn(b) => SpawnEffect(s, b);
    case Break(b, reason) => BreakEffect(s, b, reason);
    case Kill(b) => KillEffect(s, b);
    case BeginDrain(b, t) => BeginDrainEffect(s, b, t);
    case Take(b, t) => TakeEffect(s, b, t);
    case Notify(b, c, delivered) => NotifyEffect(s, b, c, delivered);
    case _ => MoveEffect(s, act);
  }

  lemma AdvanceKeepsEnds(s: System, t: TaskId, a: ActorId)
    requires PhaseInv(s) && CanAdvance(s, t)
    requires a in s.actors && (s.actors[a].phase.Failed? || s.actors[a].phase.Unwound? || s.actors[a].phase.Stopped?)
    ensures var s' := AdvanceTask(s, t);
      a in s'.actors && s'.actors[a] == s.actors[a].(links := s'.actors[a].links)
  {
    hide AdvanceTask, DefaultOnLinkDied;
    assert TaskOk(s, s.tasks[t]) && JobPhaseOk(s, t);
    if QuietStep(s.tasks[t]) {
      QuietEffect(s, t);
    } else if s.tasks[t].job.Removal? {
      RemovalLeaveEffect(s, t);
    } else if s.tasks[t].stage.EditThis? {
      DrainEffect(s, t);
    } else {
      DrainLeaveEffect(s, t);
    }
  }
}
