/** Nothing is stuck for ever: locked sections come to an end, and every actor can come to one of its ends. */
module LinkProgress {
  import opened Common
  import opened StopReasons
  import opened LinkProtocol
  import opened LinkEffects
  import opened LinkLocks
  import opened LinkHistory
  import opened LinkSymmetry
  import opened LinkTheorems
  import opened LinkLate
  import opened LinkCascades

  // ---------- Sections ----------

  /** The steps a section has left, at most. */
  function StepsLeft(stage: Stage): nat {
    match stage
    case WaitFirst => 6
    case WaitSecond => 5
    case EditThis => 4
    case EditSibling => 3
    case DropSecond => 2
    case DropFirst => 1
  }

  ghost function Work(tasks: map<TaskId, Task>): nat
    decreases |tasks|
  {
    if tasks == map[] then 0
    else
      var t :| t in tasks;
      StepsLeft(tasks[t].stage) + Work(tasks - {t})
  }

  lemma {:induction false} WorkOf(tasks: map<TaskId, Task>, t: TaskId)
    requires t in tasks
    ensures Work(tasks) == StepsLeft(tasks[t].stage) + Work(tasks - {t})
    decreases |tasks|
  {
    var u :| u in tasks && Work(tasks) == StepsLeft(tasks[u].stage) + Work(tasks - {u});
    if u != t {
      WorkOf(tasks - {u}, t);
      WorkOf(tasks - {t}, u);
      assert tasks - {u} - {t} == tasks - {t} - {u};
    }
  }

  lemma AdvanceWorks(s: System, t: TaskId)
    requires TasksOk(s) && CanAdvance(s, t)
    ensures Work(AdvanceTask(s, t).tasks) < Work(s.tasks)
  {
    var s' := AdvanceTask(s, t);
    WorkOf(s.tasks, t);
    AdvanceMoves(s, t);
    if t in s'.tasks {
      WorkOf(s'.tasks, t);
    }
    hide Work, AdvanceTask;
  }

  lemma AdvanceMoves(s: System, t: TaskId)
    requires TasksOk(s) && CanAdvance(s, t)
    ensures AdvanceTask(s, t).tasks - {t} == s.tasks - {t}
    ensures t in AdvanceTask(s, t).tasks ==>
      StepsLeft(AdvanceTask(s, t).tasks[t].stage) < StepsLeft(s.tasks[t].stage)
  {
    hide AdvanceTask, Decided;
    var job := s.tasks[t].job;
    assert TaskOk(s, s.tasks[t]);
    match s.tasks[t].stage
    case WaitFirst => WaitFirstEffect(s, t);
    case WaitSecond => WaitSecondEffect(s, t);
    case EditThis => EditMoves(s, t);
    case EditSibling => EditSiblingEffect(s, t);
    case DropSecond => DropSecondEffect(s, t);
    case DropFirst => LeaveMoves(s, t);
  }

  lemma EditMoves(s: System, t: TaskId)
    requires TasksOk(s) && CanAdvance(s, t) && s.tasks[t].stage.EditThis?
    ensures var job := s.tasks[t].job;
      AdvanceTask(s, t).tasks == s.tasks[t := Task(job, if job.Pair? then EditSibling else DropFirst)]
  {
    hide AdvanceTask;
    match s.tasks[t].job
    case Pair(_, _, _) => EditCallerEffect(s, t);
    case Removal(_, _) => RemovalEffect(s, t);
    case Drain(_) => DrainEffect(s, t);
  }

  lemma LeaveMoves(s: System, t: TaskId)
    requires TasksOk(s) && CanAdvance(s, t) && s.tasks[t].stage.DropFirst?
    ensures AdvanceTask(s, t).tasks == s.tasks - {t}
  {
    hide AdvanceTask, DefaultOnLinkDied;
    match s.tasks[t].job
    case Pair(_, _, _) => PairLeaveEffect(s, t);
    case Removal(_, _) => RemovalLeaveEffect(s, t);
    case Drain(_) => DrainLeaveEffect(s, t);
  }

  predicate OnlyAdvances(acts: seq<Action>) {
    forall act :: act in acts ==> act.Advance?
  }

  /** However the sections are scheduled, they cannot go on for ever. */
  lemma {:induction false} SectionsEnd(s: System, acts: seq<Action>)
    requires OnlyAdvances(acts) && Go(s, acts).Some?
    ensures |acts| + Work(Go(s, acts).value.tasks) <= Work(s.tasks)
    decreases |acts|
  {
    hide Work;
    if acts != [] {
      assert acts[0] in acts;
      AdvanceWorks(s, acts[0].task);
      AdvanceEffect(s, acts[0].task);
      SectionsEnd(Apply(s, acts[0]), acts[1..]);
      hide AdvanceTask, Apply;
    }
  }

  /** From any reachable state the sections in progress can all be brought to their end, by themselves. */
  lemma {:induction false} SectionsCanFinish(s: System) returns (acts: seq<Action>)
    requires Reachable(s)
    ensures OnlyAdvances(acts) && Go(s, acts).Some? && Go(s, acts).value.tasks == map[]
    decreases Work(s.tasks)
  {
    hide Work, AdvanceTask, Apply;
    if s.tasks == map[] {
      return [];
    }
    assert TasksOk(s) by { ReachableKeepsInv(s); }
    LocksNeverDeadlock(s);
    hide Reachable;
    var t :| Enabled(s, Advance(t));
    AdvanceWorks(s, t);
    AdvanceEffect(s, t);
    Reaches(s, Advance(t));
    var rest := SectionsCanFinish(Apply(s, Advance(t)));
    acts := [Advance(t)] + rest;
    assert acts[1..] == rest;
  }

  // ---------- Actors ----------

  /** The ends of an actor: on_start failed, on_stop panicked, or it stopped and told its siblings. */
  predicate AtItsEnd(x: Actor) {
    x.phase.Failed? || x.phase.Unwound? || x.phase.Stopped?
  }

  lemma FinishesTelling(s: System, a: ActorId) returns (s': System)
    requires TasksOk(s) && a in s.actors && s.actors[a].phase.Notifying? && s.actors[a].reason.Some?
    ensures Leads(s, s') && a in s'.actors && s'.actors[a].phase.Stopped? && s'.actors[a].reason == s.actors[a].reason
    decreases |s.actors[a].toNotify|
  {
    hide Apply, Leads;
    if s.actors[a].toNotify == {} {
      LeadsByOne(s, Finish(a));
      MoveEffect(s, Finish(a));
      s' := Apply(s, Finish(a));
    } else {
      var b :| b in s.actors[a].toNotify;
      LeadsByOne(s, Notify(a, b, false));
      NotifyEffect(s, a, b, false);
      var s1 := Apply(s, Notify(a, b, false));
      s' := FinishesTelling(s1, a);
      LeadsOn(s, s1, s');
    }
  }

  lemma FinishesStopping(s: System, a: ActorId) returns (s': System)
    requires TasksOk(s) && a in s.actors && s.actors[a].phase.Stopping? && s.actors[a].reason.Some?
    ensures Leads(s, s') && a in s'.actors && s'.actors[a].phase.Stopped? && s'.actors[a].reason == s.actors[a].reason
  {
    hide Apply, Leads;
    LeadsByOne(s, Action.OnStop(a, false));
    MoveEffect(s, Action.OnStop(a, false));
    var s1 := Apply(s, Action.OnStop(a, false));
    s' := FinishesTelling(s1, a);
    LeadsOn(s, s1, s');
  }

  lemma FinishesDying(s: System, a: ActorId) returns (s': System)
    requires TasksOk(s) && s.tasks == map[] && s.owner == map[]
    requires a in s.actors && s.actors[a].phase.Dying? && s.actors[a].reason.Some?
    ensures Leads(s, s') && a in s'.actors && s'.actors[a].phase.Stopped? && s'.actors[a].reason == s.actors[a].reason
  {
    DrainsItsLinks(s, a, 0);
    var x := s.actors[a];
    var s1 := s.(actors := s.actors[a := x.(phase := Stopping, links := {}, toNotify := x.links)],
                 drained := s.drained[a := x.links]);
    hide Leads;
    s' := FinishesStopping(s1, a);
    LeadsOn(s, s1, s');
  }

  lemma FinishesRunning(s: System, a: ActorId) returns (s': System)
    requires TasksOk(s) && s.tasks == map[] && s.owner == map[]
    requires a in s.actors && s.actors[a].phase.Running?
    ensures Leads(s, s') && a in s'.actors && s'.actors[a].phase.Stopped?
  {
    hide Apply, Leads;
    LeadsByOne(s, Kill(a));
    KillEffect(s, a);
    s' := FinishesDying(Apply(s, Kill(a)), a);
    LeadsOn(s, Apply(s, Kill(a)), s');
  }

  lemma FinishesStarting(s: System, a: ActorId) returns (s': System)
    requires TasksOk(s) && s.tasks == map[] && s.owner == map[]
    requires a in s.actors && s.actors[a].phase.Starting?
    ensures Leads(s, s') && a in s'.actors && s'.actors[a].phase.Stopped?
  {
    hide Apply, Leads;
    LeadsByOne(s, Start(a));
    MoveEffect(s, Start(a));
    s' := FinishesRunning(Apply(s, Start(a)), a);
    LeadsOn(s, Apply(s, Start(a)), s');
  }

  /** With no section in progress an actor can be brought to its end, whatever it was about to do. */
  lemma FinishesAlone(s: System, a: ActorId) returns (s': System)
    requires Reachable(s) && s.tasks == map[] && a in s.actors
    ensures Leads(s, s') && a in s'.actors && AtItsEnd(s'.actors[a])
  {
    FreeLocks(s);
    ReachableKeepsInv(s);
    assert PhaseOk(s, a);
    hide Reachable, Inv, Leads;
    match s.actors[a].phase
    case Starting => s' := FinishesStarting(s, a);
    case Running => s' := FinishesRunning(s, a);
    case Dying => s' := FinishesDying(s, a);
    case Stopping => s' := FinishesStopping(s, a);
    case Notifying => s' := FinishesTelling(s, a);
    case _ => s' := s; NowhereLeads(s);
  }

  lemma NowhereLeads(s: System)
    ensures Leads(s, s)
  {
    assert Go(s, []) == Some(s);
  }

  lemma AdvancesKeepActors(s: System, acts: seq<Action>)
    requires OnlyAdvances(acts) && Go(s, acts).Some?
    ensures Go(s, acts).value.actors.Keys == s.actors.Keys
    decreases |acts|
  {
    if acts != [] {
      assert acts[0] in acts;
      AdvanceEffect(s, acts[0].task);
      AdvanceKeepsActors(s, acts[0].task);
      AdvancesKeepActors(Apply(s, acts[0]), acts[1..]);
      hide Apply, AdvanceTask;
    }
  }

  lemma AdvanceKeepsActors(s: System, t: TaskId)
    requires TasksOk(s) && CanAdvance(s, t)
    ensures AdvanceTask(s, t).actors.Keys == s.actors.Keys
  {
    assert TaskOk(s, s.tasks[t]);
  }

  /**
   No actor is ever stuck: from every reachable state, whatever it and all others are in the middle of, there is a
   run in which it comes to one of its ends. Of the others it only needs the locked sections in progress to end.
   */
  lemma {:induction false} NobodyIsStuck(s: System, a: ActorId) returns (s': System)
    requires Reachable(s) && a in s.actors
    ensures Leads(s, s') && a in s'.actors && AtItsEnd(s'.actors[a])
  {
    var acts := SectionsCanFinish(s);
    var s1 := Go(s, acts).value;
    AdvancesKeepActors(s, acts);
    assert Leads(s, s1);
    LeadsToReachable(s, s1);
    hide Leads, Reachable, Go;
    s' := FinishesAlone(s1, a);
    LeadsOn(s, s1, s');
  }

  // ---------- Every end ----------

  /** A running actor can be killed, and can break its loop normally or by a panic. */
  predicate CanEndBy(reason: StopReason) {
    reason.Killed? || reason.Normal? || reason.Panicked?
  }

  function EndingBy(a: ActorId, reason: StopReason): Action {
    if reason.Killed? then Kill(a) else Action.Break(a, reason)
  }

  lemma DiesBy(s: System, a: ActorId, reason: StopReason)
    requires TasksOk(s) && a in s.actors && s.actors[a].phase.Running? && CanEndBy(reason)
    ensures Leads(s, Die(s, a, reason)) && TasksOk(Die(s, a, reason))
  {
    LeadsByOne(s, EndingBy(a, reason));
    if reason.Killed? {
      KillEffect(s, a);
    } else {
      BreakEffect(s, a, reason);
    }
    hide Leads, Apply;
  }

  /** From wherever no section is in progress, a running actor can stop for every one of these reasons. */
  lemma {:induction false} CanStopBy(s: System, a: ActorId, reason: StopReason) returns (s': System)
    requires Reachable(s) && s.tasks == map[] && a in s.actors && s.actors[a].phase.Running? && CanEndBy(reason)
    ensures Reachable(s') && Leads(s, s')
    ensures a in s'.actors && s'.actors[a].phase.Stopped? && s'.actors[a].reason == Some(reason)
  {
    FreeLocks(s);
    DiesBy(s, a, reason);
    hide Leads, Reachable;
    s' := FinishesDying(Die(s, a, reason), a);
    LeadsOn(s, Die(s, a, reason), s');
    LeadsToReachable(s, s');
  }

  /** Its on_stop can panic, whatever the reason; then it never tells its siblings. */
  lemma {:induction false} CanUnwind(s: System, a: ActorId, reason: StopReason) returns (s': System)
    requires Reachable(s) && s.tasks == map[] && a in s.actors && s.actors[a].phase.Running? && CanEndBy(reason)
    ensures Reachable(s') && Leads(s, s')
    ensures a in s'.actors && s'.actors[a].phase.Unwound? && s'.actors[a].reason == Some(reason)
  {
    FreeLocks(s);
    DiesBy(s, a, reason);
    hide Leads, Reachable;
    var s1 := Die(s, a, reason);
    DrainsItsLinks(s1, a, 0);
    var x := s1.actors[a];
    var s2 := s1.(actors := s1.actors[a := x.(phase := Stopping, links := {}, toNotify := x.links)],
                  drained := s1.drained[a := x.links]);
    LeadsOn(s, s1, s2);
    LeadsByOne(s2, Action.OnStop(a, true));
    MoveEffect(s2, Action.OnStop(a, true));
    s' := Apply(s2, Action.OnStop(a, true));
    hide Apply;
    LeadsOn(s, s2, s');
    LeadsToReachable(s, s');
  }

  /** A starting actor's on_start can fail; it keeps its links and has no reason. */
  lemma CanFail(s: System, a: ActorId)
    requires Reachable(s) && a in s.actors && s.actors[a].phase.Starting?
    ensures TasksOk(s) && Enabled(s, StartFails(a))
    ensures var s' := Apply(s, StartFails(a));
      s' == s.(actors := s.actors[a := s.actors[a].(phase := Failed)]) && s.actors[a].reason.None?
  {
    ReachableKeepsInv(s);
    assert PhaseOk(s, a);
    hide Inv, Reachable;
    MoveEffect(s, StartFails(a));
  }

  // ---------- Interruptions ----------

  /** A kill gets through to an actor that waits to forget a dead sibling; it dies of the kill, not of the notice. */
  lemma {:induction false} KilledWhileWaiting(s: System, a: ActorId)
    requires Reachable(s) && a in s.actors && s.actors[a].phase.Handling?
    requires var t := s.actors[a].phase.task; t in s.tasks && s.tasks[t].stage.WaitFirst?
    ensures TasksOk(s) && Enabled(s, Kill(a))
    ensures var t, s' := s.actors[a].phase.task, Apply(s, Kill(a));
      && s'.actors[a] == s.actors[a].(phase := Dying, reason := Some(Killed))
      && s'.tasks == s.tasks - {t} && s'.owner == s.owner && s'.deaths == s.deaths + [a]
      && LinksOf(s', a) == LinksOf(s, a)
  {
    ReachableKeepsInv(s);
    assert PhaseOk(s, a);
    hide Inv, Reachable;
    KillEffect(s, a);
  }

  /** A link or unlink dropped while it waits for a lock gives back what it owns and has changed no links. */
  lemma {:induction false} CancelledCallLeavesNothing(s: System, t: TaskId)
    requires Reachable(s) && t in s.tasks && s.tasks[t].job.Pair?
    requires s.tasks[t].stage.WaitFirst? || s.tasks[t].stage.WaitSecond?
    ensures TasksOk(s) && Enabled(s, Cancel(t))
    ensures var s' := Apply(s, Cancel(t));
      && s'.actors == s.actors && s'.tasks == s.tasks - {t}
      && forall lock :: lock in s'.owner <==> lock in s.owner && s.owner[lock] != t
  {
    assert LockInv(s) by { ReachableKeepsInv(s); }
    CancelEffect(s, t);
    OwnedAreHeld(s.tasks, s.owner, t);
    hide Apply, Reachable, LockInv;
  }

  lemma OwnedAreHeld(tasks: map<TaskId, Task>, owner: map<ActorId, TaskId>, t: TaskId)
    requires OwnersOk(tasks, owner) && t in tasks
    ensures forall lock :: lock in tasks[t].Holds() <==> lock in owner && owner[lock] == t
  {
  }
}
