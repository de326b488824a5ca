/** Phases, deaths and notifications of linked actors: what every reachable state keeps. */
module LinkHistory {
  import opened Common
  import opened StopReasons
  import opened LinkProtocol
  import opened LinkEffects
  import opened LinkLocks

  // ---------- Phases ----------

  ghost predicate PhaseOk(s: System, a: ActorId)
    requires a in s.actors
  {
    var x := s.actors[a];
    match x.phase
    case Starting => x.reason.None? && a !in s.drained
    case Failed => x.reason.None? && a !in s.drained
    case Running => x.reason.None? && a !in s.drained
    case Handling(t, n) =>
      x.reason.None? && a !in s.drained && t in s.tasks && s.tasks[t].job == Removal(a, n.dead)
    case Dying => x.reason.Some? && a !in s.drained
    case Draining(t) =>
      x.reason.Some? && t in s.tasks && s.tasks[t].job == Drain(a) && (a in s.drained <==> s.tasks[t].stage.DropFirst?)
    case _ => x.reason.Some? && a in s.drained
  }

  /** The sections run by an actor for itself are the one its phase names. */
  ghost predicate JobPhaseOk(s: System, t: TaskId)
    requires t in s.tasks && TaskOk(s, s.tasks[t])
  {
    match s.tasks[t].job
    case Pair(_, _, _) => true
    case Removal(a, dead) =>
      s.actors[a].phase.Handling? && s.actors[a].phase.task == t && s.actors[a].phase.notice.dead == dead
    case Drain(a) => s.actors[a].phase == Draining(t)
  }

  ghost predicate PhaseInv(s: System) {
    && TasksOk(s)
    && (forall a :: a in s.actors ==> PhaseOk(s, a))
    && (forall t :: t in s.tasks ==> JobPhaseOk(s, t))
    && s.drained.Keys <= s.actors.Keys
  }

  /** The section an actor runs for itself, by its phase. */
  function Own(phase: Phase): Option<TaskId> {
    match phase
    case Handling(t, _) => Some(t)
    case Draining(t) => Some(t)
    case _ => None
  }

  /** Beyond one actor and one section, nothing about phases changed. */
  ghost predicate OnlyTouches(s: System, s': System, a: ActorId, touched: set<TaskId>) {
    && s'.actors.Keys == s.actors.Keys + {a}
    && (forall b :: b in s.actors && b != a ==>
          s'.actors[b].phase == s.actors[b].phase && s'.actors[b].reason == s.actors[b].reason)
    && (forall b :: b != a ==> (b in s'.drained <==> b in s.drained))
    && (forall u :: u !in touched ==> (u in s'.tasks <==> u in s.tasks))
    && (forall u :: u !in touched && u in s.tasks ==> s'.tasks[u] == s.tasks[u])
  }

  lemma PhaseFrame(s: System, s': System, a: ActorId, touched: set<TaskId>)
    requires PhaseInv(s) && TasksOk(s') && OnlyTouches(s, s', a, touched)
    requires forall t :: t in touched && t in s.tasks ==> s.tasks[t].job.Pair? || s.tasks[t].job.actor == a
    requires forall t :: t in touched && t in s'.tasks ==> JobPhaseOk(s', t)
    requires PhaseOk(s', a)
    requires a in s.actors ==>
      s'.actors[a].phase == s.actors[a].phase || Own(s.actors[a].phase).None? || Own(s.actors[a].phase).value in touched
    ensures PhaseInv(s')
  {
    forall b | b in s'.actors ensures PhaseOk(s', b) {
      if b != a {
        assert PhaseOk(s, b);
      }
    }
    forall u | u in s'.tasks ensures JobPhaseOk(s', u) {
      if u !in touched {
        assert TaskOk(s, s.tasks[u]) && JobPhaseOk(s, u);
      }
    }
  }

  // ---------- The steps of a section ----------

  /** Everything but links, tasks and locks stays. */
  ghost predicate SameBeyondLinks(s: System, s': System) {
    && s'.actors.Keys == s.actors.Keys
    && (forall b :: b in s.actors ==> s'.actors[b] == s.actors[b].(links := s'.actors[b].links))
    && s'.drained == s.drained && s'.deaths == s.deaths && s'.issued == s.issued && s'.taken == s.taken
  }

  ghost predicate SameTasksBut(s: System, s': System, t: TaskId) {
    && (forall u :: u != t ==> (u in s'.tasks <==> u in s.tasks))
    && (forall u :: u != t && u in s.tasks ==> s'.tasks[u] == s.tasks[u])
    && (t in s'.tasks ==> t in s.tasks && s'.tasks[t].job == s.tasks[t].job)
  }

  /** All steps but draining, and leaving the section of a dying or remembering actor. */
  predicate QuietStep(task: Task) {
    task.job.Pair? || task.stage.WaitFirst? || (task.job.Removal? && task.stage.EditThis?)
  }

  lemma LockStepEffect(s: System, t: TaskId)
    requires TasksOk(s) && CanAdvance(s, t) && (s.tasks[t].Wants().Some? || s.tasks[t].stage.DropSecond?)
    ensures AdvanceTask(s, t).actors == s.actors && SameBeyondLinks(s, AdvanceTask(s, t))
    ensures SameTasksBut(s, AdvanceTask(s, t), t) && t in AdvanceTask(s, t).tasks
    ensures s.tasks[t].job.Pair? || AdvanceTask(s, t).tasks[t].stage.EditThis?
  {
    hide AdvanceTask;
    match s.tasks[t].stage
    case WaitFirst => WaitFirstEffect(s, t);
    case WaitSecond => WaitSecondEffect(s, t);
    case DropSecond => DropSecondEffect(s, t);
  }

  /** An edit of one actor's links: everything but those and this section's stage stays. */
  ghost predicate EditsOne(s: System, s': System, t: TaskId, a: ActorId) {
    && t in s.tasks && t in s'.tasks && a in s.actors && a in s'.actors
    && s' == s.(actors := s.actors[a := s.actors[a].(links := s'.actors[a].links)], tasks := s.tasks[t := s'.tasks[t]])
    && s'.tasks[t].job == s.tasks[t].job
  }

  lemma EditStepEffect(s: System, t: TaskId)
    requires TasksOk(s) && CanAdvance(s, t) && QuietStep(s.tasks[t])
    requires s.tasks[t].stage.EditThis? || s.tasks[t].stage.EditSibling?
    ensures SameBeyondLinks(s, AdvanceTask(s, t))
    ensures SameTasksBut(s, AdvanceTask(s, t), t) && t in AdvanceTask(s, t).tasks
  {
    hide AdvanceTask, Edited;
    var s', job := AdvanceTask(s, t), s.tasks[t].job;
    if s.tasks[t].stage.EditSibling? {
      EditSiblingEffect(s, t);
      EditsOneIsQuiet(s, s', t, job.sibling);
    } else if job.Pair? {
      EditCallerEffect(s, t);
      EditsOneIsQuiet(s, s', t, job.caller);
    } else {
      RemovalEffect(s, t);
      EditsOneIsQuiet(s, s', t, job.actor);
    }
  }

  lemma EditsOneIsQuiet(s: System, s': System, t: TaskId, a: ActorId)
    requires EditsOne(s, s', t, a)
    ensures SameBeyondLinks(s, s') && SameTasksBut(s, s', t)
  {
  }

  lemma QuietLeaveEffect(s: System, t: TaskId)
    requires TasksOk(s) && CanAdvance(s, t) && s.tasks[t].stage.DropFirst? && s.tasks[t].job.Pair?
    ensures SameBeyondLinks(s, AdvanceTask(s, t)) && SameTasksBut(s, AdvanceTask(s, t), t)
  {
    hide AdvanceTask;
    PairLeaveEffect(s, t);
  }

  lemma QuietEffect(s: System, t: TaskId)
    requires TasksOk(s) && CanAdvance(s, t) && QuietStep(s.tasks[t])
    ensures SameBeyondLinks(s, AdvanceTask(s, t))
    ensures SameTasksBut(s, AdvanceTask(s, t), t)
    ensures s.tasks[t].job.Pair? || t in AdvanceTask(s, t).tasks
    ensures s.tasks[t].job.Drain? ==> AdvanceTask(s, t).tasks[t].stage.EditThis?
  {
    hide AdvanceTask, SameBeyondLinks, SameTasksBut;
    assert TaskOk(s, s.tasks[t]);
    match s.tasks[t].stage
    case EditThis => EditStepEffect(s, t);
    case EditSibling => EditStepEffect(s, t);
    case DropFirst => QuietLeaveEffect(s, t);
    case _ => LockStepEffect(s, t);
  }

  // ---------- Phases are kept ----------

  lemma QuietKeepsPhases(s: System, t: TaskId)
    requires PhaseInv(s) && CanAdvance(s, t) && QuietStep(s.tasks[t])
    ensures PhaseInv(AdvanceTask(s, t))
  {
    hide AdvanceTask;
    AdvanceKeepsTasks(s, t);
    QuietEffect(s, t);
    var job := s.tasks[t].job;
    var a := if job.Pair? then job.caller else job.actor;
    assert TaskOk(s, s.tasks[t]) && PhaseOk(s, a) && JobPhaseOk(s, t);
    PhaseFrame(s, AdvanceTask(s, t), a, {t});
  }

  lemma DrainKeepsPhases(s: System, t: TaskId)
    requires PhaseInv(s) && CanAdvance(s, t) && s.tasks[t].job.Drain? && !QuietStep(s.tasks[t])
    ensures PhaseInv(AdvanceTask(s, t))
  {
    hide AdvanceTask;
    AdvanceKeepsTasks(s, t);
    var a := s.tasks[t].job.actor;
    assert TaskOk(s, s.tasks[t]) && PhaseOk(s, a) && JobPhaseOk(s, t);
    if s.tasks[t].stage.EditThis? {
      DrainEffect(s, t);
    } else {
      DrainLeaveEffect(s, t);
    }
    PhaseFrame(s, AdvanceTask(s, t), a, {t});
  }

  /** An actor that decides about a death goes on running or starts dying; nothing else changes. */
  lemma DecidedPhase(s: System, a: ActorId)
    requires a in s.actors && s.actors[a].phase.Handling?
    ensures var s' := Decided(s, a);
      && s'.tasks == s.tasks && s'.drained == s.drained && OnlyTouches(s, s', a, {})
      && (s'.actors[a].phase.Running? ==> s'.actors[a].reason == s.actors[a].reason)
      && (s'.actors[a].phase.Dying? ==> s'.actors[a].reason.Some?)
      && (s'.actors[a].phase.Running? || s'.actors[a].phase.Dying?)
  {
    hide DefaultOnLinkDied;
  }

  lemma RemovalLeaves(s: System, t: TaskId)
    requires PhaseInv(s) && CanAdvance(s, t) && s.tasks[t].job.Removal? && !QuietStep(s.tasks[t])
    ensures var s', a := AdvanceTask(s, t), s.tasks[t].job.actor;
      && OnlyTouches(s, s', a, {t}) && a in s.actors && PhaseOk(s', a)
      && Own(s.actors[a].phase) == Some(t) && t !in s'.tasks
  {
    hide AdvanceTask, Decided;
    var a := s.tasks[t].job.actor;
    assert TaskOk(s, s.tasks[t]) && PhaseOk(s, a) && JobPhaseOk(s, t);
    RemovalLeaveEffect(s, t);
    hide PhaseInv, TasksOk;
    DecidedPhase(s.(tasks := s.tasks - {t}, owner := s.owner - {a}), a);
  }

  lemma RemovalLeaveKeepsPhases(s: System, t: TaskId)
    requires PhaseInv(s) && CanAdvance(s, t) && s.tasks[t].job.Removal? && !QuietStep(s.tasks[t])
    ensures PhaseInv(AdvanceTask(s, t))
  {
    AdvanceKeepsTasks(s, t);
    RemovalLeaves(s, t);
    hide AdvanceTask, OnlyTouches, PhaseOk, PhaseInv, TasksOk;
    PhaseFrame(s, AdvanceTask(s, t), s.tasks[t].job.actor, {t});
  }

  lemma KillKeepsPhases(s: System, a: ActorId)
    requires PhaseInv(s) && Enabled(s, Kill(a))
    ensures PhaseInv(Apply(s, Kill(a)))
  {
    hide Apply, AdvanceTask;
    ApplyKeepsTasks(s, Kill(a));
    KillEffect(s, a);
    assert PhaseOk(s, a);
    PhaseFrame(s, Apply(s, Kill(a)), a, if s.actors[a].phase.Handling? then {s.actors[a].phase.task} else {});
  }

  lemma BeginPairKeepsPhases(s: System, t: TaskId, kind: Kind, a: ActorId, b: ActorId)
    requires PhaseInv(s) && Enabled(s, BeginPair(t, kind, a, b))
    ensures PhaseInv(Apply(s, BeginPair(t, kind, a, b)))
  {
    hide Apply, AdvanceTask;
    ApplyKeepsTasks(s, BeginPair(t, kind, a, b));
    BeginPairEffect(s, t, kind, a, b);
    assert PhaseOk(s, a);
    PhaseFrame(s, Apply(s, BeginPair(t, kind, a, b)), a, {t});
  }

  lemma CancelKeepsPhases(s: System, t: TaskId)
    requires PhaseInv(s) && Enabled(s, Cancel(t))
    ensures PhaseInv(Apply(s, Cancel(t)))
  {
    hide Apply, AdvanceTask;
    ApplyKeepsTasks(s, Cancel(t));
    CancelEffect(s, t);
    assert TaskOk(s, s.tasks[t]) && PhaseOk(s, s.tasks[t].job.caller);
    PhaseFrame(s, Apply(s, Cancel(t)), s.tasks[t].job.caller, {t});
  }

  /** An actor starts a section of its own. */
  lemma OwnSectionKeepsPhases(s: System, act: Action)
    requires PhaseInv(s) && Enabled(s, act) && (act.Take? || act.BeginDrain?)
    ensures PhaseInv(Apply(s, act))
  {
    hide Apply, AdvanceTask;
    ApplyKeepsTasks(s, act);
    assert PhaseOk(s, act.actor);
    if act.Take? {
      TakeEffect(s, act.actor, act.task);
    } else {
      BeginDrainEffect(s, act.actor, act.task);
    }
    PhaseFrame(s, Apply(s, act), act.actor, {act.task});
  }

  /** Actions of one actor that leave the sections alone. */
  lemma MoveKeepsPhases(s: System, act: Action)
    requires PhaseInv(s) && Enabled(s, act) && MovesOnly(act)
    ensures PhaseInv(Apply(s, act))
  {
    hide Apply, AdvanceTask;
    ApplyKeepsTasks(s, act);
    MoveEffect(s, act);
    assert PhaseOk(s, act.actor);
    PhaseFrame(s, Apply(s, act), act.actor, {});
  }

  lemma BreakKeepsPhases(s: System, a: ActorId, reason: StopReason)
    requires PhaseInv(s) && Enabled(s, Action.Break(a, reason))
    ensures PhaseInv(Apply(s, Action.Break(a, reason)))
  {
    hide Apply, AdvanceTask;
    ApplyKeepsTasks(s, Action.Break(a, reason));
    BreakEffect(s, a, reason);
    assert PhaseOk(s, a);
    PhaseFrame(s, Apply(s, Action.Break(a, reason)), a, {});
  }

  lemma SpawnKeepsPhases(s: System, a: ActorId)
    requires PhaseInv(s) && Enabled(s, Spawn(a))
    ensures PhaseInv(Apply(s, Spawn(a)))
  {
    hide Apply, AdvanceTask;
    ApplyKeepsTasks(s, Spawn(a));
    SpawnEffect(s, a);
    PhaseFrame(s, Apply(s, Spawn(a)), a, {});
  }

  lemma NotifyKeepsPhases(s: System, a: ActorId, b: ActorId, delivered: bool)
    requires PhaseInv(s) && Enabled(s, Notify(a, b, delivered))
    ensures PhaseInv(Apply(s, Notify(a, b, delivered)))
  {
    hide Apply, AdvanceTask;
    ApplyKeepsTasks(s, Notify(a, b, delivered));
    NotifyEffect(s, a, b, delivered);
    assert PhaseOk(s, a);
    PhaseFrame(s, Apply(s, Notify(a, b, delivered)), a, {});
  }

  lemma ApplyKeepsPhases(s: System, act: Action)
    requires PhaseInv(s) && Enabled(s, act)
    ensures PhaseInv(Apply(s, act))
  {
    hide Apply, AdvanceTask;
    match act
    case Advance(t) =>
      AdvanceEffect(s, t);
      if QuietStep(s.tasks[t]) {
        QuietKeepsPhases(s, t);
      } else if s.tasks[t].job.Drain? {
        DrainKeepsPhases(s, t);
      } else {
        RemovalLeaveKeepsPhases(s, t);
      }
    case Kill(a) => KillKeepsPhases(s, a);
    case Break(a, reason) => BreakKeepsPhases(s, a, reason);
    case BeginPair(t, kind, a, b) => BeginPairKeepsPhases(s, t, kind, a, b);
    case Cancel(t) => CancelKeepsPhases(s, t);
    case Take(_, _) => OwnSectionKeepsPhases(s, act);
    case BeginDrain(_, _) => OwnSectionKeepsPhases(s, act);
    case Spawn(a) => SpawnKeepsPhases(s, a);
    case Notify(a, b, delivered) => NotifyKeepsPhases(s, a, b, delivered);
    case _ => MoveKeepsPhases(s, act);
  }

  // ---------- What never changes back ----------

  /** Final reasons, drained links and the order of deaths are written once. */
  ghost predicate Extends(s: System, s': System) {
    && s.actors.Keys <= s'.actors.Keys
    && (forall a :: a in s.actors && s.actors[a].reason.Some? ==> s'.actors[a].reason == s.actors[a].reason)
    && (forall a :: a in s.drained ==> a in s'.drained && s'.drained[a] == s.drained[a])
    && s.deaths <= s'.deaths
  }

  lemma AdvanceExtends(s: System, t: TaskId)
    requires PhaseInv(s) && CanAdvance(s, t)
    ensures Extends(s, AdvanceTask(s, t))
  {
    hide AdvanceTask;
    assert TaskOk(s, s.tasks[t]) && JobPhaseOk(s, t);
    if QuietStep(s.tasks[t]) {
      QuietEffect(s, t);
    } else {
      assert PhaseOk(s, s.tasks[t].job.actor);
      if s.tasks[t].job.Removal? {
        RemovalLeaveEffect(s, t);
      } else if s.tasks[t].stage.EditThis? {
        DrainEffect(s, t);
      } else {
        DrainLeaveEffect(s, t);
      }
    }
  }

  lemma SectionExtends(s: System, act: Action)
    requires TasksOk(s) && Enabled(s, act)
    requires act.BeginPair? || act.Cancel? || act.Take? || act.BeginDrain?
    ensures Extends(s, Apply(s, act))
  {
    hide Apply;
    match act
    case BeginPair(t, kind, a, b) => BeginPairEffect(s, t, kind, a, b);
    case Cancel(t) => CancelEffect(s, t);
    case Take(a, t) => TakeEffect(s, a, t);
    case BeginDrain(a, t) => BeginDrainEffect(s, a, t);
  }

  lemma DeathExtends(s: System, act: Action)
    requires PhaseInv(s) && Enabled(s, act) && (act.Break? || act.Kill?)
    ensures Extends(s, Apply(s, act))
  {
    hide Apply;
    assert PhaseOk(s, act.actor);
    match act
    case Break(a, reason) => BreakEffect(s, a, reason);
    case Kill(a) => KillEffect(s, a);
  }

  lemma MoveExtends(s: System, act: Action)
    requires TasksOk(s) && Enabled(s, act) && MovesOnly(act)
    ensures Extends(s, Apply(s, act))
  {
    hide Apply;
    MoveEffect(s, act);
  }

  lemma SignalExtends(s: System, act: Action)
    requires TasksOk(s) && Enabled(s, act) && (act.Spawn? || act.Notify?)
    ensures Extends(s, Apply(s, act))
  {
    hide Apply;
    match act
    case Spawn(a) => SpawnEffect(s, a);
    case Notify(a, b, delivered) => NotifyEffect(s, a, b, delivered);
  }

  lemma ApplyExtends(s: System, act: Action)
    requires PhaseInv(s) && Enabled(s, act)
    ensures Extends(s, Apply(s, act))
  {
    hide Apply, AdvanceTask, Extends;
    match act
    case Advance(t) => AdvanceEffect(s, t); AdvanceExtends(s, t);
    case Break(_, _) => DeathExtends(s, act);
    case Kill(_) => DeathExtends(s, act);
    case Spawn(_) => SignalExtends(s, act);
    case Notify(_, _, _) => SignalExtends(s, act);
    case BeginPair(_, _, _, _) => SectionExtends(s, act);
    case Cancel(_) => SectionExtends(s, act);
    case Take(_, _) => SectionExtends(s, act);
    case BeginDrain(_, _) => SectionExtends(s, act);
    case _ => MoveExtends(s, act);
  }
}
