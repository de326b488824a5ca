/** What each step of the link protocol does, one equation apiece. */
module LinkEffects {
  import opened Common
  import opened StopReasons
  import opened LinkProtocol

  lemma WaitFirstEffect(s: System, t: TaskId)
    requires TasksOk(s) && CanAdvance(s, t) && s.tasks[t].stage.WaitFirst?
    ensures var job := s.tasks[t].job;
      AdvanceTask(s, t) == s.(tasks := s.tasks[t := Task(job, if job.Pair? then WaitSecond else EditThis)],
                              owner := s.owner[job.First() := t])
  {
    assert TaskOk(s, s.tasks[t]);
  }

  lemma WaitSecondEffect(s: System, t: TaskId)
    requires TasksOk(s) && CanAdvance(s, t) && s.tasks[t].stage.WaitSecond?
    ensures var job := s.tasks[t].job;
      && job.Pair?
      && AdvanceTask(s, t) == s.(tasks := s.tasks[t := Task(job, EditThis)], owner := s.owner[job.Second() := t])
  {
    assert TaskOk(s, s.tasks[t]);
  }

  lemma EditCallerEffect(s: System, t: TaskId)
    requires TasksOk(s) && CanAdvance(s, t) && s.tasks[t].stage.EditThis? && s.tasks[t].job.Pair?
    ensures var job := s.tasks[t].job; JobOk(s, job)
    ensures var job := s.tasks[t].job;
      var x := s.actors[job.caller];
      AdvanceTask(s, t) == s.(actors := s.actors[job.caller := x.(links := Edited(job.kind, x.links, job.sibling))],
                              tasks := s.tasks[t := Task(job, EditSibling)])
  {
    assert TaskOk(s, s.tasks[t]);
  }

  lemma EditSiblingEffect(s: System, t: TaskId)
    requires TasksOk(s) && CanAdvance(s, t) && s.tasks[t].stage.EditSibling?
    ensures var job := s.tasks[t].job; job.Pair? && JobOk(s, job)
    ensures var job := s.tasks[t].job;
      var x := s.actors[job.sibling];
      AdvanceTask(s, t) == s.(actors := s.actors[job.sibling := x.(links := Edited(job.kind, x.links, job.caller))],
                              tasks := s.tasks[t := Task(job, DropSecond)])
  {
    assert TaskOk(s, s.tasks[t]);
  }

  lemma RemovalEffect(s: System, t: TaskId)
    requires TasksOk(s) && CanAdvance(s, t) && s.tasks[t].stage.EditThis? && s.tasks[t].job.Removal?
    ensures s.tasks[t].job.actor in s.actors
    ensures var job := s.tasks[t].job;
      var x := s.actors[job.actor];
      AdvanceTask(s, t) == s.(actors := s.actors[job.actor := x.(links := x.links - {job.dead})],
                              tasks := s.tasks[t := Task(job, DropFirst)])
  {
    assert TaskOk(s, s.tasks[t]);
  }

  lemma DrainEffect(s: System, t: TaskId)
    requires TasksOk(s) && CanAdvance(s, t) && s.tasks[t].stage.EditThis? && s.tasks[t].job.Drain?
    ensures s.tasks[t].job.actor in s.actors
    ensures var a := s.tasks[t].job.actor;
      var links := s.actors[a].links;
      AdvanceTask(s, t) == s.(actors := s.actors[a := s.actors[a].(links := {}, toNotify := links)],
                              drained := s.drained[a := links],
                              tasks := s.tasks[t := Task(Drain(a), DropFirst)])
  {
    assert TaskOk(s, s.tasks[t]);
  }

  lemma DropSecondEffect(s: System, t: TaskId)
    requires TasksOk(s) && CanAdvance(s, t) && s.tasks[t].stage.DropSecond?
    ensures var job := s.tasks[t].job;
      && job.Pair?
      && AdvanceTask(s, t) == s.(tasks := s.tasks[t := Task(job, DropFirst)], owner := s.owner - {job.Second()})
  {
    assert TaskOk(s, s.tasks[t]);
  }

  lemma PairLeaveEffect(s: System, t: TaskId)
    requires TasksOk(s) && CanAdvance(s, t) && s.tasks[t].stage.DropFirst? && s.tasks[t].job.Pair?
    ensures AdvanceTask(s, t) == s.(tasks := s.tasks - {t}, owner := s.owner - {s.tasks[t].job.First()})
  {
    assert TaskOk(s, s.tasks[t]);
  }

  lemma DrainLeaveEffect(s: System, t: TaskId)
    requires TasksOk(s) && CanAdvance(s, t) && s.tasks[t].stage.DropFirst? && s.tasks[t].job.Drain?
    ensures s.tasks[t].job.actor in s.actors
    ensures var a := s.tasks[t].job.actor;
      AdvanceTask(s, t) == s.(actors := s.actors[a := s.actors[a].(phase := Stopping)],
                              tasks := s.tasks - {t},
                              owner := s.owner - {a})
  {
    assert TaskOk(s, s.tasks[t]);
  }

  lemma RemovalLeaveEffect(s: System, t: TaskId)
    requires TasksOk(s) && CanAdvance(s, t) && s.tasks[t].stage.DropFirst? && s.tasks[t].job.Removal?
    ensures s.tasks[t].job.actor in s.actors
    ensures var a := s.tasks[t].job.actor;
      var s1 := s.(tasks := s.tasks - {t}, owner := s.owner - {a});
      AdvanceTask(s, t) == if s.actors[a].phase.Handling? then Decided(s1, a) else s1
  {
    assert TaskOk(s, s.tasks[t]);
  }

  lemma SpawnEffect(s: System, a: ActorId)
    requires TasksOk(s) && Enabled(s, Spawn(a))
    ensures Apply(s, Spawn(a)) == s.(actors := s.actors[a := Actor(Starting, {}, [], None, {})])
  {
  }

  /** Actions that only move their actor to another phase. */
  predicate MovesOnly(act: Action) {
    act.Start? || act.StartFails? || act.OnStop? || act.Finish?
  }

  function Onward(act: Action): Phase
    requires MovesOnly(act)
  {
    match act
    case Start(_) => Running
    case StartFails(_) => Failed
    case OnStop(_, panics) => if panics then Unwound else Notifying
    case Finish(_) => Stopped
  }

  lemma MoveEffect(s: System, act: Action)
    requires TasksOk(s) && Enabled(s, act) && MovesOnly(act)
    ensures act.actor in s.actors
    ensures Apply(s, act) == s.(actors := s.actors[act.actor := s.actors[act.actor].(phase := Onward(act))])
  {
  }

  lemma BeginPairEffect(s: System, t: TaskId, kind: Kind, a: ActorId, b: ActorId)
    requires TasksOk(s) && Enabled(s, BeginPair(t, kind, a, b))
    ensures Apply(s, BeginPair(t, kind, a, b)) ==
      if a == b then s else s.(tasks := s.tasks[t := Task(Pair(kind, a, b), WaitFirst)])
  {
  }

  lemma CancelEffect(s: System, t: TaskId)
    requires TasksOk(s) && Enabled(s, Cancel(t))
    ensures Apply(s, Cancel(t)) == s.(tasks := s.tasks - {t}, owner := s.owner - s.tasks[t].Holds())
  {
  }

  lemma TakeEffect(s: System, a: ActorId, t: TaskId)
    requires TasksOk(s) && Enabled(s, Take(a, t))
    ensures var x := s.actors[a];
      Apply(s, Take(a, t)) ==
        s.(actors := s.actors[a := x.(phase := Handling(t, x.mailbox[0]), mailbox := x.mailbox[1..])],
           tasks := s.tasks[t := Task(Removal(a, x.mailbox[0].dead), WaitFirst)],
           taken := s.taken + multiset{(a, x.mailbox[0])})
  {
  }

  lemma BreakEffect(s: System, a: ActorId, reason: StopReason)
    requires TasksOk(s) && Enabled(s, Action.Break(a, reason))
    ensures Apply(s, Action.Break(a, reason)) == Die(s, a, reason)
  {
  }

  lemma KillEffect(s: System, a: ActorId)
    requires TasksOk(s) && Enabled(s, Kill(a))
    ensures Apply(s, Kill(a)) == Die(Interrupted(s, a), a, Killed)
  {
  }

  lemma BeginDrainEffect(s: System, a: ActorId, t: TaskId)
    requires TasksOk(s) && Enabled(s, BeginDrain(a, t))
    ensures Apply(s, BeginDrain(a, t)) ==
      s.(actors := s.actors[a := s.actors[a].(phase := Draining(t))], tasks := s.tasks[t := Task(Drain(a), WaitFirst)])
  {
  }

  lemma NotifyEffect(s: System, a: ActorId, b: ActorId, delivered: bool)
    requires TasksOk(s) && Enabled(s, Notify(a, b, delivered))
    ensures delivered ==> b in s.actors
    ensures s.actors[a].reason.None? ==> Apply(s, Notify(a, b, delivered)) == s
    ensures s.actors[a].reason.Some? ==>
      var why := s.actors[a].reason.value;
      var s1 := Issuing(s, a, b, why);
      Apply(s, Notify(a, b, delivered)) == if delivered then Receiving(s1, b, Notice(a, why)) else s1
  {
  }

  lemma AdvanceEffect(s: System, t: TaskId)
    requires TasksOk(s) && Enabled(s, Advance(t))
    ensures Apply(s, Advance(t)) == AdvanceTask(s, t)
  {
    hide AdvanceTask;
  }
}
