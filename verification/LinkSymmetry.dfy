/** Links are mutual between actors that have not drained theirs. */
module LinkSymmetry {
  import opened Common
  import opened LinkProtocol
  import opened LinkEffects
  import opened LinkLocks
  import opened LinkHistory
  import opened LinkCauses

  function LinksOf(s: System, a: ActorId): set<ActorId>
    requires a in s.actors
  {
    s.actors[a].links
  }

  /** A section linking or unlinking these two is between its two map operations. */
  ghost predicate Between(s: System, a: ActorId, b: ActorId) {
    exists t :: t in s.tasks && HalfDone(s.tasks[t]) && {s.tasks[t].job.caller, s.tasks[t].job.sibling} == {a, b}
  }

  predicate HalfDone(task: Task) {
    task.job.Pair? && task.stage.EditSibling?
  }

  /** Half-way, the first side already shows the outcome. */
  ghost predicate HalfOk(s: System, task: Task) {
    HalfDone(task) && TaskOk(s, task) ==>
      (task.job.sibling in LinksOf(s, task.job.caller) <==> task.job.kind == Link)
  }

  ghost predicate MutualOk(s: System, a: ActorId, b: ActorId)
    requires a in s.actors && b in s.actors
  {
    a in s.drained || b in s.drained || Between(s, a, b) || (b in LinksOf(s, a) <==> a in LinksOf(s, b))
  }

  ghost predicate SymmetryInv(s: System) {
    && (forall a :: a in s.actors ==> LinksOf(s, a) <= s.actors.Keys - {a})
    && (forall t :: t in s.tasks ==> HalfOk(s, s.tasks[t]))
    && (forall a, b :: a in s.actors && b in s.actors ==> MutualOk(s, a, b))
  }

  /** Nothing about links or half-done sections changed; draining may have. */
  lemma SymmetryFrame(s: System, s': System)
    requires SymmetryInv(s) && TasksOk(s) && TasksOk(s')
    requires s.actors.Keys <= s'.actors.Keys && s.drained.Keys <= s'.drained.Keys
    requires forall a :: a in s.actors ==> LinksOf(s', a) == LinksOf(s, a)
    requires forall a :: a in s'.actors && a !in s.actors ==> LinksOf(s', a) == {}
    requires forall t :: t in s.tasks && HalfDone(s.tasks[t]) ==> t in s'.tasks && s'.tasks[t] == s.tasks[t]
    requires forall t :: t in s'.tasks && HalfDone(s'.tasks[t]) ==> t in s.tasks && s'.tasks[t] == s.tasks[t]
    ensures SymmetryInv(s')
  {
    forall t | t in s'.tasks ensures HalfOk(s', s'.tasks[t]) {
      if HalfDone(s'.tasks[t]) {
        assert HalfOk(s, s.tasks[t]) && TaskOk(s, s.tasks[t]);
      }
    }
    forall a, b | a in s'.actors && b in s'.actors ensures MutualOk(s', a, b) {
      if a in s.actors && b in s.actors {
        assert MutualOk(s, a, b);
      }
    }
  }

  /** Whoever edits an actor's links owns its lock, so no half-done section starts from that actor. */
  lemma EditorIsAlone(s: System, t: TaskId, u: TaskId, a: ActorId)
    requires LockInv(s) && t in s.tasks && a in s.tasks[t].Holds()
    requires u in s.tasks && HalfDone(s.tasks[u]) && (s.tasks[u].job.caller == a || s.tasks[u].job.sibling == a)
    ensures u == t
  {
    assert s.tasks[u].Holds() == s.tasks[u].job.Locks();
    assert s.owner[a] == u && s.owner[a] == t;
  }

  lemma FirstEditKeepsSymmetry(s: System, t: TaskId)
    requires LockInv(s) && SymmetryInv(s) && CanAdvance(s, t) && s.tasks[t].job.Pair? && s.tasks[t].stage.EditThis?
    ensures SymmetryInv(AdvanceTask(s, t))
  {
    var task, s' := s.tasks[t], AdvanceTask(s, t);
    assert TaskOk(s, task);
    var job := task.job;
    var a, b := job.caller, job.sibling;
    hide AdvanceTask;
    EditCallerEffect(s, t);
    forall u | u in s'.tasks ensures HalfOk(s', s'.tasks[u]) {
      if u != t && HalfDone(s.tasks[u]) {
        assert HalfOk(s, s.tasks[u]) && TaskOk(s, s.tasks[u]);
        if s.tasks[u].job.caller == a {
          EditorIsAlone(s, t, u, a);
        }
      }
    }
    forall x, y | x in s'.actors && y in s'.actors ensures MutualOk(s', x, y) {
      if {x, y} == {a, b} {
        assert t in s'.tasks && HalfDone(s'.tasks[t]);
      } else {
        MutualElsewhere(s, s', t, x, y);
      }
    }
  }

  /** An edit between two actors says nothing about any other two. */
  lemma MutualElsewhere(s: System, s': System, t: TaskId, x: ActorId, y: ActorId)
    requires s'.actors.Keys == s.actors.Keys && s'.drained == s.drained && x in s.actors && y in s.actors
    requires MutualOk(s, x, y)
    requires t in s.tasks && s.tasks[t].job.Pair? && {s.tasks[t].job.caller, s.tasks[t].job.sibling} != {x, y}
    requires forall u :: u != t && u in s.tasks ==> u in s'.tasks && s'.tasks[u] == s.tasks[u]
    requires y in LinksOf(s', x) <==> y in LinksOf(s, x)
    requires x in LinksOf(s', y) <==> x in LinksOf(s, y)
    ensures MutualOk(s', x, y)
  {
    if Between(s, x, y) {
      var u :| u in s.tasks && HalfDone(s.tasks[u]) && {s.tasks[u].job.caller, s.tasks[u].job.sibling} == {x, y};
      assert u in s'.tasks && HalfDone(s'.tasks[u]);
    }
  }

  lemma SecondEditKeepsSymmetry(s: System, t: TaskId)
    requires LockInv(s) && SymmetryInv(s) && CanAdvance(s, t) && s.tasks[t].job.Pair? && s.tasks[t].stage.EditSibling?
    ensures SymmetryInv(AdvanceTask(s, t))
  {
    var task, s' := s.tasks[t], AdvanceTask(s, t);
    assert TaskOk(s, task);
    var job := task.job;
    var a, b := job.caller, job.sibling;
    hide AdvanceTask;
    EditSiblingEffect(s, t);
    forall u | u in s'.tasks ensures HalfOk(s', s'.tasks[u]) {
      if u != t && HalfDone(s.tasks[u]) {
        assert HalfOk(s, s.tasks[u]) && TaskOk(s, s.tasks[u]);
        if s.tasks[u].job.caller == b {
          EditorIsAlone(s, t, u, b);
        }
      }
    }
    assert HalfOk(s, task);
    forall x, y | x in s'.actors && y in s'.actors ensures MutualOk(s', x, y) {
      if {x, y} == {a, b} {
        assert (x == a && y == b) || (x == b && y == a);
      } else {
        MutualElsewhere(s, s', t, x, y);
      }
    }
  }

  /** An actor edits its own links towards drained siblings only, or is drained by the edit. */
  lemma OwnEditKeepsSymmetry(s: System, s': System, t: TaskId, a: ActorId)
    requires LockInv(s) && SymmetryInv(s) && TasksOk(s') && a in s.actors
    requires t in s.tasks && a in s.tasks[t].Holds() && !s.tasks[t].job.Pair?
    requires s'.actors.Keys == s.actors.Keys && s.drained.Keys <= s'.drained.Keys
    requires forall b :: b in s.actors && b != a ==> LinksOf(s', b) == LinksOf(s, b)
    requires LinksOf(s', a) <= LinksOf(s, a)
    requires a in s'.drained || forall b :: b in LinksOf(s, a) && b !in LinksOf(s', a) ==> b in s'.drained
    requires forall u :: u != t ==> (u in s'.tasks <==> u in s.tasks)
    requires forall u :: u != t && u in s.tasks ==> s'.tasks[u] == s.tasks[u]
    requires t in s'.tasks ==> !s'.tasks[t].job.Pair?
    ensures SymmetryInv(s')
  {
    forall u | u in s'.tasks ensures HalfOk(s', s'.tasks[u]) {
      if HalfDone(s'.tasks[u]) {
        assert HalfOk(s, s.tasks[u]) && TaskOk(s, s.tasks[u]);
        if s.tasks[u].job.caller == a {
          EditorIsAlone(s, t, u, a);
        }
      }
    }
    forall x, y | x in s'.actors && y in s'.actors ensures MutualOk(s', x, y) {
      assert MutualOk(s, x, y);
      if Between(s, x, y) {
        var u :| u in s.tasks && HalfDone(s.tasks[u]) && {s.tasks[u].job.caller, s.tasks[u].job.sibling} == {x, y};
        assert u in s'.tasks && HalfDone(s'.tasks[u]);
      }
    }
  }

  // ---------- Every step ----------

  lemma NotHalfWay(s: System, t: TaskId)
    requires TasksOk(s) && CanAdvance(s, t) && (s.tasks[t].Wants().Some? || s.tasks[t].stage.DropSecond?)
    ensures t in AdvanceTask(s, t).tasks && AdvanceTask(s, t).tasks[t].stage != EditSibling
  {
    hide AdvanceTask;
    match s.tasks[t].stage
    case WaitFirst => WaitFirstEffect(s, t);
    case WaitSecond => WaitSecondEffect(s, t);
    case DropSecond => DropSecondEffect(s, t);
  }

  lemma LockKeepsSymmetry(s: System, t: TaskId)
    requires LockInv(s) && SymmetryInv(s) && CanAdvance(s, t)
    requires s.tasks[t].Wants().Some? || s.tasks[t].stage.DropSecond?
    ensures SymmetryInv(AdvanceTask(s, t))
  {
    hide AdvanceTask, SymmetryInv;
    LockStepEffect(s, t);
    AdvanceKeepsTasks(s, t);
    assert s.tasks[t].job.Pair? ==> AdvanceTask(s, t).tasks[t].stage != EditSibling by {
      NotHalfWay(s, t);
    }
    SymmetryFrame(s, AdvanceTask(s, t));
  }

  lemma LeaveKeepsSymmetry(s: System, t: TaskId)
    requires TasksOk(s) && SymmetryInv(s) && CanAdvance(s, t) && s.tasks[t].stage.DropFirst?
    ensures SymmetryInv(AdvanceTask(s, t))
  {
    hide AdvanceTask, SymmetryInv;
    AdvanceKeepsTasks(s, t);
    LeaveEffect(s, t);
    SymmetryFrame(s, AdvanceTask(s, t));
  }

  lemma DrainKeepsSymmetry(s: System, t: TaskId)
    requires LockInv(s) && SymmetryInv(s) && CanAdvance(s, t)
    requires s.tasks[t].job.Drain? && s.tasks[t].stage.EditThis?
    ensures SymmetryInv(AdvanceTask(s, t))
  {
    hide AdvanceTask, SymmetryInv;
    AdvanceKeepsTasks(s, t);
    DrainEffect(s, t);
    OwnEditKeepsSymmetry(s, AdvanceTask(s, t), t, s.tasks[t].job.actor);
  }

  lemma RemovalKeepsSymmetry(s: System, t: TaskId)
    requires LockInv(s) && PhaseInv(s) && CauseInv(s) && SymmetryInv(s) && CanAdvance(s, t)
    requires s.tasks[t].job.Removal? && s.tasks[t].stage.EditThis?
    ensures SymmetryInv(AdvanceTask(s, t))
  {
    hide AdvanceTask, SymmetryInv;
    AdvanceKeepsTasks(s, t);
    RemovalEffect(s, t);
    assert s.tasks[t].job.dead in s.drained by {
      assert TaskOk(s, s.tasks[t]) && JobPhaseOk(s, t) && CauseOk(s, s.tasks[t].job.actor);
    }
    hide PhaseInv, CauseInv;
    OwnEditKeepsSymmetry(s, AdvanceTask(s, t), t, s.tasks[t].job.actor);
  }

  lemma AdvanceKeepsSymmetry(s: System, t: TaskId)
    requires LockInv(s) && PhaseInv(s) && CauseInv(s) && SymmetryInv(s) && CanAdvance(s, t)
    ensures SymmetryInv(AdvanceTask(s, t))
  {
    hide AdvanceTask, SymmetryInv, PhaseInv, CauseInv;
    assert TaskOk(s, s.tasks[t]);
    match s.tasks[t].stage
    case EditThis =>
      if s.tasks[t].job.Pair? {
        FirstEditKeepsSymmetry(s, t);
      } else if s.tasks[t].job.Drain? {
        DrainKeepsSymmetry(s, t);
      } else {
        RemovalKeepsSymmetry(s, t);
      }
    case EditSibling => SecondEditKeepsSymmetry(s, t);
    case DropFirst => LeaveKeepsSymmetry(s, t);
    case _ => LockKeepsSymmetry(s, t);
  }

  lemma KillKeepsSymmetry(s: System, a: ActorId)
    requires PhaseInv(s) && SymmetryInv(s) && Enabled(s, Kill(a))
    ensures SymmetryInv(Apply(s, Kill(a)))
  {
    hide Apply, SymmetryInv;
    ApplyKeepsTasks(s, Kill(a));
    KillEffect(s, a);
    assert PhaseOk(s, a);
    SymmetryFrame(s, Apply(s, Kill(a)));
  }

  lemma NotifyKeepsSymmetry(s: System, a: ActorId, b: ActorId, delivered: bool)
    requires TasksOk(s) && SymmetryInv(s) && Enabled(s, Notify(a, b, delivered))
    ensures SymmetryInv(Apply(s, Notify(a, b, delivered)))
  {
    hide Apply, SymmetryInv;
    ApplyKeepsTasks(s, Notify(a, b, delivered));
    NotifyEffect(s, a, b, delivered);
    SymmetryFrame(s, Apply(s, Notify(a, b, delivered)));
  }

  lemma PairKeepsSymmetry(s: System, act: Action)
    requires TasksOk(s) && SymmetryInv(s) && Enabled(s, act) && (act.BeginPair? || act.Cancel?)
    ensures SymmetryInv(Apply(s, act))
  {
    hide Apply, SymmetryInv;
    ApplyKeepsTasks(s, act);
    match act {
    case BeginPair(t, kind, a, b) => BeginPairEffect(s, t, kind, a, b);
    case Cancel(t) => CancelEffect(s, t);
    }
    SymmetryFrame(s, Apply(s, act));
  }

  lemma OwnStartKeepsSymmetry(s: System, act: Action)
    requires TasksOk(s) && SymmetryInv(s) && Enabled(s, act) && (act.Take? || act.BeginDrain?)
    ensures SymmetryInv(Apply(s, act))
  {
    hide Apply, SymmetryInv;
    ApplyKeepsTasks(s, act);
    match act {
    case Take(a, t) => TakeEffect(s, a, t);
    case BeginDrain(a, t) => BeginDrainEffect(s, a, t);
    }
    SymmetryFrame(s, Apply(s, act));
  }

  lemma ActorKeepsSymmetry(s: System, act: Action)
    requires TasksOk(s) && SymmetryInv(s) && Enabled(s, act) && (act.Spawn? || act.Break? || MovesOnly(act))
    ensures SymmetryInv(Apply(s, act))
  {
    hide Apply, SymmetryInv;
    ApplyKeepsTasks(s, act);
    match act {
    case Spawn(a) => SpawnEffect(s, a);
    case Break(a, reason) => BreakEffect(s, a, reason);
    case _ => MoveEffect(s, act);
    }
    SymmetryFrame(s, Apply(s, act));
  }

  lemma ApplyKeepsSymmetry(s: System, act: Action)
    requires LockInv(s) && PhaseInv(s) && CauseInv(s) && SymmetryInv(s) && Enabled(s, act)
    ensures SymmetryInv(Apply(s, act))
  {
    hide Apply, AdvanceTask, SymmetryInv, PhaseInv, CauseInv;
    match act
    case Advance(t) => AdvanceEffect(s, t); AdvanceKeepsSymmetry(s, t);
    case Kill(a) => KillKeepsSymmetry(s, a);
    case Notify(a, b, delivered) => NotifyKeepsSymmetry(s, a, b, delivered);
    case BeginPair(_, _, _, _) => PairKeepsSymmetry(s, act);
    case Cancel(_) => PairKeepsSymmetry(s, act);
    case Take(_, _) => OwnStartKeepsSymmetry(s, act);
    case BeginDrain(_, _) => OwnStartKeepsSymmetry(s, act);
    case _ => ActorKeepsSymmetry(s, act);
  }
}
