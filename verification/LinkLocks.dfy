/** The links locks: who holds what, and why nobody waits forever on anybody. */
module LinkLocks {
  import opened Common
  import opened LinkProtocol
  import opened LinkEffects

  /** A lock is owned by exactly the section whose stage says it holds it. */
  ghost predicate OwnersOk(tasks: map<TaskId, Task>, owner: map<ActorId, TaskId>) {
    && (forall a :: a in owner ==> owner[a] in tasks && a in tasks[owner[a]].Holds())
    && (forall t, a :: t in tasks && a in tasks[t].Holds() ==> a in owner && owner[a] == t)
  }

  ghost predicate LockInv(s: System) {
    TasksOk(s) && OwnersOk(s.tasks, s.owner)
  }

  lemma AcquireKeepsOwners(tasks: map<TaskId, Task>, owner: map<ActorId, TaskId>, t: TaskId, task: Task, lock: ActorId)
    requires OwnersOk(tasks, owner) && t in tasks && lock !in owner && task.Holds() == tasks[t].Holds() + {lock}
    ensures OwnersOk(tasks[t := task], owner[lock := t])
  {
  }

  lemma ReleaseKeepsOwners(tasks: map<TaskId, Task>, owner: map<ActorId, TaskId>, t: TaskId, task: Task, lock: ActorId)
    requires OwnersOk(tasks, owner) && t in tasks
    requires lock in tasks[t].Holds() && task.Holds() == tasks[t].Holds() - {lock}
    ensures OwnersOk(tasks[t := task], owner - {lock})
  {
    assert owner[lock] == t;
    var tasks' := tasks[t := task];
    forall u, a | u in tasks' && a in tasks'[u].Holds() ensures a in owner - {lock} && (owner - {lock})[a] == u {
      assert a in tasks[u].Holds();
    }
  }

  lemma EditKeepsOwners(tasks: map<TaskId, Task>, owner: map<ActorId, TaskId>, t: TaskId, task: Task)
    requires OwnersOk(tasks, owner) && task.Holds() == if t in tasks then tasks[t].Holds() else {}
    ensures OwnersOk(tasks[t := task], owner)
  {
  }

  lemma EndKeepsOwners(tasks: map<TaskId, Task>, owner: map<ActorId, TaskId>, t: TaskId)
    requires OwnersOk(tasks, owner) && t in tasks
    ensures OwnersOk(tasks - {t}, owner - tasks[t].Holds())
  {
  }

  /** The first map operation of a section, seen from the locks. */
  lemma EditThisEffect(s: System, t: TaskId)
    requires TasksOk(s) && CanAdvance(s, t) && s.tasks[t].stage.EditThis?
    ensures var job := s.tasks[t].job;
      var s' := AdvanceTask(s, t);
      && s'.tasks == s.tasks[t := Task(job, if job.Pair? then EditSibling else DropFirst)]
      && s'.owner == s.owner && s'.actors.Keys == s.actors.Keys
  {
    hide AdvanceTask;
    match s.tasks[t].job
    case Pair(_, _, _) => EditCallerEffect(s, t);
    case Removal(_, _) => RemovalEffect(s, t);
    case Drain(_) => DrainEffect(s, t);
  }

  /** The end of a section, seen from the locks and the links. */
  lemma LeaveEffect(s: System, t: TaskId)
    requires TasksOk(s) && CanAdvance(s, t) && s.tasks[t].stage.DropFirst?
    ensures var s' := AdvanceTask(s, t);
      && s'.tasks == s.tasks - {t} && s'.owner == s.owner - {s.tasks[t].job.First()}
      && s'.drained == s.drained && s'.actors.Keys == s.actors.Keys
      && forall a :: a in s.actors ==> s'.actors[a].links == s.actors[a].links
  {
    hide AdvanceTask;
    match s.tasks[t].job
    case Pair(_, _, _) => PairLeaveEffect(s, t);
    case Removal(_, _) => RemovalLeaveEffect(s, t);
    case Drain(_) => DrainLeaveEffect(s, t);
  }

  lemma AdvanceKeepsOwners(s: System, t: TaskId)
    requires LockInv(s) && CanAdvance(s, t)
    ensures OwnersOk(AdvanceTask(s, t).tasks, AdvanceTask(s, t).owner)
  {
    hide AdvanceTask;
    var Task(job, stage) := s.tasks[t];
    assert TaskOk(s, s.tasks[t]);
    var task' := AdvanceTask(s, t).tasks;
    match stage
    case WaitFirst => WaitFirstEffect(s, t); AcquireKeepsOwners(s.tasks, s.owner, t, task'[t], job.First());
    case WaitSecond => WaitSecondEffect(s, t); AcquireKeepsOwners(s.tasks, s.owner, t, task'[t], job.Second());
    case EditThis => EditThisEffect(s, t); EditKeepsOwners(s.tasks, s.owner, t, task'[t]);
    case EditSibling => EditSiblingEffect(s, t); EditKeepsOwners(s.tasks, s.owner, t, task'[t]);
    case DropSecond => DropSecondEffect(s, t); ReleaseKeepsOwners(s.tasks, s.owner, t, task'[t], job.Second());
    case DropFirst => LeaveEffect(s, t); EndKeepsOwners(s.tasks, s.owner, t);
  }

  lemma TasksFrame(s: System, s': System, t: TaskId)
    requires TasksOk(s) && s.actors.Keys <= s'.actors.Keys
    requires forall u :: u in s'.tasks && u != t ==> u in s.tasks && s'.tasks[u] == s.tasks[u]
    requires t in s'.tasks ==> TaskOk(s', s'.tasks[t])
    ensures TasksOk(s')
  {
    forall u | u in s'.tasks ensures TaskOk(s', s'.tasks[u]) {
      if u != t {
        assert TaskOk(s, s.tasks[u]);
      }
    }
  }

  lemma AdvanceKeepsTasks(s: System, t: TaskId)
    requires TasksOk(s) && CanAdvance(s, t)
    ensures TasksOk(AdvanceTask(s, t))
    ensures AdvanceTask(s, t).actors.Keys == s.actors.Keys
  {
    hide AdvanceTask;
    assert TaskOk(s, s.tasks[t]);
    match s.tasks[t].stage
    case WaitFirst => WaitFirstEffect(s, t); TasksFrame(s, AdvanceTask(s, t), t);
    case WaitSecond => WaitSecondEffect(s, t); TasksFrame(s, AdvanceTask(s, t), t);
    case EditThis => EditThisEffect(s, t); TasksFrame(s, AdvanceTask(s, t), t);
    case EditSibling => EditSiblingEffect(s, t); TasksFrame(s, AdvanceTask(s, t), t);
    case DropSecond => DropSecondEffect(s, t); TasksFrame(s, AdvanceTask(s, t), t);
    case DropFirst => LeaveEffect(s, t); TasksFrame(s, AdvanceTask(s, t), t);
  }

  lemma SectionKeepsTasks(s: System, act: Action)
    requires TasksOk(s) && Enabled(s, act)
    requires act.BeginPair? || act.Cancel? || act.Take? || act.BeginDrain?
    ensures TasksOk(Apply(s, act)) && s.actors.Keys <= Apply(s, act).actors.Keys
  {
    hide Apply;
    match act
    case BeginPair(t, kind, a, b) => BeginPairEffect(s, t, kind, a, b); TasksFrame(s, Apply(s, act), t);
    case Cancel(t) => CancelEffect(s, t); TasksFrame(s, Apply(s, act), t);
    case Take(a, t) => TakeEffect(s, a, t); TasksFrame(s, Apply(s, act), t);
    case BeginDrain(a, t) => BeginDrainEffect(s, a, t); TasksFrame(s, Apply(s, act), t);
  }

  lemma ApplyKeepsTasks(s: System, act: Action)
    requires TasksOk(s) && Enabled(s, act)
    ensures TasksOk(Apply(s, act)) && s.actors.Keys <= Apply(s, act).actors.Keys
  {
    hide Apply, AdvanceTask;
    match act
    case Advance(t) => AdvanceEffect(s, t); AdvanceKeepsTasks(s, t);
    case Spawn(a) => SpawnEffect(s, a); TasksFrame(s, Apply(s, act), 0);
    case Break(a, reason) => BreakEffect(s, a, reason); TasksFrame(s, Apply(s, act), 0);
    case Kill(a) => KillEffect(s, a); TasksFrame(s, Apply(s, act), 0);
    case Notify(a, b, delivered) => NotifyEffect(s, a, b, delivered); TasksFrame(s, Apply(s, act), 0);
    case Start(_) => MoveEffect(s, act); TasksFrame(s, Apply(s, act), 0);
    case StartFails(_) => MoveEffect(s, act); TasksFrame(s, Apply(s, act), 0);
    case OnStop(_, _) => MoveEffect(s, act); TasksFrame(s, Apply(s, act), 0);
    case Finish(_) => MoveEffect(s, act); TasksFrame(s, Apply(s, act), 0);
    case _ => SectionKeepsTasks(s, act);
  }

  lemma ApplyKeepsOwners(s: System, act: Action)
    requires LockInv(s) && Enabled(s, act)
    ensures OwnersOk(Apply(s, act).tasks, Apply(s, act).owner)
  {
    hide Apply, AdvanceTask;
    var tasks' := Apply(s, act).tasks;
    match act
    case Advance(t) => AdvanceEffect(s, t); AdvanceKeepsOwners(s, t);
    case Spawn(a) => SpawnEffect(s, a);
    case Cancel(t) => CancelEffect(s, t); EndKeepsOwners(s.tasks, s.owner, t);
    case BeginPair(t, kind, a, b) =>
      BeginPairEffect(s, t, kind, a, b);
      if a != b {
        EditKeepsOwners(s.tasks, s.owner, t, tasks'[t]);
      }
    case BeginDrain(a, t) => BeginDrainEffect(s, a, t); EditKeepsOwners(s.tasks, s.owner, t, tasks'[t]);
    case Take(a, t) => TakeEffect(s, a, t); EditKeepsOwners(s.tasks, s.owner, t, tasks'[t]);
    case Break(a, reason) => BreakEffect(s, a, reason);
    case Kill(a) =>
      KillEffect(s, a);
      if s.actors[a].phase.Handling? {
        EndKeepsOwners(s.tasks, s.owner, s.actors[a].phase.task);
        assert s.owner - {} == s.owner;
      }
    case Notify(a, b, delivered) => NotifyEffect(s, a, b, delivered);
    case _ => MoveEffect(s, act);
  }

  lemma ApplyKeepsLocks(s: System, act: Action)
    requires LockInv(s) && Enabled(s, act)
    ensures LockInv(Apply(s, act))
  {
    ApplyKeepsTasks(s, act);
    ApplyKeepsOwners(s, act);
  }

  // ---------- Deadlock freedom ----------

  ghost predicate WaitsOn(s: System, t: TaskId, u: TaskId) {
    && t in s.tasks && s.tasks[t].Wants().Some?
    && s.tasks[t].Wants().value in s.owner && s.owner[s.tasks[t].Wants().value] == u
  }

  /** Whoever holds the wanted lock and waits itself wants a larger one. */
  lemma WaitsUpward(s: System, t: TaskId, u: TaskId)
    requires LockInv(s) && WaitsOn(s, t, u) && u in s.tasks && s.tasks[u].Wants().Some?
    ensures s.tasks[t].Wants().value < s.tasks[u].Wants().value
  {
    assert s.tasks[t].Wants().value in s.tasks[u].Holds();
  }

  lemma {:induction false} ChainClimbs(s: System, chain: seq<TaskId>, i: nat)
    requires LockInv(s) && i < |chain|
    requires forall k :: 0 <= k < |chain| ==> chain[k] in s.tasks && s.tasks[chain[k]].Wants().Some?
    requires forall k :: 0 <= k < |chain| - 1 ==> WaitsOn(s, chain[k], chain[k + 1])
    ensures s.tasks[chain[0]].Wants().value + i <= s.tasks[chain[i]].Wants().value
    decreases i
  {
    if i > 0 {
      ChainClimbs(s, chain, i - 1);
      assert WaitsOn(s, chain[i - 1], chain[i - 1 + 1]);
      WaitsUpward(s, chain[i - 1], chain[i]);
    }
  }

  /** No set of sections waits on each other in a circle. */
  lemma NoCyclicWait(s: System, cycle: seq<TaskId>)
    requires LockInv(s) && cycle != []
    requires forall k :: 0 <= k < |cycle| - 1 ==> WaitsOn(s, cycle[k], cycle[k + 1])
    ensures !WaitsOn(s, cycle[|cycle| - 1], cycle[0])
  {
    if WaitsOn(s, cycle[|cycle| - 1], cycle[0]) {
      forall k | 0 <= k < |cycle| ensures cycle[k] in s.tasks && s.tasks[cycle[k]].Wants().Some? {
        if k < |cycle| - 1 {
          assert WaitsOn(s, cycle[k], cycle[k + 1]);
        }
      }
      ChainClimbs(s, cycle, |cycle| - 1);
      WaitsUpward(s, cycle[|cycle| - 1], cycle[0]);
    }
  }

  /** The actors whose locks could still be waited for above a given one. */
  ghost function Above(s: System, a: ActorId): set<ActorId> {
    set b | b in s.actors && b > a
  }

  lemma {:induction false} SomeoneAdvances(s: System, t: TaskId) returns (u: TaskId)
    requires LockInv(s) && t in s.tasks
    ensures CanAdvance(s, u)
    decreases if s.tasks[t].Wants().Some? then |Above(s, s.tasks[t].Wants().value)| else 0
  {
    if CanAdvance(s, t) {
      return t;
    }
    var wanted := s.tasks[t].Wants().value;
    var holder := s.owner[wanted];
    if s.tasks[holder].Wants().None? {
      return holder;
    }
    WaitsUpward(s, t, holder);
    var higher := s.tasks[holder].Wants().value;
    assert TaskOk(s, s.tasks[holder]);
    assert higher in Above(s, wanted);
    assert Above(s, higher) < Above(s, wanted);
    SubsetSmaller(Above(s, higher), Above(s, wanted));
    u := SomeoneAdvances(s, holder);
  }

  lemma SubsetSmaller<T>(small: set<T>, large: set<T>)
    requires small < large
    ensures |small| < |large|
  {
    assert small + (large - small) == large;
    var x :| x in large - small;
    assert |large - small| > 0;
  }

  /** While any locked section is pending, some section can take its next step. */
  lemma ProgressWhilePending(s: System)
    requires LockInv(s) && s.tasks != map[]
    ensures exists t :: CanAdvance(s, t) && Enabled(s, Advance(t))
  {
    var t :| t in s.tasks;
    var u := SomeoneAdvances(s, t);
    assert CanAdvance(s, u) && Enabled(s, Advance(u));
  }
}
