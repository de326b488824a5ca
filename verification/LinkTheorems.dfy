/** What holds in every state a system of linked actors can reach. */
module LinkTheorems {
  import opened Common
  import opened StopReasons
  import opened LinkProtocol
  import opened LinkEffects
  import opened LinkLocks
  import opened LinkHistory
  import opened LinkCauses
  import opened LinkNotices
  import opened LinkSymmetry

  ghost predicate Inv(s: System) {
    LockInv(s) && PhaseInv(s) && CauseInv(s) && IssuedInv(s) && NoticeInv(s) && CountInv(s)
    && SymmetryInv(s)
  }

  /** The state a sequence of enabled actions leads to from nothing. */
  ghost function Run(trace: seq<Action>): Option<System> {
    if trace == [] then Some(EMPTY)
    else
      var n := |trace| - 1;
      var before := Run(trace[..n]);
      if before.Some? && TasksOk(before.value) && Enabled(before.value, trace[n])
      then Some(Apply(before.value, trace[n]))
      else None
  }

  ghost predicate Reachable(s: System) {
    exists trace :: Run(trace) == Some(s)
  }

  lemma LockedTasks(s: System)
    requires LockInv(s)
    ensures TasksOk(s)
  {
  }

  lemma ApplyKeepsInv(s: System, act: Action)
    requires Inv(s) && Enabled(s, act)
    ensures Inv(Apply(s, act))
  {
    hide Apply, LockInv, PhaseInv, CauseInv, IssuedInv, NoticeInv, CountInv, SymmetryInv;
    assert TasksOk(s) by { LockedTasks(s); }
    ApplyKeepsLocks(s, act);
    ApplyKeepsPhases(s, act);
    ApplyKeepsCauses(s, act);
    ApplyKeepsIssued(s, act);
    ApplyKeepsNotices(s, act);
    ApplyKeepsCount(s, act);
    ApplyKeepsSymmetry(s, act);
  }

  lemma {:induction false} RunKeepsInv(trace: seq<Action>)
    requires Run(trace).Some?
    ensures Inv(Run(trace).value)
    decreases |trace|
  {
    if trace != [] {
      var n := |trace| - 1;
      RunKeepsInv(trace[..n]);
      ApplyKeepsInv(Run(trace[..n]).value, trace[n]);
    }
  }

  lemma ReachableKeepsInv(s: System)
    requires Reachable(s)
    ensures Inv(s)
  {
    var trace :| Run(trace) == Some(s);
    RunKeepsInv(trace);
  }

  // ---------- Locks ----------

  /** Every section of the circle waits for the next, the last one for the first. */
  ghost predicate CircularWait(s: System, cycle: seq<TaskId>) {
    && cycle != []
    && (forall k :: 0 <= k < |cycle| - 1 ==> WaitsOn(s, cycle[k], cycle[k + 1]))
    && WaitsOn(s, cycle[|cycle| - 1], cycle[0])
  }

  /** Locks never deadlock: nobody waits in a circle, and while a section is pending some section can go on. */
  lemma LocksNeverDeadlock(s: System)
    requires Reachable(s)
    ensures !exists cycle :: CircularWait(s, cycle)
    ensures s.tasks != map[] ==> exists t :: Enabled(s, Advance(t))
  {
    ReachableKeepsInv(s);
    forall cycle ensures !CircularWait(s, cycle) {
      if CircularWait(s, cycle) {
        NoCyclicWait(s, cycle);
      }
    }
    if s.tasks != map[] {
      ProgressWhilePending(s);
    }
  }

  // ---------- Symmetry ----------

  /** Two actors that have not drained their links agree on being linked, unless a call for them is half done. */
  lemma LinksAreMutual(s: System, a: ActorId, b: ActorId)
    requires Reachable(s) && a in s.actors && b in s.actors
    requires a !in s.drained && b !in s.drained && !Between(s, a, b)
    ensures b in LinksOf(s, a) <==> a in LinksOf(s, b)
    ensures a !in LinksOf(s, a)
  {
    ReachableKeepsInv(s);
    assert MutualOk(s, a, b);
  }

  /** Half-way through a call, only the calling side shows its outcome for sure. */
  lemma HalfDoneShowsOneSide(s: System, t: TaskId)
    requires Reachable(s) && t in s.tasks && HalfDone(s.tasks[t])
    ensures var job := s.tasks[t].job;
      job.caller in s.actors && (job.sibling in LinksOf(s, job.caller) <==> job.kind == Link)
  {
    ReachableKeepsInv(s);
    assert HalfOk(s, s.tasks[t]) && TaskOk(s, s.tasks[t]);
  }

  // ---------- Notifications ----------

  /** The links an actor drains are the ones it held at that step, and they are recorded once. */
  lemma DrainTakesTheLinks(s: System, act: Action, a: ActorId)
    requires Reachable(s) && Enabled(s, act) && TasksOk(s)
    requires a in Apply(s, act).drained
    ensures a in s.actors
    ensures a in s.drained ==> Apply(s, act).drained[a] == s.drained[a]
    ensures a !in s.drained ==>
      && Apply(s, act).drained[a] == LinksOf(s, a) && LinksOf(Apply(s, act), a) == {}
      && s.actors[a].reason.Some? && Apply(s, act).actors[a].toNotify == LinksOf(s, a)
  {
    hide Apply;
    ReachableKeepsInv(s);
    ApplyExtends(s, act);
    if a !in s.drained {
      OnlyDrainingDrains(s, act, a);
    }
  }

  predicate DrainsNow(s: System, act: Action) {
    act.Advance? && act.task in s.tasks && s.tasks[act.task].job.Drain? && s.tasks[act.task].stage.EditThis?
  }

  lemma OthersDrainNothing(s: System, act: Action)
    requires PhaseInv(s) && Enabled(s, act) && !DrainsNow(s, act)
    ensures Apply(s, act).drained == s.drained
  {
    hide Apply, AdvanceTask;
    match act
    case Advance(t) =>
      AdvanceEffect(s, t);
      assert TaskOk(s, s.tasks[t]) && JobPhaseOk(s, t);
      if QuietStep(s.tasks[t]) {
        QuietEffect(s, t);
      } else {
        LeaveEffect(s, t);
      }
    case Spawn(a) => SpawnEffect(s, a);
    case BeginPair(t, kind, a, b) => BeginPairEffect(s, t, kind, a, b);
    case Cancel(t) => CancelEffect(s, t);
    case Take(a, t) => TakeEffect(s, a, t);
    case Break(a, reason) => BreakEffect(s, a, reason);
    case Kill(a) => KillEffect(s, a);
    case BeginDrain(a, t) => BeginDrainEffect(s, a, t);
    case Notify(a, b, delivered) => NotifyEffect(s, a, b, delivered);
    case _ => MoveEffect(s, act);
  }

  lemma OnlyDrainingDrains(s: System, act: Action, a: ActorId)
    requires PhaseInv(s) && Enabled(s, act) && a !in s.drained && a in Apply(s, act).drained
    ensures act.Advance? && act.task in s.tasks && s.tasks[act.task] == Task(Drain(a), EditThis) && a in s.actors
    ensures s.actors[a].reason.Some?
    ensures Apply(s, act).drained[a] == LinksOf(s, a) && LinksOf(Apply(s, act), a) == {}
    ensures Apply(s, act).actors[a].toNotify == LinksOf(s, a)
  {
    hide Apply, AdvanceTask;
    if !DrainsNow(s, act) {
      OthersDrainNothing(s, act);
    }
    var t := act.task;
    assert TaskOk(s, s.tasks[t]) && JobPhaseOk(s, t);
    AdvanceEffect(s, t);
    DrainEffect(s, t);
    assert PhaseOk(s, s.tasks[t].job.actor);
  }

  /**
   A dead actor told exactly the siblings it held a link to when it drained, each once, with its own id and
   final reason. A link made to an actor that had already drained is never told.
   */
  lemma EachLinkNotifiedOnce(s: System, a: ActorId, b: ActorId, why: StopReason)
    requires Reachable(s) && a in s.actors
    ensures s.issued[(a, b, why)] <= 1
    ensures s.issued[(a, b, why)] == 1 ==> a in s.drained && b in s.drained[a] && s.actors[a].reason == Some(why)
    ensures s.actors[a].phase.Stopped? ==>
      a in s.drained && s.issued[(a, b, why)] == if b in s.drained[a] && s.actors[a].reason == Some(why) then 1 else 0
    ensures !MayHaveNotified(s.actors[a].phase) ==> s.issued[(a, b, why)] == 0
  {
    ReachableKeepsInv(s);
    assert PhaseOk(s, a) && CauseOk(s, a);
    assert s.issued[(a, b, why)] == if WasIssued(s, (a, b, why)) then 1 else 0;
  }

  // ---------- Cascades ----------

  /** The siblings whose deaths a reason blames, the nearest first. */
  function Blamed(reason: StopReason): seq<ActorId> {
    match reason
    case LinkDied(id, why) => [id] + Blamed(why)
    case _ => []
  }

  function Innermost(reason: StopReason): StopReason {
    match reason
    case LinkDied(_, why) => Innermost(why)
    case _ => reason
  }

  ghost function DeathIndex(s: System, a: ActorId): nat
    requires a in s.deaths
    ensures DeathIndex(s, a) < |s.deaths| && s.deaths[DeathIndex(s, a)] == a
  {
    var i :| 0 <= i < |s.deaths| && s.deaths[i] == a;
    i
  }

  /** A blamed sibling died of exactly the reason given, drained this actor's link, and died earlier. */
  lemma BlameIsTrue(s: System, a: ActorId, b: ActorId, why: StopReason)
    requires Reachable(s) && a in s.actors && s.actors[a].reason == Some(LinkDied(b, why))
    ensures b in s.actors && s.actors[b].reason == Some(why) && !why.Normal?
    ensures b in s.drained && a in s.drained[b]
    ensures a in s.deaths && b in s.deaths && DeathIndex(s, b) < DeathIndex(s, a)
  {
    ReachableKeepsInv(s);
    assert CauseOk(s, a);
    var i, j :| 0 <= i < j < |s.deaths| && s.deaths[i] == b && s.deaths[j] == a;
    assert b in s.deaths && a in s.deaths;
    assert DeathIndex(s, b) == i && DeathIndex(s, a) == j;
  }

  /**
   Exactly which notices kill: an actor dies of a sibling's death if and only if it took the notice of it, that
   death was not normal, and the actor was not killed while it dealt with the notice, which it no longer does.
   */
  lemma DiesOfNoticeExactly(s: System, a: ActorId, n: Notice)
    requires Reachable(s) && a in s.actors
    ensures s.actors[a].reason == Some(LinkDied(n.dead, n.why)) <==>
      && (a, n) in s.taken && !n.why.Normal?
      && !(s.actors[a].phase.Handling? && s.actors[a].phase.notice == n)
      && s.actors[a].reason != Some(Killed)
  {
    ReachableKeepsInv(s);
    assert NoticeOk(s, a) && CauseOk(s, a) && PhaseOk(s, a);
    if (a, n) in s.taken {
      var x := (a, n);
      assert TakenOk(s, x.0, x.1);
    }
  }

  /** A death is told to a sibling at most once, and what was told is taken at most as often. */
  lemma NoticeTakenAtMostOnce(s: System, a: ActorId, n: Notice)
    requires Reachable(s) && a in s.actors
    ensures s.taken[(a, n)] + multiset(s.actors[a].mailbox)[n] <= s.issued[(n.dead, a, n.why)] <= 1
  {
    ReachableKeepsInv(s);
    assert Arrived(s, a, n) <= s.issued[(n.dead, a, n.why)];
    assert s.issued[(n.dead, a, n.why)] == if WasIssued(s, (n.dead, a, n.why)) then 1 else 0;
  }

  lemma {:induction false} BlameGoesBack(s: System, a: ActorId, reason: StopReason)
    requires Reachable(s) && a in s.actors && s.actors[a].reason == Some(reason)
    ensures a in s.deaths
    ensures forall i :: 0 <= i < |Blamed(reason)| ==>
      && Blamed(reason)[i] in s.deaths && Blamed(reason)[i] in s.actors
      && DeathIndex(s, Blamed(reason)[i]) < DeathIndex(s, a)
    ensures forall i, j :: 0 <= i < j < |Blamed(reason)| ==>
      DeathIndex(s, Blamed(reason)[j]) < DeathIndex(s, Blamed(reason)[i])
    ensures reason.LinkDied? ==> Innermost(reason).Killed? || Innermost(reason).Panicked?
    decreases reason
  {
    ReachableKeepsInv(s);
    if reason.LinkDied? {
      BlameIsTrue(s, a, reason.id, reason.reason);
      BlameGoesBack(s, reason.id, reason.reason);
      assert CauseOk(s, reason.id);
    }
  }

  lemma BackInTime(s: System, a: ActorId, blamed: seq<ActorId>)
    requires a in s.deaths && a in s.actors
    requires forall i :: 0 <= i < |blamed| ==>
      blamed[i] in s.deaths && blamed[i] in s.actors && DeathIndex(s, blamed[i]) < DeathIndex(s, a)
    requires forall i, j :: 0 <= i < j < |blamed| ==> DeathIndex(s, blamed[j]) < DeathIndex(s, blamed[i])
    ensures Distinct([a] + blamed) && forall x :: x in [a] + blamed ==> x in s.actors.Keys
  {
    hide DeathIndex;
    var chain := [a] + blamed;
    forall i, j | 0 <= i < j < |chain| ensures chain[i] != chain[j] {
      assert chain[j] == blamed[j - 1] && (i > 0 ==> chain[i] == blamed[i - 1]);
    }
  }

  /**
   A cascading reason names distinct actors in reverse order of death, fewer than there are actors, none of
   them the dead actor itself, and goes back to a kill or a panic, never to a normal stop.
   */
  lemma CascadesAreFinite(s: System, a: ActorId, reason: StopReason)
    requires Reachable(s) && a in s.actors && s.actors[a].reason == Some(reason)
    ensures Distinct([a] + Blamed(reason))
    ensures |Blamed(reason)| < |s.actors|
    ensures forall i, j :: 0 <= i < j < |Blamed(reason)| ==>
      Blamed(reason)[i] in s.deaths && Blamed(reason)[j] in s.deaths
      && DeathIndex(s, Blamed(reason)[j]) < DeathIndex(s, Blamed(reason)[i])
    ensures reason.LinkDied? ==> Innermost(reason).Killed? || Innermost(reason).Panicked?
  {
    BlameGoesBack(s, a, reason);
    ReachableKeepsInv(s);
    hide Reachable, LockInv, PhaseInv, IssuedInv, NoticeInv, CountInv, SymmetryInv, Innermost;
    var chain := [a] + Blamed(reason);
    BackInTime(s, a, Blamed(reason));
    DistinctIsSet(chain, s.actors.Keys);
  }
}
