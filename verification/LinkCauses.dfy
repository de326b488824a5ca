/** Where stop reasons come from, and which LinkDied signals a death issues. */
module LinkCauses {
  import opened Common
  import opened StopReasons
  import opened LinkProtocol
  import opened LinkEffects
  import opened LinkHistory

  // ---------- Deaths and their causes ----------

  /** The notice is true: that sibling drained this actor's link and has that final reason. */
  ghost predicate Notified(s: System, a: ActorId, n: Notice) {
    && n.dead in s.drained && a in s.drained[n.dead]
    && n.dead in s.actors && s.actors[n.dead].reason == Some(n.why)
  }

  ghost predicate DiedBefore(s: System, b: ActorId, a: ActorId) {
    exists i, j :: 0 <= i < j < |s.deaths| && s.deaths[i] == b && s.deaths[j] == a
  }

  ghost predicate ReasonOk(s: System, a: ActorId, reason: StopReason) {
    match reason
    case LinkDied(b, why) => Notified(s, a, Notice(b, why)) && !why.Normal? && DiedBefore(s, b, a)
    case PeerDisconnected => false
    case _ => true
  }

  predicate MayHaveNotified(phase: Phase) {
    phase.Notifying? || phase.Stopped?
  }

  ghost predicate CauseOk(s: System, a: ActorId)
    requires a in s.actors
  {
    var x := s.actors[a];
    && (forall n :: n in x.mailbox ==> Notified(s, a, n))
    && (x.phase.Handling? ==> Notified(s, a, x.phase.notice))
    && (x.reason.Some? ==> ReasonOk(s, a, x.reason.value))
    && (if a in s.drained then x.toNotify <= s.drained[a] else x.toNotify == {})
    && (a in s.drained ==> MayHaveNotified(x.phase) || x.toNotify == s.drained[a])
    && (x.phase.Stopped? ==> x.toNotify == {})
  }

  ghost predicate DeathsOk(s: System) {
    && Distinct(s.deaths)
    && (forall a :: a in s.deaths <==> a in s.actors && s.actors[a].reason.Some?)
  }

  ghost predicate CauseInv(s: System) {
    DeathsOk(s) && forall a :: a in s.actors ==> CauseOk(s, a)
  }

  lemma NotifiedStays(s: System, s': System, a: ActorId, n: Notice)
    requires Notified(s, a, n) && Extends(s, s')
    ensures Notified(s', a, n)
  {
  }

  lemma ReasonOkStays(s: System, s': System, a: ActorId, reason: StopReason)
    requires ReasonOk(s, a, reason) && Extends(s, s')
    ensures ReasonOk(s', a, reason)
  {
    if reason.LinkDied? {
      NotifiedStays(s, s', a, Notice(reason.id, reason.reason));
      var i, j :| 0 <= i < j < |s.deaths| && s.deaths[i] == reason.id && s.deaths[j] == a;
      assert s'.deaths[i] == reason.id && s'.deaths[j] == a;
    }
  }

  /** An actor nothing happened to keeps its causes, whatever happened elsewhere. */
  lemma CauseOkStays(s: System, s': System, b: ActorId)
    requires Extends(s, s') && b in s.actors && CauseOk(s, b)
    requires s'.actors[b] == s.actors[b].(links := s'.actors[b].links)
    requires b in s'.drained <==> b in s.drained
    ensures CauseOk(s', b)
  {
    TruthsStay(s, s', b);
  }

  /** What an actor was told and why it died stays true. */
  lemma TruthsStay(s: System, s': System, a: ActorId)
    requires Extends(s, s') && a in s.actors && CauseOk(s, a)
    ensures forall n :: n in s.actors[a].mailbox ==> Notified(s', a, n)
    ensures s.actors[a].phase.Handling? ==> Notified(s', a, s.actors[a].phase.notice)
    ensures s.actors[a].reason.Some? ==> ReasonOk(s', a, s.actors[a].reason.value)
  {
    forall n | n in s.actors[a].mailbox ensures Notified(s', a, n) {
      NotifiedStays(s, s', a, n);
    }
    if s.actors[a].reason.Some? {
      ReasonOkStays(s, s', a, s.actors[a].reason.value);
    }
  }

  lemma CauseFrame(s: System, s': System, touched: set<ActorId>)
    requires CauseInv(s) && Extends(s, s') && DeathsOk(s')
    requires s'.actors.Keys <= s.actors.Keys + touched
    requires forall b :: b in s.actors && b !in touched ==>
      s'.actors[b] == s.actors[b].(links := s'.actors[b].links) && (b in s'.drained <==> b in s.drained)
    requires forall a :: a in touched ==> a in s'.actors && CauseOk(s', a)
    ensures CauseInv(s')
  {
    forall b | b in s'.actors ensures CauseOk(s', b) {
      if b !in touched {
        CauseOkStays(s, s', b);
      }
    }
  }

  lemma QuietKeepsCauses(s: System, s': System)
    requires CauseInv(s) && SameBeyondLinks(s, s')
    ensures CauseInv(s')
  {
    CauseFrame(s, s', {});
  }

  /** The state after a death: only the reason is new. */
  lemma DieKeepsCauses(s: System, a: ActorId, reason: StopReason)
    requires CauseInv(s) && a in s.actors && s.actors[a].reason.None? && a !in s.drained
    requires match reason
             case LinkDied(b, why) => Notified(s, a, Notice(b, why)) && !why.Normal?
             case PeerDisconnected => false
             case _ => true
    ensures CauseInv(Die(s, a, reason))
  {
    var s' := Die(s, a, reason);
    assert Extends(s, s');
    forall b ensures b in s'.deaths <==> b in s'.actors && s'.actors[b].reason.Some? {
      assert b in s'.deaths <==> b in s.deaths || b == a;
    }
    CauseOkDies(s, a, reason);
    CauseFrame(s, s', {a});
  }

  lemma CauseOkDies(s: System, a: ActorId, reason: StopReason)
    requires CauseInv(s) && a in s.actors && s.actors[a].reason.None? && a !in s.drained
    requires reason.LinkDied? ==> Notified(s, a, Notice(reason.id, reason.reason)) && !reason.reason.Normal?
    requires !reason.PeerDisconnected?
    ensures CauseOk(Die(s, a, reason), a)
  {
    var s' := Die(s, a, reason);
    assert CauseOk(s, a) && Extends(s, s');
    forall n | n in s.actors[a].mailbox ensures Notified(s', a, n) {
      NotifiedStays(s, s', a, n);
    }
    if reason.LinkDied? {
      NotifiedStays(s, s', a, Notice(reason.id, reason.reason));
      assert reason.id in s.deaths;
      var i :| 0 <= i < |s.deaths| && s.deaths[i] == reason.id;
      assert s'.deaths[i] == reason.id && s'.deaths[|s.deaths|] == a;
    }
  }

  /** An actor that only changed phase, or drained its links into toNotify, keeps its causes. */
  lemma OwnerKeepsCauses(s: System, s': System, a: ActorId)
    requires CauseInv(s) && Extends(s, s') && a in s.actors && s.actors[a].reason.Some?
    requires s'.actors[a].mailbox == s.actors[a].mailbox && s'.actors[a].reason == s.actors[a].reason
    requires !s'.actors[a].phase.Handling? && !s'.actors[a].phase.Stopped?
    requires a in s'.drained && s'.actors[a].toNotify == s'.drained[a]
    requires s'.deaths == s.deaths && s'.actors.Keys == s.actors.Keys
    requires forall b :: b in s.actors && b != a ==>
      s'.actors[b] == s.actors[b] && (b in s'.drained <==> b in s.drained)
    ensures CauseInv(s')
  {
    assert CauseOk(s, a);
    TruthsStay(s, s', a);
    CauseFrame(s, s', {a});
  }

  lemma DrainKeepsCauses(s: System, t: TaskId)
    requires PhaseInv(s) && CauseInv(s) && CanAdvance(s, t) && s.tasks[t].job.Drain? && !QuietStep(s.tasks[t])
    ensures CauseInv(AdvanceTask(s, t))
  {
    hide AdvanceTask;
    var a := s.tasks[t].job.actor;
    assert TaskOk(s, s.tasks[t]) && JobPhaseOk(s, t) && PhaseOk(s, a) && CauseOk(s, a);
    AdvanceExtends(s, t);
    if s.tasks[t].stage.EditThis? {
      DrainEffect(s, t);
    } else {
      DrainLeaveEffect(s, t);
    }
    hide CauseInv, PhaseInv, Extends;
    OwnerKeepsCauses(s, AdvanceTask(s, t), a);
  }

  lemma DecidedKeepsCauses(s: System, a: ActorId)
    requires CauseInv(s) && a in s.actors && s.actors[a].phase.Handling?
    requires s.actors[a].reason.None? && a !in s.drained
    ensures CauseInv(Decided(s, a))
  {
    var n := s.actors[a].phase.notice;
    assert CauseOk(s, a);
    NoticeIsNotForeign(s, a, n);
    match DefaultOnLinkDied(n.dead, n.why)
    case Continue => PhaseChangeKeepsCauses(s, a, Running);
    case Break(reason) => DieKeepsCauses(s, a, reason);
  }

  lemma RemovalLeaveKeepsCauses(s: System, t: TaskId)
    requires PhaseInv(s) && CauseInv(s) && CanAdvance(s, t) && s.tasks[t].job.Removal? && !QuietStep(s.tasks[t])
    ensures CauseInv(AdvanceTask(s, t))
  {
    hide AdvanceTask;
    var a := s.tasks[t].job.actor;
    assert TaskOk(s, s.tasks[t]) && JobPhaseOk(s, t) && PhaseOk(s, a) && CauseOk(s, a);
    RemovalLeaveEffect(s, t);
    var s1 := s.(tasks := s.tasks - {t}, owner := s.owner - {a});
    QuietKeepsCauses(s, s1);
    DecidedKeepsCauses(s1, a);
  }

  /** No notice carries a peer disconnection: links here are local. */
  lemma NoticeIsNotForeign(s: System, a: ActorId, n: Notice)
    requires CauseInv(s) && Notified(s, a, n)
    ensures !n.why.PeerDisconnected?
  {
    assert CauseOk(s, n.dead);
  }

  lemma AdvanceKeepsCauses(s: System, t: TaskId)
    requires PhaseInv(s) && CauseInv(s) && CanAdvance(s, t)
    ensures CauseInv(AdvanceTask(s, t))
  {
    hide AdvanceTask, CauseInv;
    assert TaskOk(s, s.tasks[t]);
    if QuietStep(s.tasks[t]) {
      QuietEffect(s, t);
      QuietKeepsCauses(s, AdvanceTask(s, t));
    } else if s.tasks[t].job.Drain? {
      DrainKeepsCauses(s, t);
    } else {
      RemovalLeaveKeepsCauses(s, t);
    }
  }

  lemma KillKeepsCauses(s: System, a: ActorId)
    requires PhaseInv(s) && CauseInv(s) && Enabled(s, Kill(a))
    ensures CauseInv(Apply(s, Kill(a)))
  {
    hide Apply;
    KillEffect(s, a);
    assert PhaseOk(s, a);
    QuietKeepsCauses(s, Interrupted(s, a));
    hide CauseInv;
    DieKeepsCauses(Interrupted(s, a), a, Killed);
  }

  /** Actions that only move one actor to another phase. */
  lemma PhaseChangeKeepsCauses(s: System, a: ActorId, phase: Phase)
    requires CauseInv(s) && a in s.actors && !phase.Handling?
    requires phase.Stopped? ==> s.actors[a].toNotify == {}
    requires a in s.drained ==> MayHaveNotified(phase) || s.actors[a].phase.Stopping?
    ensures CauseInv(SetPhase(s, a, phase))
  {
    var s' := SetPhase(s, a, phase);
    assert CauseOk(s, a);
    TruthsStay(s, s', a);
    CauseFrame(s, s', {a});
  }

  lemma TakeKeepsCauses(s: System, a: ActorId, t: TaskId)
    requires CauseInv(s) && TasksOk(s) && Enabled(s, Take(a, t))
    ensures CauseInv(Apply(s, Take(a, t)))
  {
    hide Apply;
    TakeEffect(s, a, t);
    var s' := Apply(s, Take(a, t));
    assert CauseOk(s, a);
    TruthsStay(s, s', a);
    CauseFrame(s, s', {a});
  }

  lemma IssueKeepsCauses(s: System, a: ActorId, b: ActorId, why: StopReason)
    requires CauseInv(s) && a in s.actors && s.actors[a].phase.Notifying?
    ensures CauseInv(Issuing(s, a, b, why))
  {
    assert CauseOk(s, a);
    TruthsStay(s, Issuing(s, a, b, why), a);
    CauseFrame(s, Issuing(s, a, b, why), {a});
  }

  lemma DeliverKeepsCauses(s: System, b: ActorId, n: Notice)
    requires CauseInv(s) && b in s.actors && Notified(s, b, n)
    ensures CauseInv(Receiving(s, b, n))
  {
    assert CauseOk(s, b);
    TruthsStay(s, Receiving(s, b, n), b);
    NotifiedStays(s, Receiving(s, b, n), b, n);
    CauseFrame(s, Receiving(s, b, n), {b});
  }

  lemma NotifyKeepsCauses(s: System, a: ActorId, b: ActorId, delivered: bool)
    requires PhaseInv(s) && CauseInv(s) && Enabled(s, Notify(a, b, delivered))
    ensures CauseInv(Apply(s, Notify(a, b, delivered)))
  {
    hide Apply;
    assert PhaseOk(s, a) && CauseOk(s, a);
    NotifyEffect(s, a, b, delivered);
    var why := s.actors[a].reason.value;
    IssueKeepsCauses(s, a, b, why);
    if delivered {
      hide CauseInv;
      DeliverKeepsCauses(Issuing(s, a, b, why), b, Notice(a, why));
    }
  }

  lemma MoveKeepsCauses(s: System, act: Action)
    requires PhaseInv(s) && CauseInv(s) && Enabled(s, act) && MovesOnly(act)
    ensures CauseInv(Apply(s, act))
  {
    hide Apply;
    MoveEffect(s, act);
    assert PhaseOk(s, act.actor);
    hide CauseInv;
    PhaseChangeKeepsCauses(s, act.actor, Onward(act));
  }

  lemma BeginDrainKeepsCauses(s: System, a: ActorId, t: TaskId)
    requires PhaseInv(s) && CauseInv(s) && Enabled(s, BeginDrain(a, t))
    ensures CauseInv(Apply(s, BeginDrain(a, t)))
  {
    hide Apply;
    BeginDrainEffect(s, a, t);
    assert PhaseOk(s, a);
    hide CauseInv;
    PhaseChangeKeepsCauses(s, a, Draining(t));
    QuietKeepsCauses(SetPhase(s, a, Draining(t)), Apply(s, BeginDrain(a, t)));
  }

  lemma PairKeepsCauses(s: System, act: Action)
    requires TasksOk(s) && CauseInv(s) && Enabled(s, act) && (act.BeginPair? || act.Cancel?)
    ensures CauseInv(Apply(s, act))
  {
    hide Apply, CauseInv;
    match act
    case BeginPair(t, kind, a, b) => BeginPairEffect(s, t, kind, a, b); QuietKeepsCauses(s, Apply(s, act));
    case Cancel(t) => CancelEffect(s, t); QuietKeepsCauses(s, Apply(s, act));
  }

  lemma ApplyKeepsCauses(s: System, act: Action)
    requires PhaseInv(s) && CauseInv(s) && Enabled(s, act)
    ensures CauseInv(Apply(s, act))
  {
    hide Apply, AdvanceTask, CauseInv;
    match act
    case Advance(t) => AdvanceEffect(s, t); AdvanceKeepsCauses(s, t);
    case Kill(a) => KillKeepsCauses(s, a);
    case Break(a, reason) => BreakEffect(s, a, reason); assert PhaseOk(s, a); DieKeepsCauses(s, a, reason);
    case Take(a, t) => TakeKeepsCauses(s, a, t);
    case Notify(a, b, delivered) => NotifyKeepsCauses(s, a, b, delivered);
    case Spawn(a) => SpawnKeepsCauses(s, a);
    case Cancel(_) => PairKeepsCauses(s, act);
    case BeginPair(_, _, _, _) => PairKeepsCauses(s, act);
    case BeginDrain(a, t) => BeginDrainKeepsCauses(s, a, t);
    case _ => MoveKeepsCauses(s, act);
  }

  lemma SpawnKeepsCauses(s: System, a: ActorId)
    requires PhaseInv(s) && CauseInv(s) && a !in s.actors
    ensures CauseInv(Apply(s, Spawn(a)))
  {
    hide Apply;
    SpawnEffect(s, a);
    CauseFrame(s, Apply(s, Spawn(a)), {a});
  }

  // ---------- Issued notifications ----------

  /** The signal was sent: a drained a link to that sibling, has that reason and is done with the sibling. */
  ghost predicate WasIssued(s: System, x: (ActorId, ActorId, StopReason)) {
    && x.0 in s.drained && x.0 in s.actors && x.1 in s.drained[x.0]
    && x.1 !in s.actors[x.0].toNotify && s.actors[x.0].reason == Some(x.2)
  }

  ghost predicate IssuedInv(s: System) {
    forall x :: s.issued[x] == if WasIssued(s, x) then 1 else 0
  }

  lemma ApplyKeepsIssued(s: System, act: Action)
    requires PhaseInv(s) && CauseInv(s) && IssuedInv(s) && Enabled(s, act)
    ensures IssuedInv(Apply(s, act))
  {
    hide Apply, AdvanceTask, IssuedInv;
    match act
    case Advance(t) => AdvanceEffect(s, t); AdvanceKeepsIssued(s, t);
    case Notify(a, b, delivered) => NotifyKeepsIssued(s, a, b, delivered);
    case Kill(_) => DeathKeepsIssued(s, act);
    case Break(_, _) => DeathKeepsIssued(s, act);
    case Spawn(_) => MoveKeepsIssued(s, act);
    case BeginPair(_, _, _, _) => SectionKeepsIssued(s, act);
    case Cancel(_) => SectionKeepsIssued(s, act);
    case Take(_, _) => SectionKeepsIssued(s, act);
    case BeginDrain(_, _) => SectionKeepsIssued(s, act);
    case _ => MoveKeepsIssued(s, act);
  }

  lemma SectionKeepsIssued(s: System, act: Action)
    requires PhaseInv(s) && IssuedInv(s) && Enabled(s, act)
    requires act.BeginPair? || act.Cancel? || act.Take? || act.BeginDrain?
    ensures IssuedInv(Apply(s, act))
  {
    hide Apply, IssuedInv;
    match act
    case BeginPair(t, kind, a, b) => BeginPairEffect(s, t, kind, a, b); SameIssued(s, Apply(s, act));
    case Cancel(t) => CancelEffect(s, t); SameIssued(s, Apply(s, act));
    case Take(a, t) => TakeEffect(s, a, t); SameIssued(s, Apply(s, act));
    case BeginDrain(a, t) => BeginDrainEffect(s, a, t); SameIssued(s, Apply(s, act));
  }

  lemma MoveKeepsIssued(s: System, act: Action)
    requires PhaseInv(s) && IssuedInv(s) && Enabled(s, act) && (act.Spawn? || MovesOnly(act))
    ensures IssuedInv(Apply(s, act))
  {
    hide Apply, IssuedInv;
    if act.Spawn? {
      SpawnEffect(s, act.actor);
    } else {
      MoveEffect(s, act);
    }
    SameIssued(s, Apply(s, act));
  }

  lemma DeathKeepsIssued(s: System, act: Action)
    requires PhaseInv(s) && IssuedInv(s) && Enabled(s, act) && (act.Break? || act.Kill?)
    ensures IssuedInv(Apply(s, act))
  {
    hide Apply, IssuedInv;
    assert PhaseOk(s, act.actor);
    match act
    case Break(a, reason) => BreakEffect(s, a, reason); SameIssued(s, Apply(s, act));
    case Kill(a) => KillEffect(s, a); SameIssued(s, Apply(s, act));
  }

  lemma SameIssued(s: System, s': System)
    requires IssuedInv(s) && s'.issued == s.issued && s'.drained == s.drained && s.drained.Keys <= s.actors.Keys
    requires s.actors.Keys <= s'.actors.Keys
    requires forall a :: a in s.drained ==>
      s'.actors[a].toNotify == s.actors[a].toNotify && s'.actors[a].reason == s.actors[a].reason
    ensures IssuedInv(s')
  {
    forall x ensures WasIssued(s', x) == WasIssued(s, x) {
    }
  }

  lemma DrainKeepsIssued(s: System, t: TaskId)
    requires PhaseInv(s) && IssuedInv(s) && CanAdvance(s, t) && s.tasks[t].job.Drain? && s.tasks[t].stage.EditThis?
    ensures IssuedInv(AdvanceTask(s, t))
  {
    hide AdvanceTask;
    var s' := AdvanceTask(s, t);
    assert TaskOk(s, s.tasks[t]) && JobPhaseOk(s, t) && PhaseOk(s, s.tasks[t].job.actor);
    DrainEffect(s, t);
    forall x ensures WasIssued(s', x) == WasIssued(s, x) {
    }
  }

  lemma LeaveKeepsIssued(s: System, t: TaskId)
    requires PhaseInv(s) && IssuedInv(s) && CanAdvance(s, t)
    requires !s.tasks[t].job.Pair? && s.tasks[t].stage.DropFirst?
    ensures IssuedInv(AdvanceTask(s, t))
  {
    hide AdvanceTask, IssuedInv;
    assert TaskOk(s, s.tasks[t]) && JobPhaseOk(s, t) && PhaseOk(s, s.tasks[t].job.actor);
    if s.tasks[t].job.Drain? {
      DrainLeaveEffect(s, t);
    } else {
      RemovalLeaveEffect(s, t);
    }
    SameIssued(s, AdvanceTask(s, t));
  }

  lemma AdvanceKeepsIssued(s: System, t: TaskId)
    requires PhaseInv(s) && IssuedInv(s) && CanAdvance(s, t)
    ensures IssuedInv(AdvanceTask(s, t))
  {
    hide AdvanceTask;
    assert TaskOk(s, s.tasks[t]);
    if QuietStep(s.tasks[t]) {
      QuietEffect(s, t);
      SameIssued(s, AdvanceTask(s, t));
    } else if s.tasks[t].stage.EditThis? {
      DrainKeepsIssued(s, t);
    } else {
      LeaveKeepsIssued(s, t);
    }
  }

  lemma IssueKeepsIssued(s: System, a: ActorId, b: ActorId, why: StopReason)
    requires IssuedInv(s) && s.drained.Keys <= s.actors.Keys
    requires a in s.drained && b in s.drained[a] && b in s.actors[a].toNotify && s.actors[a].reason == Some(why)
    ensures IssuedInv(Issuing(s, a, b, why)) && Issuing(s, a, b, why).drained.Keys <= Issuing(s, a, b, why).actors.Keys
    ensures Issuing(s, a, b, why).actors.Keys == s.actors.Keys
  {
    forall x ensures WasIssued(Issuing(s, a, b, why), x) == (WasIssued(s, x) || x == (a, b, why)) {
    }
    assert !WasIssued(s, (a, b, why));
  }

  lemma NotifyKeepsIssued(s: System, a: ActorId, b: ActorId, delivered: bool)
    requires PhaseInv(s) && CauseInv(s) && IssuedInv(s) && Enabled(s, Notify(a, b, delivered))
    ensures IssuedInv(Apply(s, Notify(a, b, delivered)))
  {
    hide Apply;
    assert PhaseOk(s, a) && CauseOk(s, a);
    NotifyEffect(s, a, b, delivered);
    var why := s.actors[a].reason.value;
    IssueKeepsIssued(s, a, b, why);
    hide IssuedInv, CauseInv, Issuing;
    if delivered {
      SameIssued(Issuing(s, a, b, why), Apply(s, Notify(a, b, delivered)));
    }
  }
}
