/** What becomes of a LinkDied signal: it is taken at most once, and kills its taker unless the death was normal. */
module LinkNotices {
  import opened Common
  import opened StopReasons
  import opened LinkProtocol
  import opened LinkEffects
  import opened LinkHistory
  import opened LinkCauses

  ghost predicate TakenOk(s: System, a: ActorId, n: Notice) {
    && a in s.actors
    && (|| n.why.Normal?
        || (s.actors[a].phase.Handling? && s.actors[a].phase.notice == n)
        || s.actors[a].reason == Some(LinkDied(n.dead, n.why))
        || s.actors[a].reason == Some(Killed))
  }

  /** A notice being handled, or blamed by a final reason, was taken out of the mailbox. */
  ghost predicate NoticeOk(s: System, a: ActorId)
    requires a in s.actors
  {
    var x := s.actors[a];
    && (x.phase.Handling? ==> (a, x.phase.notice) in s.taken)
    && (x.reason.Some? && x.reason.value.LinkDied? ==> (a, Notice(x.reason.value.id, x.reason.value.reason)) in s.taken)
  }

  ghost predicate NoticeInv(s: System) {
    && (forall x :: x in s.taken ==> TakenOk(s, x.0, x.1))
    && (forall a :: a in s.actors ==> NoticeOk(s, a))
  }

  /** Nothing about reasons and notices in hand changed. */
  lemma NoticeFrame(s: System, s': System)
    requires NoticeInv(s) && s'.taken == s.taken && s.actors.Keys <= s'.actors.Keys
    requires forall a :: a in s.actors ==> s'.actors[a].reason == s.actors[a].reason
    requires forall a :: a in s.actors && (s.actors[a].phase.Handling? || s'.actors[a].phase.Handling?) ==>
      s'.actors[a].phase == s.actors[a].phase
    requires forall a :: a in s'.actors && a !in s.actors ==> s'.actors[a].reason.None? && !s'.actors[a].phase.Handling?
    ensures NoticeInv(s')
  {
    forall x | x in s'.taken ensures TakenOk(s', x.0, x.1) {
      assert TakenOk(s, x.0, x.1);
    }
    forall a | a in s'.actors ensures NoticeOk(s', a) {
      if a in s.actors {
        assert NoticeOk(s, a);
      }
    }
  }

  /** Only this actor changed, and it answers for its notices. */
  lemma NoticeOf(s: System, s': System, a: ActorId)
    requires NoticeInv(s) && s'.taken == s.taken && s'.actors.Keys == s.actors.Keys && a in s.actors
    requires forall b :: b in s.actors && b != a ==>
      s'.actors[b].phase == s.actors[b].phase && s'.actors[b].reason == s.actors[b].reason
    requires NoticeOk(s', a) && forall n :: (a, n) in s.taken ==> TakenOk(s', a, n)
    ensures NoticeInv(s')
  {
    forall x | x in s'.taken ensures TakenOk(s', x.0, x.1) {
      assert TakenOk(s, x.0, x.1);
      assert x == (x.0, x.1);
    }
    forall b | b in s'.actors ensures NoticeOk(s', b) {
      assert NoticeOk(s, b);
    }
  }

  lemma DieKeepsNotices(s: System, a: ActorId, reason: StopReason)
    requires NoticeInv(s) && a in s.actors && s.actors[a].reason.None?
    requires reason.Killed? || !s.actors[a].phase.Handling?
      || reason == LinkDied(s.actors[a].phase.notice.dead, s.actors[a].phase.notice.why)
      || (s.actors[a].phase.notice.why.Normal? && !reason.LinkDied?)
    requires reason.LinkDied? ==> s.actors[a].phase.Handling?
    ensures NoticeInv(Die(s, a, reason))
  {
    assert NoticeOk(s, a);
    forall n | (a, n) in s.taken ensures TakenOk(Die(s, a, reason), a, n) {
      var x := (a, n);
      assert TakenOk(s, x.0, x.1);
    }
    NoticeOf(s, Die(s, a, reason), a);
  }

  lemma DecidedKeepsNotices(s: System, a: ActorId)
    requires NoticeInv(s) && a in s.actors && s.actors[a].phase.Handling? && s.actors[a].reason.None?
    requires !s.actors[a].phase.notice.why.PeerDisconnected?
    ensures NoticeInv(Decided(s, a))
  {
    var n := s.actors[a].phase.notice;
    match DefaultOnLinkDied(n.dead, n.why)
    case Continue => NormalNoticeKeepsNotices(s, a);
    case Break(reason) => DieKeepsNotices(s, a, reason);
  }

  lemma RemovalLeaveKeepsNotices(s: System, t: TaskId)
    requires PhaseInv(s) && CauseInv(s) && NoticeInv(s) && CanAdvance(s, t)
    requires s.tasks[t].job.Removal? && !QuietStep(s.tasks[t])
    ensures NoticeInv(AdvanceTask(s, t))
  {
    hide AdvanceTask;
    var a := s.tasks[t].job.actor;
    assert TaskOk(s, s.tasks[t]) && JobPhaseOk(s, t) && PhaseOk(s, a) && CauseOk(s, a);
    RemovalLeaveEffect(s, t);
    var s1 := s.(tasks := s.tasks - {t}, owner := s.owner - {a});
    NoticeFrame(s, s1);
    NoticeIsNotForeign(s, a, s.actors[a].phase.notice);
    hide NoticeInv, CauseInv;
    DecidedKeepsNotices(s1, a);
  }

  lemma NormalNoticeKeepsNotices(s: System, a: ActorId)
    requires NoticeInv(s) && a in s.actors && s.actors[a].reason.None?
    requires s.actors[a].phase.Handling? && s.actors[a].phase.notice.why.Normal?
    ensures NoticeInv(SetPhase(s, a, Running))
  {
    forall n | (a, n) in s.taken ensures TakenOk(SetPhase(s, a, Running), a, n) {
      var x := (a, n);
      assert TakenOk(s, x.0, x.1);
    }
    NoticeOf(s, SetPhase(s, a, Running), a);
  }

  lemma AdvanceKeepsNotices(s: System, t: TaskId)
    requires PhaseInv(s) && CauseInv(s) && NoticeInv(s) && CanAdvance(s, t)
    ensures NoticeInv(AdvanceTask(s, t))
  {
    hide AdvanceTask, NoticeInv, CauseInv;
    assert TaskOk(s, s.tasks[t]) && JobPhaseOk(s, t);
    if QuietStep(s.tasks[t]) {
      QuietEffect(s, t);
      NoticeFrame(s, AdvanceTask(s, t));
    } else if s.tasks[t].job.Removal? {
      RemovalLeaveKeepsNotices(s, t);
    } else if s.tasks[t].stage.EditThis? {
      DrainEffect(s, t);
      NoticeFrame(s, AdvanceTask(s, t));
    } else {
      DrainLeaveEffect(s, t);
      NoticeFrame(s, AdvanceTask(s, t));
    }
  }

  lemma TakeKeepsNotices(s: System, a: ActorId, t: TaskId)
    requires PhaseInv(s) && NoticeInv(s) && Enabled(s, Take(a, t))
    ensures NoticeInv(Apply(s, Take(a, t)))
  {
    hide Apply;
    TakeEffect(s, a, t);
    var s' := Apply(s, Take(a, t));
    assert PhaseOk(s, a);
    forall x | x in s'.taken ensures TakenOk(s', x.0, x.1) {
      if x in s.taken {
        assert TakenOk(s, x.0, x.1);
      }
    }
    forall b | b in s'.actors ensures NoticeOk(s', b) {
      assert NoticeOk(s, b);
    }
  }

  lemma KillKeepsNotices(s: System, a: ActorId)
    requires PhaseInv(s) && NoticeInv(s) && Enabled(s, Kill(a))
    ensures NoticeInv(Apply(s, Kill(a)))
  {
    hide Apply, NoticeInv;
    KillEffect(s, a);
    assert PhaseOk(s, a);
    NoticeFrame(s, Interrupted(s, a));
    DieKeepsNotices(Interrupted(s, a), a, Killed);
  }

  lemma PairKeepsNotices(s: System, act: Action)
    requires TasksOk(s) && NoticeInv(s) && Enabled(s, act) && (act.BeginPair? || act.Cancel?)
    ensures NoticeInv(Apply(s, act))
  {
    hide Apply, NoticeInv;
    match act
    case BeginPair(t, kind, a, b) => BeginPairEffect(s, t, kind, a, b); NoticeFrame(s, Apply(s, act));
    case Cancel(t) => CancelEffect(s, t); NoticeFrame(s, Apply(s, act));
  }

  lemma NotifyKeepsNotices(s: System, a: ActorId, b: ActorId, delivered: bool)
    requires TasksOk(s) && NoticeInv(s) && Enabled(s, Notify(a, b, delivered))
    ensures NoticeInv(Apply(s, Notify(a, b, delivered)))
  {
    hide Apply, NoticeInv;
    NotifyEffect(s, a, b, delivered);
    NoticeFrame(s, Apply(s, Notify(a, b, delivered)));
  }

  lemma MoveKeepsNotices(s: System, act: Action)
    requires PhaseInv(s) && NoticeInv(s) && Enabled(s, act) && (act.Spawn? || act.BeginDrain? || MovesOnly(act))
    ensures NoticeInv(Apply(s, act))
  {
    hide Apply, NoticeInv;
    if act.Spawn? {
      SpawnEffect(s, act.actor);
    } else if act.BeginDrain? {
      BeginDrainEffect(s, act.actor, act.task);
    } else {
      MoveEffect(s, act);
    }
    NoticeFrame(s, Apply(s, act));
  }

  lemma ApplyKeepsNotices(s: System, act: Action)
    requires PhaseInv(s) && CauseInv(s) && NoticeInv(s) && Enabled(s, act)
    ensures NoticeInv(Apply(s, act))
  {
    hide Apply, AdvanceTask, NoticeInv, CauseInv;
    match act
    case Advance(t) => AdvanceEffect(s, t); AdvanceKeepsNotices(s, t);
    case Take(a, t) => TakeKeepsNotices(s, a, t);
    case Kill(a) => KillKeepsNotices(s, a);
    case Break(a, reason) => BreakEffect(s, a, reason); assert PhaseOk(s, a); DieKeepsNotices(s, a, reason);
    case BeginPair(_, _, _, _) => PairKeepsNotices(s, act);
    case Cancel(_) => PairKeepsNotices(s, act);
    case Notify(a, b, delivered) => NotifyKeepsNotices(s, a, b, delivered);
    case _ => MoveKeepsNotices(s, act);
  }

  // ---------- Every notice counts once ----------

  /** How often a notice reached an actor: it was taken, or waits in the mailbox. */
  ghost function Arrived(s: System, a: ActorId, n: Notice): nat
    requires a in s.actors
  {
    s.taken[(a, n)] + multiset(s.actors[a].mailbox)[n]
  }

  ghost predicate CountInv(s: System) {
    && (forall a, n :: a in s.actors ==> Arrived(s, a, n) <= s.issued[(n.dead, a, n.why)])
    && (forall x :: x in s.taken ==> x.0 in s.actors)
  }

  lemma CountFrame(s: System, s': System)
    requires CountInv(s) && s'.taken == s.taken && s.issued <= s'.issued && s.actors.Keys <= s'.actors.Keys
    requires forall a :: a in s.actors ==> s'.actors[a].mailbox == s.actors[a].mailbox
    requires forall a :: a in s'.actors && a !in s.actors ==> s'.actors[a].mailbox == []
    ensures CountInv(s')
  {
    forall a, n | a in s'.actors ensures Arrived(s', a, n) <= s'.issued[(n.dead, a, n.why)] {
      if a in s.actors {
        assert Arrived(s, a, n) <= s.issued[(n.dead, a, n.why)];
      } else {
        assert (a, n) !in s.taken;
      }
    }
  }

  /** Taking the first notice moves it from the mailbox to those taken. */
  lemma TakeMoves(s: System, s': System, a: ActorId, b: ActorId, n: Notice)
    requires a in s.actors && b in s.actors && b in s'.actors && s.actors[a].mailbox != []
    requires s'.taken == s.taken + multiset{(a, s.actors[a].mailbox[0])}
    requires s'.actors[b].mailbox == if b == a then s.actors[a].mailbox[1..] else s.actors[b].mailbox
    ensures Arrived(s', b, n) == Arrived(s, b, n)
  {
    var mailbox := s.actors[a].mailbox;
    assert mailbox == [mailbox[0]] + mailbox[1..];
  }

  lemma TakeKeepsCount(s: System, a: ActorId, t: TaskId)
    requires TasksOk(s) && CountInv(s) && Enabled(s, Take(a, t))
    ensures CountInv(Apply(s, Take(a, t)))
  {
    hide Apply, Arrived;
    TakeEffect(s, a, t);
    hide TasksOk;
    var s' := Apply(s, Take(a, t));
    forall b, n | b in s'.actors ensures Arrived(s', b, n) <= s'.issued[(n.dead, b, n.why)] {
      TakeMoves(s, s', a, b, n);
    }
  }

  lemma ReceiveKeepsCount(s: System, a: ActorId, b: ActorId, why: StopReason, delivered: bool)
    requires CountInv(s) && a in s.actors && (delivered ==> b in s.actors)
    ensures var s1 := Issuing(s, a, b, why); CountInv(if delivered then Receiving(s1, b, Notice(a, why)) else s1)
  {
    var s1 := Issuing(s, a, b, why);
    CountFrame(s, s1);
    if delivered {
      var s', n := Receiving(s1, b, Notice(a, why)), Notice(a, why);
      assert multiset(s'.actors[b].mailbox) == multiset(s.actors[b].mailbox) + multiset{n};
      forall c, m | c in s'.actors ensures Arrived(s', c, m) <= s'.issued[(m.dead, c, m.why)] {
        assert Arrived(s, c, m) <= s.issued[(m.dead, c, m.why)];
        assert (c, m) == (b, n) <==> (m.dead, c, m.why) == (a, b, why);
      }
    }
  }

  /** Nothing but a notification fills a mailbox, and nothing but taking a signal empties one. */
  ghost predicate SameMail(s: System, s': System) {
    && s'.taken == s.taken && s'.issued == s.issued && s'.actors.Keys == s.actors.Keys
    && forall a :: a in s.actors ==> s'.actors[a].mailbox == s.actors[a].mailbox
  }

  lemma OwnStepKeepsMail(s: System, t: TaskId)
    requires PhaseInv(s) && CanAdvance(s, t) && !QuietStep(s.tasks[t])
    ensures SameMail(s, AdvanceTask(s, t))
  {
    hide AdvanceTask, DefaultOnLinkDied;
    assert TaskOk(s, s.tasks[t]) && JobPhaseOk(s, t);
    hide PhaseInv;
    if s.tasks[t].job.Removal? {
      RemovalLeaveEffect(s, t);
    } else if s.tasks[t].stage.EditThis? {
      DrainEffect(s, t);
    } else {
      DrainLeaveEffect(s, t);
    }
  }

  lemma AdvanceKeepsCount(s: System, t: TaskId)
    requires PhaseInv(s) && CountInv(s) && CanAdvance(s, t)
    ensures CountInv(AdvanceTask(s, t))
  {
    hide AdvanceTask, CountInv;
    if QuietStep(s.tasks[t]) {
      QuietEffect(s, t);
    } else {
      OwnStepKeepsMail(s, t);
    }
    hide PhaseInv;
    CountFrame(s, AdvanceTask(s, t));
  }

  lemma SectionKeepsCount(s: System, act: Action)
    requires TasksOk(s) && CountInv(s) && Enabled(s, act) && (act.BeginPair? || act.Cancel? || act.BeginDrain?)
    ensures CountInv(Apply(s, act))
  {
    hide Apply, CountInv;
    match act
    case BeginPair(t, kind, a, b) => BeginPairEffect(s, t, kind, a, b); CountFrame(s, Apply(s, act));
    case Cancel(t) => CancelEffect(s, t); CountFrame(s, Apply(s, act));
    case BeginDrain(a, t) => BeginDrainEffect(s, a, t); CountFrame(s, Apply(s, act));
  }

  lemma MoveKeepsCount(s: System, act: Action)
    requires TasksOk(s) && CountInv(s) && Enabled(s, act)
    requires act.Spawn? || act.Break? || act.Kill? || MovesOnly(act)
    ensures CountInv(Apply(s, act))
  {
    hide Apply, CountInv;
    match act {
    case Spawn(a) => SpawnEffect(s, a);
    case Break(a, reason) => BreakEffect(s, a, reason);
    case Kill(a) => KillEffect(s, a);
    case _ => MoveEffect(s, act);
    }
    CountFrame(s, Apply(s, act));
  }

  lemma ApplyKeepsCount(s: System, act: Action)
    requires PhaseInv(s) && CountInv(s) && Enabled(s, act)
    ensures CountInv(Apply(s, act))
  {
    hide Apply, AdvanceTask, CountInv;
    match act
    case Advance(t) => AdvanceEffect(s, t); AdvanceKeepsCount(s, t);
    case Take(a, t) => TakeKeepsCount(s, a, t);
    case Notify(a, b, delivered) =>
      NotifyEffect(s, a, b, delivered);
      assert PhaseOk(s, a);
      ReceiveKeepsCount(s, a, b, s.actors[a].reason.value, delivered);
    case BeginPair(_, _, _, _) => SectionKeepsCount(s, act);
    case Cancel(_) => SectionKeepsCount(s, act);
    case BeginDrain(_, _) => SectionKeepsCount(s, act);
    case _ => MoveKeepsCount(s, act);
  }
}
