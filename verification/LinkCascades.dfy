/** A death that spreads: how an undisturbed actor dies, tells its siblings, and how they die of it in turn. */
module LinkCascades {
  import opened Common
  import opened StopReasons
  import opened LinkProtocol
  import opened LinkEffects
  import opened LinkLocks
  import opened LinkHistory
  import opened LinkSymmetry
  import opened LinkTheorems
  import opened LinkCalls
  import opened LinkLate

  /** Some enabled actions lead from one state to the other. */
  ghost predicate Leads(s: System, s': System) {
    exists acts :: Go(s, acts) == Some(s')
  }

  lemma LeadsByOne(s: System, act: Action)
    requires TasksOk(s) && Enabled(s, act)
    ensures TasksOk(Apply(s, act)) && Leads(s, Apply(s, act))
  {
    ApplyKeepsTasks(s, act);
    hide Apply, Enabled, TasksOk;
    assert [act][1..] == [];
    assert Go(s, [act]) == Some(Apply(s, act));
  }

  lemma {:induction false} GoOn(s: System, acts: seq<Action>, more: seq<Action>)
    requires Go(s, acts).Some?
    ensures Go(s, acts + more) == Go(Go(s, acts).value, more)
    decreases |acts|
  {
    hide Apply, Enabled;
    if acts == [] {
      assert acts + more == more;
    } else {
      assert (acts + more)[1..] == acts[1..] + more;
      GoOn(Apply(s, acts[0]), acts[1..], more);
    }
  }

  lemma LeadsOn(s: System, mid: System, s': System)
    requires Leads(s, mid) && Leads(mid, s')
    ensures Leads(s, s')
  {
    var acts :| Go(s, acts) == Some(mid);
    var more :| Go(mid, more) == Some(s');
    GoOn(s, acts, more);
    hide Go;
  }

  lemma {:induction false} GoesToReachable(s: System, acts: seq<Action>)
    requires Reachable(s) && Go(s, acts).Some?
    ensures Reachable(Go(s, acts).value)
    decreases |acts|
  {
    hide Reachable, Apply, Enabled;
    if acts != [] {
      Reaches(s, acts[0]);
      GoesToReachable(Apply(s, acts[0]), acts[1..]);
    }
  }

  lemma LeadsToReachable(s: System, s': System)
    requires Reachable(s) && Leads(s, s')
    ensures Reachable(s')
  {
    var acts :| Go(s, acts) == Some(s');
    GoesToReachable(s, acts);
  }

  // ---------- A sibling's death ----------

  /** What dealing with the oldest notice leaves of an actor: it goes on if that death was normal, else dies of it. */
  function AfterNotice(x: Actor): Actor
    requires x.mailbox != []
  {
    var n := x.mailbox[0];
    var forgot := x.(mailbox := x.mailbox[1..], links := x.links - {n.dead});
    match n.why
    case Normal => forgot.(phase := Running)
    case PeerDisconnected => forgot.(phase := Dying, reason := Some(PeerDisconnected))
    case _ => forgot.(phase := Dying, reason := Some(LinkDied(n.dead, n.why)))
  }

  function NoticeHandled(s: System, a: ActorId): System
    requires a in s.actors && s.actors[a].mailbox != []
  {
    var n := s.actors[a].mailbox[0];
    s.(actors := s.actors[a := AfterNotice(s.actors[a])],
       deaths := if n.why.Normal? then s.deaths else s.deaths + [a],
       taken := s.taken + multiset{(a, n)})
  }

  /** The section that forgets a dead sibling, from the moment the notice is taken. */
  lemma RemovesAlone(s: System, a: ActorId, t: TaskId, n: Notice)
    requires TasksOk(s) && a in s.actors && a !in s.owner && s.actors[a].phase == Handling(t, n)
    requires t in s.tasks && s.tasks[t] == Task(Removal(a, n.dead), WaitFirst)
    ensures var s1 := s.(actors := s.actors[a := s.actors[a].(links := s.actors[a].links - {n.dead})],
                         tasks := s.tasks - {t});
      Leads(s, Decided(s1, a))
  {
    hide Apply, AdvanceTask, Leads, Decided;
    LeadsByOne(s, Advance(t));
    AdvanceEffect(s, t);
    WaitFirstEffect(s, t);
    var s1 := Apply(s, Advance(t));
    LeadsByOne(s1, Advance(t));
    AdvanceEffect(s1, t);
    RemovalEffect(s1, t);
    var s2 := Apply(s1, Advance(t));
    LeadsByOne(s2, Advance(t));
    AdvanceEffect(s2, t);
    RemovalLeaveEffect(s2, t);
    LeadsOn(s, s1, s2);
    LeadsOn(s, s2, Apply(s2, Advance(t)));
    assert s2.tasks - {t} == s.tasks - {t};
    assert s2.owner - {a} == s.owner;
  }

  /** An undisturbed actor deals with the oldest notice in four steps, to the end it must come to. */
  lemma {:induction false} HandlesNotice(s: System, a: ActorId, t: TaskId)
    requires TasksOk(s) && Enabled(s, Take(a, t)) && a !in s.owner
    ensures Leads(s, NoticeHandled(s, a))
  {
    LeadsByOne(s, Take(a, t));
    TakeEffect(s, a, t);
    var s1, n := Apply(s, Take(a, t)), s.actors[a].mailbox[0];
    hide Apply, Leads, TasksOk, Enabled;
    RemovesAlone(s1, a, t, n);
    assert s1.tasks - {t} == s.tasks;
    TakenAndForgotten(s, s1, a, t);
    LeadsOn(s, s1, NoticeHandled(s, a));
  }

  lemma TakenAndForgotten(s: System, s1: System, a: ActorId, t: TaskId)
    requires a in s.actors && s.actors[a].mailbox != []
    requires var x := s.actors[a];
      s1 == s.(actors := s.actors[a := x.(phase := Handling(t, x.mailbox[0]), mailbox := x.mailbox[1..])],
               tasks := s1.tasks, taken := s.taken + multiset{(a, x.mailbox[0])})
    ensures var x1, n := s1.actors[a], s.actors[a].mailbox[0];
      Decided(s1.(actors := s1.actors[a := x1.(links := x1.links - {n.dead})], tasks := s.tasks), a)
        == NoticeHandled(s, a)
  {
  }

  // ---------- An actor's own death ----------

  /** The last two steps of that section, with its lock held. */
  lemma DrainsLocked(s: System, a: ActorId, t: TaskId)
    requires TasksOk(s) && t in s.tasks && s.tasks[t] == Task(Drain(a), EditThis) && a in s.actors
    ensures var x := s.actors[a];
      Leads(s, s.(actors := s.actors[a := x.(phase := Stopping, links := {}, toNotify := x.links)],
                  drained := s.drained[a := x.links], tasks := s.tasks - {t}, owner := s.owner - {a}))
  {
    hide Apply, AdvanceTask, Leads;
    LeadsByOne(s, Advance(t));
    AdvanceEffect(s, t);
    DrainEffect(s, t);
    var s1 := Apply(s, Advance(t));
    LeadsByOne(s1, Advance(t));
    AdvanceEffect(s1, t);
    DrainLeaveEffect(s1, t);
    LeadsOn(s, s1, Apply(s1, Advance(t)));
    assert s1.tasks - {t} == s.tasks - {t};
    var x := s.actors[a];
    assert Apply(s1, Advance(t)).actors == s.actors[a := x.(phase := Stopping, links := {}, toNotify := x.links)];
  }

  /** The section of a dying actor that empties its links. */
  lemma DrainsItsLinks(s: System, a: ActorId, t: TaskId)
    requires TasksOk(s) && Enabled(s, BeginDrain(a, t)) && a !in s.owner
    ensures var x := s.actors[a];
      Leads(s, s.(actors := s.actors[a := x.(phase := Stopping, links := {}, toNotify := x.links)],
                  drained := s.drained[a := x.links]))
  {
    hide Apply, AdvanceTask, Leads;
    LeadsByOne(s, BeginDrain(a, t));
    BeginDrainEffect(s, a, t);
    var s1 := Apply(s, BeginDrain(a, t));
    LeadsByOne(s1, Advance(t));
    AdvanceEffect(s1, t);
    WaitFirstEffect(s1, t);
    var s2 := Apply(s1, Advance(t));
    LeadsOn(s, s1, s2);
    DrainsLocked(s2, a, t);
    hide Enabled, TasksOk;
    var x := s.actors[a];
    var end := s.(actors := s.actors[a := x.(phase := Stopping, links := {}, toNotify := x.links)],
                  drained := s.drained[a := x.links]);
    assert s2.tasks - {t} == s.tasks && s2.owner - {a} == s.owner;
    assert s2.actors[a := s2.actors[a].(phase := Stopping, links := {}, toNotify := x.links)] == end.actors;
    LeadsOn(s, s2, end);
  }

  /** What is left of an actor once the notifier told some siblings: each that still accepts signals has one more. */
  function Hearing(s: System, a: ActorId, why: StopReason, told: set<ActorId>, b: ActorId): Actor
    requires a in s.actors && b in s.actors
  {
    if b == a then s.actors[a].(toNotify := s.actors[a].toNotify - told)
    else if b in told && Accepting(s.actors[b])
    then s.actors[b].(mailbox := s.actors[b].mailbox + [Notice(a, why)])
    else s.actors[b]
  }

  function Told(a: ActorId, why: StopReason, told: set<ActorId>): set<(ActorId, ActorId, StopReason)> {
    set b | b in told :: (a, b, why)
  }

  function Telling(s: System, a: ActorId, why: StopReason, told: set<ActorId>): System
    requires a in s.actors
  {
    s.(actors := map b | b in s.actors :: Hearing(s, a, why, told, b),
       issued := s.issued + multiset(Told(a, why, told)))
  }

  lemma OneMoreTold(a: ActorId, why: StopReason, told: set<ActorId>, b: ActorId)
    requires b !in told
    ensures multiset(Told(a, why, told + {b})) == multiset(Told(a, why, told)) + multiset{(a, b, why)}
  {
    assert Told(a, why, told + {b}) == Told(a, why, told) + {(a, b, why)};
    assert (a, b, why) !in Told(a, why, told);
  }

  /** One notification, on one actor. */
  function OneHears(x: Actor, a: ActorId, why: StopReason, b: ActorId, c: ActorId): Actor {
    if c == a then x.(toNotify := x.toNotify - {b})
    else if c == b && Accepting(x) then x.(mailbox := x.mailbox + [Notice(a, why)])
    else x
  }

  lemma OneMoreHears(s: System, a: ActorId, why: StopReason, told: set<ActorId>, b: ActorId, c: ActorId)
    requires a in s.actors && c in s.actors && b != a && b !in told
    ensures Hearing(s, a, why, told + {b}, c) == OneHears(Hearing(s, a, why, told, c), a, why, b, c)
  {
    assert s.actors[a].toNotify - (told + {b}) == s.actors[a].toNotify - told - {b};
  }

  lemma NotifiesOne(s: System, a: ActorId, why: StopReason, b: ActorId)
    requires TasksOk(s) && a in s.actors && s.actors[a].reason == Some(why) && b != a
    requires s.actors[a].phase.Notifying? && b in s.actors[a].toNotify
    ensures var delivered := b in s.actors && Accepting(s.actors[b]);
      && Enabled(s, Notify(a, b, delivered))
      && Apply(s, Notify(a, b, delivered)) ==
         s.(actors := map c | c in s.actors :: OneHears(s.actors[c], a, why, b, c),
            issued := s.issued + multiset{(a, b, why)})
  {
    var delivered := b in s.actors && Accepting(s.actors[b]);
    NotifyEffect(s, a, b, delivered);
    hide Apply, TasksOk;
    assert Apply(s, Notify(a, b, delivered)).actors == map c | c in s.actors :: OneHears(s.actors[c], a, why, b, c);
  }

  lemma TellsOneMore(s: System, a: ActorId, why: StopReason, told: set<ActorId>, b: ActorId)
    requires a in s.actors && s.actors[a].reason == Some(why) && b != a && b !in told
    requires TasksOk(Telling(s, a, why, told))
    requires s.actors[a].phase.Notifying? && b in s.actors[a].toNotify
    ensures var s1 := Telling(s, a, why, told);
      var delivered := b in s.actors && Accepting(s.actors[b]);
      Enabled(s1, Notify(a, b, delivered)) && Apply(s1, Notify(a, b, delivered)) == Telling(s, a, why, told + {b})
  {
    var s1, s2 := Telling(s, a, why, told), Telling(s, a, why, told + {b});
    OneMoreTold(a, why, told, b);
    NotifiesOne(s1, a, why, b);
    hide Apply, Told, TasksOk, Enabled;
    forall c | c in s.actors ensures s2.actors[c] == OneHears(s1.actors[c], a, why, b, c) {
      OneMoreHears(s, a, why, told, b, c);
    }
    hide OneHears, Hearing;
    assert s2.actors == map c | c in s1.actors :: OneHears(s1.actors[c], a, why, b, c);
  }

  lemma {:induction false} TellsAll(s: System, a: ActorId, why: StopReason, told: set<ActorId>)
    requires TasksOk(s) && a in s.actors && s.actors[a].reason == Some(why)
    requires s.actors[a].phase.Notifying? && told <= s.actors[a].toNotify && a !in told
    ensures Leads(s, Telling(s, a, why, told)) && TasksOk(Telling(s, a, why, told))
    decreases |told|
  {
    if told == {} {
      NobodyTold(s, a, why);
    } else {
      var b :| b in told;
      var others := told - {b};
      TellsAll(s, a, why, others);
      var s1, delivered := Telling(s, a, why, others), b in s.actors && Accepting(s.actors[b]);
      TellsOneMore(s, a, why, others, b);
      LeadsByOne(s1, Notify(a, b, delivered));
      assert others + {b} == told;
      LeadsOn(s, s1, Telling(s, a, why, told));
      hide Telling, Leads, Apply;
    }
  }

  lemma NobodyTold(s: System, a: ActorId, why: StopReason)
    requires a in s.actors
    ensures Telling(s, a, why, {}) == s && Leads(s, s)
  {
    assert Told(a, why, {}) == {};
    assert s.actors[a].toNotify - {} == s.actors[a].toNotify;
    forall b | b in s.actors ensures Hearing(s, a, why, {}, b) == s.actors[b] {
    }
    assert Telling(s, a, why, {}).actors == s.actors;
    assert Go(s, []) == Some(s);
  }

  /** A dying actor's links are empty, its siblings that accept signals have been told, and it has stopped. */
  function Departed(s: System, a: ActorId, why: StopReason): System
    requires a in s.actors
  {
    var x := s.actors[a];
    s.(actors := map b | b in s.actors ::
         if b == a then x.(phase := Stopped, links := {}, toNotify := {})
         else if b in x.links && Accepting(s.actors[b])
         then s.actors[b].(mailbox := s.actors[b].mailbox + [Notice(a, why)])
         else s.actors[b],
       drained := s.drained[a := x.links],
       issued := s.issued + multiset(set b | b in x.links :: (a, b, why)))
  }

  /** From the hook that runs last to the end. */
  lemma StopsAfterTelling(s: System, a: ActorId, why: StopReason)
    requires TasksOk(s) && a in s.actors && s.actors[a].phase.Stopping? && s.actors[a].reason == Some(why)
    requires a !in s.actors[a].toNotify
    ensures var s1 := s.(actors := s.actors[a := s.actors[a].(phase := Notifying)]);
      var s2 := Telling(s1, a, why, s.actors[a].toNotify);
      a in s2.actors && Leads(s, s2.(actors := s2.actors[a := s2.actors[a].(phase := Stopped)]))
  {
    LeadsByOne(s, Action.OnStop(a, false));
    MoveEffect(s, Action.OnStop(a, false));
    hide Apply, Leads;
    var s1 := Apply(s, Action.OnStop(a, false));
    TellsAll(s1, a, why, s.actors[a].toNotify);
    var s2 := Telling(s1, a, why, s.actors[a].toNotify);
    LeadsOn(s, s1, s2);
    LeadsByOne(s2, Finish(a));
    MoveEffect(s2, Finish(a));
    LeadsOn(s, s2, Apply(s2, Finish(a)));
  }

  lemma DepartedIs(s: System, a: ActorId, why: StopReason)
    requires a in s.actors
    ensures var x := s.actors[a];
      var s1 := s.(actors := s.actors[a := x.(phase := Notifying, links := {}, toNotify := x.links)],
                   drained := s.drained[a := x.links]);
      var s2 := Telling(s1, a, why, x.links);
      s2.(actors := s2.actors[a := s2.actors[a].(phase := Stopped)]) == Departed(s, a, why)
  {
    var x := s.actors[a];
    var s1 := s.(actors := s.actors[a := x.(phase := Notifying, links := {}, toNotify := x.links)],
                 drained := s.drained[a := x.links]);
    var s2 := Telling(s1, a, why, x.links);
    assert x.links - x.links == {};
    assert Told(a, why, x.links) == set b | b in x.links :: (a, b, why);
    assert s2.actors[a := s2.actors[a].(phase := Stopped)] == Departed(s, a, why).actors;
  }

  /** An undisturbed dying actor tells everyone it is linked to, and stops. */
  lemma {:induction false} Departs(s: System, a: ActorId, t: TaskId, why: StopReason)
    requires TasksOk(s) && Enabled(s, BeginDrain(a, t)) && a !in s.owner
    requires s.actors[a].reason == Some(why) && a !in s.actors[a].links
    ensures Leads(s, Departed(s, a, why))
  {
    var x := s.actors[a];
    DrainsItsLinks(s, a, t);
    var s1 := s.(actors := s.actors[a := x.(phase := Stopping, links := {}, toNotify := x.links)],
                 drained := s.drained[a := x.links]);
    assert TasksOk(s1);
    hide Leads, TasksOk, Telling, Departed;
    StopsAfterTelling(s1, a, why);
    DepartedIs(s, a, why);
    assert s1.actors[a := s1.actors[a].(phase := Notifying)]
      == s.actors[a := x.(phase := Notifying, links := {}, toNotify := x.links)];
    LeadsOn(s, s1, Departed(s, a, why));
  }

  // ---------- From one actor to the next ----------

  lemma FreeLocks(s: System)
    requires Reachable(s) && s.tasks == map[]
    ensures s.owner == map[] && TasksOk(s)
  {
    ReachableKeepsInv(s);
  }

  lemma NotItsOwnSibling(s: System, a: ActorId)
    requires Reachable(s) && s.tasks == map[] && a in s.actors && s.actors[a].phase.Running?
    ensures a !in LinksOf(s, a)
  {
    ReachableKeepsInv(s);
    assert PhaseOk(s, a);
    LinksAreMutual(s, a, a);
  }

  /** A killed actor, with nothing else going on, is gone and has told its siblings. */
  lemma KilledDeparts(s: System, a: ActorId)
    requires TasksOk(s) && s.tasks == map[] && s.owner == map[]
    requires a in s.actors && s.actors[a].phase.Running? && a !in s.actors[a].links
    ensures var s1 := Die(s, a, Killed); Leads(s, Departed(s1, a, Killed)) && TasksOk(Departed(s1, a, Killed))
  {
    LeadsByOne(s, Kill(a));
    KillEffect(s, a);
    hide Leads, Apply;
    var s1 := Die(s, a, Killed);
    Departs(s1, a, 0, Killed);
    LeadsOn(s, s1, Departed(s1, a, Killed));
  }

  /** Between running actors that are linked: the killed one stops, and the other takes the notice up and dies of it. */
  lemma {:induction false} KillSpreads(s: System, a: ActorId, b: ActorId) returns (s': System)
    requires Reachable(s) && s.tasks == map[] && a in s.actors && b in s.actors
    requires s.actors[a].phase.Running? && s.actors[b].phase.Running?
    requires b in LinksOf(s, a) && s.actors[b].mailbox == []
    ensures Reachable(s') && Leads(s, s') && a in s'.actors && b in s'.actors
    ensures s'.actors[a].phase.Stopped? && s'.actors[a].reason == Some(Killed)
    ensures s'.actors[b].phase.Dying? && s'.actors[b].reason == Some(LinkDied(a, Killed))
    ensures a !in LinksOf(s', b) && s'.deaths == s.deaths + [a, b]
  {
    FreeLocks(s);
    NotItsOwnSibling(s, a);
    KilledDeparts(s, a);
    var s2 := Departed(Die(s, a, Killed), a, Killed);
    hide Leads, Reachable;
    assert s2.actors[b].mailbox == [Notice(a, Killed)];
    s' := NoticeHandled(s2, b);
    HandlesNotice(s2, b, 0);
    LeadsOn(s, s2, s');
    LeadsToReachable(s, s');
  }

  // ---------- Concrete runs ----------

  lemma TwoRunning() returns (s: System)
    ensures Reachable(s) && TasksOk(s) && 1 in s.actors && 2 in s.actors
    ensures s.actors[1] == Actor(Running, {}, [], None, {}) && s.actors[2] == s.actors[1]
    ensures s.tasks == map[] && s.owner == map[] && s.drained == map[] && s.issued == multiset{}
  {
    assert Run([]) == Some(EMPTY);
    Reaches(EMPTY, Spawn(1));
    var s1 := Apply(EMPTY, Spawn(1));
    Reaches(s1, Spawn(2));
    var s2 := Apply(s1, Spawn(2));
    hide Reachable;
    Reaches(s2, Start(1));
    var s3 := Apply(s2, Start(1));
    Reaches(s3, Start(2));
    s := Apply(s3, Start(2));
  }

  /** A link call that nobody interferes with, from any reachable state. */
  lemma LinksAlone(s: System, a: ActorId, b: ActorId) returns (s': System)
    requires Reachable(s) && s.tasks == map[] && a in s.actors && b in s.actors && a != b
    ensures Reachable(s')
    ensures s' == s.(actors := s.actors[a := s.actors[a].(links := s.actors[a].links + {b})]
                                       [b := s.actors[b].(links := s.actors[b].links + {a})])
  {
    FreeLocks(s);
    Reaches(s, BeginPair(0, Link, a, b));
    CallAlone(s, 0, Link, a, b);
    hide Apply, AdvanceTimes, Reachable, TasksOk;
    ReachesByAdvancing(Apply(s, BeginPair(0, Link, a, b)), 0, 6);
    s' := Called(s, Link, a, b);
  }

  /** A reachable state in which a death has spread. */
  lemma DeathsSpread() returns (s: System)
    ensures Reachable(s) && 1 in s.actors && 2 in s.actors
    ensures s.actors[1].reason == Some(Killed) && s.actors[2].reason == Some(LinkDied(1, Killed))
  {
    var s0 := TwoRunning();
    var s1 := LinksAlone(s0, 1, 2);
    hide Reachable;
    s := KillSpreads(s1, 1, 2);
  }

  /** A reachable state: both actors list each other, the first one has stopped, and the second was told nothing. */
  lemma LateLinkIsNeverTold() returns (s: System)
    ensures Reachable(s) && 1 in s.actors && 2 in s.actors
    ensures 2 in s.actors[1].links && 1 in s.actors[2].links
    ensures s.actors[1].phase.Stopped? && 1 in s.drained && 2 !in s.drained[1]
    ensures forall why :: s.issued[(1, 2, why)] == 0
  {
    var s0 := TwoRunning();
    hide Reachable, Leads;
    KilledDeparts(s0, 1);
    var s1 := Departed(Die(s0, 1, Killed), 1, Killed);
    LeadsToReachable(s0, s1);
    assert (set b | b in s0.actors[1].links :: (1, b, Killed)) == {};
    s := LinksAlone(s1, 1, 2);
  }
}
