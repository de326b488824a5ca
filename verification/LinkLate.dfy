/** Who hears of a death: links made after the dying actor drained its own come too late. */
module LinkLate {
  import opened Common
  import opened LinkProtocol
  import opened LinkLocks
  import opened LinkHistory
  import opened LinkCalls
  import opened LinkSymmetry
  import opened LinkTheorems

  lemma Reaches(s: System, act: Action)
    requires Reachable(s) && TasksOk(s) && Enabled(s, act)
    ensures Reachable(Apply(s, act)) && TasksOk(Apply(s, act))
  {
    var trace :| Run(trace) == Some(s);
    assert (trace + [act])[..|trace|] == trace;
    assert Run(trace + [act]) == Some(Apply(s, act));
    ApplyKeepsTasks(s, act);
  }

  lemma {:induction false} ReachesByAdvancing(s: System, t: TaskId, n: nat)
    requires Reachable(s) && TasksOk(s) && AdvanceTimes(s, t, n).Some?
    ensures Reachable(AdvanceTimes(s, t, n).value) && TasksOk(AdvanceTimes(s, t, n).value)
    decreases n
  {
    hide AdvanceTask;
    if n > 0 {
      Reaches(s, Advance(t));
      ReachesByAdvancing(AdvanceTask(s, t), t, n - 1);
    }
  }

  /** The state some enabled actions lead to from here. */
  ghost function Go(s: System, acts: seq<Action>): Option<System>
    decreases |acts|
  {
    if acts == [] then Some(s)
    else if TasksOk(s) && Enabled(s, acts[0]) then Go(Apply(s, acts[0]), acts[1..])
    else None
  }

  /** On the way, b stays in a's links until a drains them. */
  ghost predicate Kept(s: System, acts: seq<Action>, a: ActorId, b: ActorId)
    decreases |acts|
  {
    && (a !in s.drained ==> a in s.actors && b in LinksOf(s, a))
    && (acts != [] && TasksOk(s) && Enabled(s, acts[0]) ==> Kept(Apply(s, acts[0]), acts[1..], a, b))
  }

  /** A drain on the way finds the link; an earlier one keeps its record. */
  lemma {:induction false} DrainFindsLink(s: System, acts: seq<Action>, a: ActorId, b: ActorId)
    requires Reachable(s) && Go(s, acts).Some? && Kept(s, acts, a, b)
    ensures var e := Go(s, acts).value;
      && Reachable(e)
      && (a in s.drained ==> a in e.drained && e.drained[a] == s.drained[a])
      && (a !in s.drained && a in e.drained ==> b in e.drained[a])
    decreases |acts|
  {
    if acts != [] {
      var next := Apply(s, acts[0]);
      Reaches(s, acts[0]);
      ReachableKeepsInv(s);
      ApplyExtends(s, acts[0]);
      if a !in s.drained && a in next.drained {
        OnlyDrainingDrains(s, acts[0], a);
      }
      hide Apply;
      DrainFindsLink(next, acts[1..], a, b);
    }
  }

  /**
   Who is told of a death, from the moment a link is in place and for as long as it stays: when a stops, b has been
   told, exactly once, if and only if a had not drained its links yet when the link was made, or had already drained
   a link to b before.
   */
  lemma {:induction false} ToldExactly(s: System, acts: seq<Action>, a: ActorId, b: ActorId)
    requires Reachable(s) && a in s.actors && b in LinksOf(s, a)
    requires Go(s, acts).Some? && Kept(s, acts, a, b)
    requires var e := Go(s, acts).value; a in e.actors && e.actors[a].phase.Stopped?
    ensures var e := Go(s, acts).value;
      (exists why :: e.issued[(a, b, why)] == 1) <==> (a in s.drained ==> b in s.drained[a])
  {
    DrainFindsLink(s, acts, a, b);
    var e := Go(s, acts).value;
    ReachableKeepsInv(e);
    assert PhaseOk(e, a);
    forall why ensures
      e.issued[(a, b, why)] == if b in e.drained[a] && e.actors[a].reason == Some(why) then 1 else 0
    {
      EachLinkNotifiedOnce(e, a, b, why);
    }
    if b in e.drained[a] {
      assert e.issued[(a, b, e.actors[a].reason.value)] == 1;
    }
  }
}
