/** `link` and `unlink` as one caller sees them, and how their locked sections add up to that. */
module LinkCalls {
  import opened Common
  import opened LinkProtocol

  ghost function Step(s: System, t: TaskId): Option<System> {
    if TasksOk(s) && CanAdvance(s, t) then Some(AdvanceTask(s, t)) else None
  }

  /** The section goes on n times with nothing in between. */
  ghost function AdvanceTimes(s: System, t: TaskId, n: nat): Option<System>
    decreases n
  {
    if n == 0 then Some(s)
    else match Step(s, t)
      case None => None
      case Some(next) => AdvanceTimes(next, t, n - 1)
  }

  /** The outcome of a call on the two maps. */
  function Called(s: System, kind: Kind, a: ActorId, b: ActorId): System
    requires a in s.actors && b in s.actors && a != b
  {
    var s1 := SetLinks(s, a, Edited(kind, s.actors[a].links, b));
    SetLinks(s1, b, Edited(kind, s1.actors[b].links, a))
  }

  /** A pair's section at a stage, owning these locks. */
  function At(s: System, t: TaskId, job: Job, stage: Stage, owner: map<ActorId, TaskId>): System {
    s.(tasks := s.tasks[t := Task(job, stage)], owner := owner)
  }

  lemma TakesFirst(s: System, t: TaskId, job: Job, owner: map<ActorId, TaskId>)
    requires TasksOk(s) && JobOk(s, job) && job.Pair? && job.First() !in owner
    ensures Step(At(s, t, job, WaitFirst, owner), t) == Some(At(s, t, job, WaitSecond, owner[job.First() := t]))
  {
    assert s.tasks[t := Task(job, WaitFirst)][t := Task(job, WaitSecond)] == s.tasks[t := Task(job, WaitSecond)];
  }

  lemma TakesSecond(s: System, t: TaskId, job: Job, owner: map<ActorId, TaskId>)
    requires TasksOk(s) && JobOk(s, job) && job.Pair? && job.Second() !in owner
    ensures Step(At(s, t, job, WaitSecond, owner), t) == Some(At(s, t, job, EditThis, owner[job.Second() := t]))
  {
    assert s.tasks[t := Task(job, WaitSecond)][t := Task(job, EditThis)] == s.tasks[t := Task(job, EditThis)];
  }

  lemma EditsThis(s: System, t: TaskId, job: Job, owner: map<ActorId, TaskId>)
    requires TasksOk(s) && JobOk(s, job) && job.Pair?
    ensures Step(At(s, t, job, EditThis, owner), t) ==
      Some(At(SetLinks(s, job.caller, Edited(job.kind, s.actors[job.caller].links, job.sibling)),
              t, job, EditSibling, owner))
  {
    assert s.tasks[t := Task(job, EditThis)][t := Task(job, EditSibling)] == s.tasks[t := Task(job, EditSibling)];
  }

  lemma EditsSibling(s: System, t: TaskId, job: Job, owner: map<ActorId, TaskId>)
    requires TasksOk(s) && JobOk(s, job) && job.Pair?
    ensures Step(At(s, t, job, EditSibling, owner), t) ==
      Some(At(SetLinks(s, job.sibling, Edited(job.kind, s.actors[job.sibling].links, job.caller)),
              t, job, DropSecond, owner))
  {
    assert s.tasks[t := Task(job, EditSibling)][t := Task(job, DropSecond)] == s.tasks[t := Task(job, DropSecond)];
  }

  lemma FreesSecond(s: System, t: TaskId, job: Job, owner: map<ActorId, TaskId>)
    requires TasksOk(s) && JobOk(s, job) && job.Pair?
    ensures Step(At(s, t, job, DropSecond, owner), t) == Some(At(s, t, job, DropFirst, owner - {job.Second()}))
  {
    assert s.tasks[t := Task(job, DropSecond)][t := Task(job, DropFirst)] == s.tasks[t := Task(job, DropFirst)];
  }

  lemma FreesFirst(s: System, t: TaskId, job: Job, owner: map<ActorId, TaskId>)
    requires TasksOk(s) && JobOk(s, job) && job.Pair? && t !in s.tasks
    ensures Step(At(s, t, job, DropFirst, owner), t) == Some(s.(owner := owner - {job.First()}))
  {
    assert s.tasks[t := Task(job, DropFirst)] - {t} == s.tasks;
  }

  lemma SetLinksKeepsTasks(s: System, a: ActorId, links: set<ActorId>)
    requires TasksOk(s) && a in s.actors
    ensures TasksOk(SetLinks(s, a, links))
  {
  }

  /** The last two steps of a call, once both edits are made. */
  lemma LeavesAlone(s: System, t: TaskId, job: Job, owner: map<ActorId, TaskId>)
    requires TasksOk(s) && JobOk(s, job) && job.Pair? && t !in s.tasks
    ensures AdvanceTimes(At(s, t, job, DropSecond, owner), t, 2) ==
      Some(s.(owner := owner - {job.Second()} - {job.First()}))
  {
    hide Step;
    FreesSecond(s, t, job, owner);
    FreesFirst(s, t, job, owner - {job.Second()});
    assert AdvanceTimes(s.(owner := owner - {job.Second()} - {job.First()}), t, 0).Some?;
    assert AdvanceTimes(At(s, t, job, DropFirst, owner - {job.Second()}), t, 1).Some?;
  }

  /** A call that nobody interferes with does to both maps what the caller was promised, and frees both locks. */
  lemma CallAlone(s: System, t: TaskId, kind: Kind, a: ActorId, b: ActorId)
    requires TasksOk(s) && Enabled(s, BeginPair(t, kind, a, b)) && a != b
    requires a !in s.owner && b !in s.owner
    ensures AdvanceTimes(Apply(s, BeginPair(t, kind, a, b)), t, 6) == Some(Called(s, kind, a, b))
  {
    hide Step, Edited;
    var job := Pair(kind, a, b);
    var none, one := s.owner, s.owner[job.First() := t];
    var both := one[job.Second() := t];
    var edited := SetLinks(s, a, Edited(kind, s.actors[a].links, b));
    var called := Called(s, kind, a, b);
    SetLinksKeepsTasks(s, a, edited.actors[a].links);
    SetLinksKeepsTasks(edited, b, called.actors[b].links);
    TakesFirst(s, t, job, none);
    TakesSecond(s, t, job, one);
    EditsThis(s, t, job, both);
    EditsSibling(edited, t, job, both);
    LeavesAlone(called, t, job, both);
    assert called.(owner := both - {job.Second()} - {job.First()}) == called;
    assert AdvanceTimes(At(called, t, job, DropSecond, both), t, 2) == Some(called);
    assert AdvanceTimes(At(edited, t, job, EditSibling, both), t, 3) == Some(called);
    assert AdvanceTimes(At(s, t, job, EditThis, both), t, 4) == Some(called);
    assert AdvanceTimes(At(s, t, job, WaitSecond, one), t, 5) == Some(called);
  }

  /** A link and then an unlink from either side, undisturbed, lead back to the very same state. */
  lemma UnlinkUndoesLink(s: System, t: TaskId, a: ActorId, b: ActorId)
    requires TasksOk(s) && t !in s.tasks && a in s.actors && b in s.actors && a != b
    requires a !in s.owner && b !in s.owner
    requires b !in s.actors[a].links && a !in s.actors[b].links
    ensures var linked := AdvanceTimes(Apply(s, BeginPair(t, Link, a, b)), t, 6);
      && linked.Some? && TasksOk(linked.value)
      && linked.value.tasks == s.tasks && linked.value.owner == s.owner && linked.value.actors.Keys == s.actors.Keys
      && AdvanceTimes(Apply(linked.value, BeginPair(t, Unlink, a, b)), t, 6) == Some(s)
      && AdvanceTimes(Apply(linked.value, BeginPair(t, Unlink, b, a)), t, 6) == Some(s)
  {
    hide AdvanceTimes;
    CallAlone(s, t, Link, a, b);
    var linked := Called(s, Link, a, b);
    SetLinksKeepsTasks(s, a, linked.actors[a].links);
    SetLinksKeepsTasks(SetLinks(s, a, linked.actors[a].links), b, linked.actors[b].links);
    CallAlone(linked, t, Unlink, a, b);
    CallAlone(linked, t, Unlink, b, a);
    CalledBack(s, a, b);
  }

  lemma CalledBack(s: System, a: ActorId, b: ActorId)
    requires a in s.actors && b in s.actors && a != b
    requires b !in s.actors[a].links && a !in s.actors[b].links
    ensures Called(Called(s, Link, a, b), Unlink, a, b) == s
    ensures Called(Called(s, Link, a, b), Unlink, b, a) == s
  {
    var linked := Called(s, Link, a, b);
    assert linked.actors[a].links - {b} == s.actors[a].links;
    assert linked.actors[b].links - {a} == s.actors[b].links;
    assert Called(linked, Unlink, a, b).actors == s.actors;
    assert Called(linked, Unlink, b, a).actors == s.actors;
  }

  // ---------- The object ----------

  /** The shared side of an actor: every reference to it sees the same links, behind one lock. */
  class ActorRef {
    const id: ActorId
    var links: set<ActorId>
    var locked: bool

    constructor (id: ActorId)
      ensures this.id == id && links == {} && !locked
    {
      this.id, links, locked := id, {}, false;
    }

    /** The object is what a state of the protocol says about this actor. */
    ghost predicate Shows(s: System)
      reads this
    {
      id in s.actors && links == s.actors[id].links && (locked <==> id in s.owner)
    }

    method Lock()
      requires !locked
      modifies this`locked
      ensures locked
    {
      locked := true;
    }

    method Unlock()
      requires locked
      modifies this`locked
      ensures !locked
    {
      locked := false;
    }

    /** Both actors are as the protocol has them at this stage of a section. */
    ghost predicate BothShow(
      sibling: ActorRef, s: System, t: TaskId, kind: Kind, stage: Stage, owner: map<ActorId, TaskId>)
      reads this, sibling
    {
      var at := At(s, t, Pair(kind, id, sibling.id), stage, owner);
      Shows(at) && sibling.Shows(at)
    }

    /** Takes the lock of the smaller id first, as the protocol's first two steps do. */
    method LockBoth(kind: Kind, sibling: ActorRef, ghost s: System, ghost t: TaskId)
      requires id != sibling.id && BothShow(sibling, s, t, kind, WaitFirst, s.owner)
      requires id !in s.owner && sibling.id !in s.owner
      modifies this`locked, sibling`locked
      ensures var job := Pair(kind, id, sibling.id);
        BothShow(sibling, s, t, kind, EditThis, s.owner[job.First() := t][job.Second() := t])
    {
      ghost var one := s.owner[Pair(kind, id, sibling.id).First() := t];
      if id < sibling.id {
        Lock();
        assert BothShow(sibling, s, t, kind, WaitSecond, one);
        sibling.Lock();
      } else {
        sibling.Lock();
        assert BothShow(sibling, s, t, kind, WaitSecond, one);
        Lock();
      }
    }

    method EditBoth(kind: Kind, sibling: ActorRef, ghost s: System, ghost t: TaskId, ghost owner: map<ActorId, TaskId>)
      requires id != sibling.id && BothShow(sibling, s, t, kind, EditThis, owner)
      modifies this`links, sibling`links
      ensures BothShow(sibling, Called(s, kind, id, sibling.id), t, kind, DropSecond, owner)
    {
      links := if kind == Kind.Link then links + {sibling.id} else links - {sibling.id};
      sibling.links := if kind == Kind.Link then sibling.links + {id} else sibling.links - {id};
    }

    /** Frees them in the opposite order, as the guards go out of scope. */
    method UnlockBoth(
      kind: Kind, sibling: ActorRef, ghost s: System, ghost t: TaskId, ghost owner: map<ActorId, TaskId>)
      requires id != sibling.id && BothShow(sibling, s, t, kind, DropSecond, owner)
      requires id in owner && sibling.id in owner
      modifies this`locked, sibling`locked
      ensures var job := Pair(kind, id, sibling.id);
        BothShow(sibling, s, t, kind, DropFirst, owner - {job.Second()} - {job.First()})
    {
      ghost var one := owner - {Pair(kind, id, sibling.id).Second()};
      if id < sibling.id {
        sibling.Unlock();
        assert BothShow(sibling, s, t, kind, DropFirst, one);
        Unlock();
      } else {
        Unlock();
        assert BothShow(sibling, s, t, kind, DropFirst, one);
        sibling.Unlock();
      }
    }

    /** `link` and `unlink` with both locks free: the object ends where the protocol's six steps end. */
    method Call(kind: Kind, sibling: ActorRef, ghost s: System, ghost t: TaskId)
      requires Shows(s) && sibling.Shows(s) && (id == sibling.id ==> this == sibling)
      requires TasksOk(s) && Enabled(s, BeginPair(t, kind, id, sibling.id))
      requires id !in s.owner && sibling.id !in s.owner
      modifies this`links, this`locked, sibling`links, sibling`locked
      ensures this == sibling ==> Shows(s)
      ensures this != sibling ==>
        var end := AdvanceTimes(Apply(s, BeginPair(t, kind, id, sibling.id)), t, 6);
        end.Some? && Shows(end.value) && sibling.Shows(end.value)
    {
      if id == sibling.id {
        return;
      }
      CallAlone(s, t, kind, id, sibling.id);
      hide AdvanceTimes, Apply;
      LockBoth(kind, sibling, s, t);
      ghost var job := Pair(kind, id, sibling.id);
      ghost var both := s.owner[job.First() := t][job.Second() := t];
      EditBoth(kind, sibling, s, t, both);
      UnlockBoth(kind, sibling, Called(s, kind, id, sibling.id), t, both);
    }
  }
}
