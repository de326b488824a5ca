/**
 Many actors linking, unlinking, dying and telling each other, as a transition system over single lock and
 map operations (src/actor/actor_ref.rs, src/actor/spawn.rs, src/actor/kind.rs). Actors run the default hooks.
 */
module LinkProtocol {
  import opened Common
  import opened StopReasons

  type TaskId = nat

  datatype Kind = Link | Unlink

  /** How far a locked section got. Sections under one lock skip the stages about a second one. */
  datatype Stage = WaitFirst | WaitSecond | EditThis | EditSibling | DropSecond | DropFirst

  datatype Job =
    | Pair(kind: Kind, caller: ActorId, sibling: ActorId)   // link or unlink
    | Removal(actor: ActorId, dead: ActorId)               // an actor forgets a dead sibling
    | Drain(actor: ActorId)                                // a dying actor empties its links
  {
    /** The lock taken first: the smaller id of a pair. */
    function First(): ActorId {
      if Pair? then (if caller < sibling then caller else sibling) else actor
    }

    function Second(): ActorId
      requires Pair?
    {
      if caller < sibling then sibling else caller
    }

    function Locks(): set<ActorId> {
      if Pair? then {First(), Second()} else {First()}
    }
  }

  datatype Task = Task(job: Job, stage: Stage) {
    function Holds(): set<ActorId> {
      match stage
      case WaitFirst => {}
      case WaitSecond => {job.First()}
      case DropFirst => {job.First()}
      case _ => job.Locks()
    }

    function Wants(): Option<ActorId> {
      match stage
      case WaitFirst => Some(job.First())
      case WaitSecond => if job.Pair? then Some(job.Second()) else None
      case _ => None
    }
  }

  datatype Notice = Notice(dead: ActorId, why: StopReason)

  datatype Phase =
    | Starting                                       // on_start runs
    | Failed                                         // on_start failed: the links are never drained
    | Running
    | Handling(task: TaskId, notice: Notice)         // on_link_died answered, the dead sibling is being removed
    | Dying                                          // the loop ended with a final reason
    | Draining(task: TaskId)
    | Stopping                                       // on_stop runs
    | Unwound                                        // on_stop panicked
    | Notifying
    | Stopped

  datatype Actor = Actor(
    phase: Phase,
    links: set<ActorId>,
    mailbox: seq<Notice>,
    reason: Option<StopReason>,
    toNotify: set<ActorId>)

  /**
   The actors and the locked sections in progress, with who owns each links lock. The last four fields are
   history: who died in which order, the links each actor drained, the LinkDied signals issued, and those taken
   out of a mailbox.
   */
  datatype System = System(
    actors: map<ActorId, Actor>,
    tasks: map<TaskId, Task>,
    owner: map<ActorId, TaskId>,
    deaths: seq<ActorId>,
    drained: map<ActorId, set<ActorId>>,
    issued: multiset<(ActorId, ActorId, StopReason)>,
    taken: multiset<(ActorId, Notice)>)

  datatype Action =
    | Spawn(actor: ActorId)
    | Start(actor: ActorId)
    | StartFails(actor: ActorId)
    | BeginPair(task: TaskId, kind: Kind, caller: ActorId, sibling: ActorId)
    | Advance(task: TaskId)
    | Cancel(task: TaskId)                            // the future of a link or unlink is dropped while it waits
    | Take(actor: ActorId, task: TaskId)              // receives a LinkDied signal
    | Break(actor: ActorId, reason: StopReason)       // a handler stopped or failed, or Stop was taken
    | Kill(actor: ActorId)
    | BeginDrain(actor: ActorId, task: TaskId)
    | OnStop(actor: ActorId, panics: bool)
    | Notify(actor: ActorId, sibling: ActorId, delivered: bool)
    | Finish(actor: ActorId)

  const EMPTY: System := System(map[], map[], map[], [], map[], multiset{}, multiset{})

  predicate Accepting(a: Actor) {
    !a.phase.Failed? && !a.phase.Unwound? && !a.phase.Stopped?
  }

  predicate CanAdvance(s: System, t: TaskId) {
    t in s.tasks && (s.tasks[t].Wants().Some? ==> s.tasks[t].Wants().value !in s.owner)
  }

  predicate Enabled(s: System, act: Action) {
    match act
    case Spawn(a) => a !in s.actors
    case Start(a) => a in s.actors && s.actors[a].phase.Starting?
    case StartFails(a) => a in s.actors && s.actors[a].phase.Starting?
    case BeginPair(t, _, a, b) => t !in s.tasks && a in s.actors && b in s.actors
    case Advance(t) => CanAdvance(s, t)
    case Cancel(t) => t in s.tasks && s.tasks[t].job.Pair? && s.tasks[t].Wants().Some?
    case Take(a, t) => t !in s.tasks && a in s.actors && s.actors[a].phase.Running? && s.actors[a].mailbox != []
    case Break(a, reason) =>
      a in s.actors && s.actors[a].phase.Running? && (reason.Normal? || reason.Panicked?)
    case Kill(a) =>
      && a in s.actors
      && (s.actors[a].phase.Running?
          || (s.actors[a].phase.Handling? && var t := s.actors[a].phase.task;
              t in s.tasks && s.tasks[t].job.Removal? && s.tasks[t].stage.WaitFirst?))
    case BeginDrain(a, t) => t !in s.tasks && a in s.actors && s.actors[a].phase.Dying?
    case OnStop(a, _) => a in s.actors && s.actors[a].phase.Stopping?
    case Notify(a, b, delivered) =>
      && a in s.actors && s.actors[a].phase.Notifying? && b in s.actors[a].toNotify
      && (delivered ==> b in s.actors && Accepting(s.actors[b]))
    case Finish(a) => a in s.actors && s.actors[a].phase.Notifying? && s.actors[a].toNotify == {}
  }

  function Update(s: System, a: ActorId, x: Actor): System {
    s.(actors := s.actors[a := x])
  }

  function SetPhase(s: System, a: ActorId, phase: Phase): System
    requires a in s.actors
  {
    Update(s, a, s.actors[a].(phase := phase))
  }

  function SetLinks(s: System, a: ActorId, links: set<ActorId>): System
    requires a in s.actors
  {
    Update(s, a, s.actors[a].(links := links))
  }

  function SetTask(s: System, t: TaskId, task: Task): System {
    s.(tasks := s.tasks[t := task])
  }

  function Die(s: System, a: ActorId, reason: StopReason): System
    requires a in s.actors
  {
    Update(s, a, s.actors[a].(phase := Dying, reason := Some(reason))).(deaths := s.deaths + [a])
  }

  function Edited(kind: Kind, links: set<ActorId>, other: ActorId): set<ActorId> {
    if kind == Link then links + {other} else links - {other}
  }

  predicate JobOk(s: System, job: Job) {
    if job.Pair? then job.caller != job.sibling && job.caller in s.actors && job.sibling in s.actors
    else job.actor in s.actors
  }

  /** Sections of one actor use one lock. */
  predicate TaskOk(s: System, task: Task) {
    JobOk(s, task.job) && (task.job.Pair? || task.stage.WaitFirst? || task.stage.EditThis? || task.stage.DropFirst?)
  }

  /** What the map operation of a stage does, without the locks. */
  function EditThisSide(s: System, job: Job): System
    requires JobOk(s, job)
  {
    match job
    case Pair(kind, caller, sibling) => SetLinks(s, caller, Edited(kind, s.actors[caller].links, sibling))
    case Removal(a, dead) => SetLinks(s, a, s.actors[a].links - {dead})
    case Drain(a) =>
      var links := s.actors[a].links;
      Update(s, a, s.actors[a].(links := {}, toNotify := links)).(drained := s.drained[a := links])
  }

  function EditSiblingSide(s: System, job: Job): System
    requires JobOk(s, job) && job.Pair?
  {
    SetLinks(s, job.sibling, Edited(job.kind, s.actors[job.sibling].links, job.caller))
  }

  /** What a removal leaves behind: the actor goes on, or dies of the notice. */
  function Decided(s: System, a: ActorId): System
    requires a in s.actors && s.actors[a].phase.Handling?
  {
    var n := s.actors[a].phase.notice;
    match DefaultOnLinkDied(n.dead, n.why)
    case Continue => SetPhase(s, a, Running)
    case Break(reason) => Die(s, a, reason)
  }

  /** What follows once the last lock of a section is free again. */
  function Leave(s: System, job: Job): System
    requires JobOk(s, job)
  {
    match job
    case Pair(_, _, _) => s
    case Drain(a) => SetPhase(s, a, Stopping)
    case Removal(a, _) =>
      if s.actors[a].phase.Handling? then Decided(s, a) else s
  }

  function AdvanceTask(s: System, t: TaskId): System
    requires CanAdvance(s, t) && TaskOk(s, s.tasks[t])
  {
    var Task(job, stage) := s.tasks[t];
    match stage
    case WaitFirst =>
      SetTask(s, t, Task(job, if job.Pair? then WaitSecond else EditThis)).(owner := s.owner[job.First() := t])
    case WaitSecond => SetTask(s, t, Task(job, EditThis)).(owner := s.owner[job.Second() := t])
    case EditThis => SetTask(EditThisSide(s, job), t, Task(job, if job.Pair? then EditSibling else DropFirst))
    case EditSibling => SetTask(EditSiblingSide(s, job), t, Task(job, DropSecond))
    case DropSecond => SetTask(s, t, Task(job, DropFirst)).(owner := s.owner - {job.Second()})
    case DropFirst => Leave(s.(tasks := s.tasks - {t}, owner := s.owner - {job.First()}), job)
  }

  ghost predicate TasksOk(s: System) {
    forall t :: t in s.tasks ==> TaskOk(s, s.tasks[t])
  }

  /** A kill drops the section its actor waits for. */
  function Interrupted(s: System, a: ActorId): System
    requires a in s.actors
  {
    if s.actors[a].phase.Handling? then s.(tasks := s.tasks - {s.actors[a].phase.task}) else s
  }

  /** The notifier is done with a sibling, and the signal counts as issued. */
  function Issuing(s: System, a: ActorId, b: ActorId, why: StopReason): System
    requires a in s.actors
  {
    var x := s.actors[a];
    s.(actors := s.actors[a := x.(toNotify := x.toNotify - {b})], issued := s.issued + multiset{(a, b, why)})
  }

  function Receiving(s: System, b: ActorId, n: Notice): System
    requires b in s.actors
  {
    s.(actors := s.actors[b := s.actors[b].(mailbox := s.actors[b].mailbox + [n])])
  }

  function Apply(s: System, act: Action): System
    requires TasksOk(s) && Enabled(s, act)
  {
    match act
    case Spawn(a) => Update(s, a, Actor(Starting, {}, [], None, {}))
    case Start(a) => SetPhase(s, a, Running)
    case StartFails(a) => SetPhase(s, a, Failed)
    case BeginPair(t, kind, a, b) => if a == b then s else SetTask(s, t, Task(Pair(kind, a, b), WaitFirst))
    case Advance(t) => AdvanceTask(s, t)
    case Cancel(t) => s.(tasks := s.tasks - {t}, owner := s.owner - s.tasks[t].Holds())
    case Take(a, t) =>
      var x := s.actors[a];
      SetTask(Update(s, a, x.(phase := Handling(t, x.mailbox[0]), mailbox := x.mailbox[1..])),
              t, Task(Removal(a, x.mailbox[0].dead), WaitFirst)).(taken := s.taken + multiset{(a, x.mailbox[0])})
    case Break(a, reason) => Die(s, a, reason)
    case Kill(a) => Die(Interrupted(s, a), a, Killed)
    case BeginDrain(a, t) => SetTask(SetPhase(s, a, Draining(t)), t, Task(Drain(a), WaitFirst))
    case OnStop(a, panics) => SetPhase(s, a, if panics then Unwound else Notifying)
    case Notify(a, b, delivered) =>
      if s.actors[a].reason.None? then s else
        var why := s.actors[a].reason.value;
        var s1 := Issuing(s, a, b, why);
        if delivered then Receiving(s1, b, Notice(a, why)) else s1
    case Finish(a) => SetPhase(s, a, Stopped)
  }
}
