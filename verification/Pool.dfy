/** A pool that gives each message to a worker with the fewest unfinished ones (actors/src/pool.rs). */
module Pool {
  import opened Common

  type WorkerId = nat
  type Message = nat
  type Sender = nat

  /** A message under way, with who waits for its answer. Each holds one load token of its worker. */
  datatype Job = Job(msg: Message, tx: Option<Sender>)

  datatype Worker = Worker(id: WorkerId, jobs: seq<Job>, running: bool)

  datatype WorkerReply = Forwarded | ActorNotRunning(msg: Message)

  function Load(w: Worker): nat {
    |w.jobs|
  }

  function Ids(ws: seq<Worker>): (ids: seq<WorkerId>)
    ensures |ids| == |ws| && forall i :: 0 <= i < |ws| ==> ids[i] == ws[i].id
  {
    Mapped((w: Worker) => w.id, ws)
  }

  /** The first of the least loaded workers. */
  function NextWorker(ws: seq<Worker>): (next: nat)
    requires ws != []
    ensures next < |ws|
    ensures forall i :: 0 <= i < |ws| ==> Load(ws[next]) <= Load(ws[i])
    ensures forall i :: 0 <= i < next ==> Load(ws[next]) < Load(ws[i])
    decreases |ws|
  {
    var last := |ws| - 1;
    if last == 0 then 0
    else
      var earlier := NextWorker(ws[..last]);
      assert ws[..last][earlier] == ws[earlier] && forall i :: 0 <= i < last ==> ws[..last][i] == ws[i];
      if Load(ws[last]) < Load(ws[earlier]) then last else earlier
  }

  function Give(ws: seq<Worker>, i: nat, job: Job): seq<Worker>
    requires i < |ws|
  {
    ws[i := ws[i].(jobs := ws[i].jobs + [job])]
  }

  /** The one attempt that decides: a failed one leaves every load as it was, so the next picks the same worker. */
  function Dispatched(ws: seq<Worker>, msg: Message, tx: Option<Sender>): (seq<Worker>, WorkerReply) {
    if ws != [] && ws[NextWorker(ws)].running
    then (Give(ws, NextWorker(ws), Job(msg, tx)), Forwarded)
    else (ws, ActorNotRunning(msg))
  }

  function Broadcasted(ws: seq<Worker>, msg: Message): seq<Worker> {
    seq(|ws|, i requires 0 <= i < |ws| =>
      if ws[i].running then ws[i].(jobs := ws[i].jobs + [Job(msg, None)]) else ws[i])
  }

  function SlotOf(ws: seq<Worker>, id: WorkerId): (slot: Option<nat>)
    ensures slot.Some? ==>
      slot.value < |ws| && ws[slot.value].id == id && forall i :: 0 <= i < slot.value ==> ws[i].id != id
    ensures slot.None? ==> forall i :: 0 <= i < |ws| ==> ws[i].id != id
    decreases |ws|
  {
    if ws == [] then None
    else if ws[0].id == id then Some(0)
    else
      var rest := SlotOf(ws[1..], id);
      assert forall i :: 1 <= i < |ws| ==> ws[i] == ws[1..][i - 1];
      if rest.Some? then Some(rest.value + 1) else None
  }

  function Replaced(ws: seq<Worker>, id: WorkerId, spawned: WorkerId): seq<Worker> {
    match SlotOf(ws, id)
    case None => ws
    case Some(i) => ws[i := Worker(spawned, [], true)]
  }

  datatype Op =
    | Dispatch(msg: Message, tx: Option<Sender>)
    | Broadcast(msg: Message)
    | Complete(slot: nat)                        // a worker finishes its oldest job
    | Die(slot: nat)                             // a worker stops, and its mailbox goes with it
    | LinkDied(id: WorkerId, spawned: WorkerId)    // the factory's new worker has a new id

  /** New actor ids are unique. */
  predicate Possible(ws: seq<Worker>, op: Op) {
    op.LinkDied? ==> op.spawned !in Ids(ws)
  }

  function Step(ws: seq<Worker>, op: Op): seq<Worker> {
    match op
    case Dispatch(msg, tx) => Dispatched(ws, msg, tx).0
    case Broadcast(msg) => Broadcasted(ws, msg)
    case Complete(i) => if i < |ws| && ws[i].jobs != [] then ws[i := ws[i].(jobs := ws[i].jobs[1..])] else ws
    case Die(i) => if i < |ws| then ws[i := ws[i].(jobs := [], running := false)] else ws
    case LinkDied(id, spawned) => Replaced(ws, id, spawned)
  }

  function Run(ws: seq<Worker>, ops: seq<Op>): seq<Worker>
    decreases |ops|
  {
    if ops == [] then ws else Step(Run(ws, ops[..|ops| - 1]), ops[|ops| - 1])
  }

  ghost predicate AllPossible(ws: seq<Worker>, ops: seq<Op>) {
    forall n :: 0 <= n < |ops| ==> Possible(Run(ws, ops[..n]), ops[n])
  }

  // ---------- Slots ----------

  /** Every worker but the replaced one keeps its slot and id, and the new one is idle and running. */
  lemma StepKeepsSlots(ws: seq<Worker>, op: Op)
    requires Distinct(Ids(ws)) && Possible(ws, op)
    ensures var ws1 := Step(ws, op);
      && |ws1| == |ws| && Distinct(Ids(ws1))
      && (!op.LinkDied? ==> Ids(ws1) == Ids(ws))
      && (op.LinkDied? ==> forall i :: 0 <= i < |ws| ==>
            ws1[i] == if ws[i].id == op.id then Worker(op.spawned, [], true) else ws[i])
  {
    var ws1 := Step(ws, op);
    if op.LinkDied? {
      forall i | 0 <= i < |ws| ensures ws1[i] == if ws[i].id == op.id then Worker(op.spawned, [], true) else ws[i] {
        if ws[i].id == op.id {
          assert Ids(ws)[i] == Ids(ws)[SlotOf(ws, op.id).value];
        }
      }
      forall i, j | 0 <= i < j < |ws1| ensures Ids(ws1)[i] != Ids(ws1)[j] {
        assert Ids(ws)[i] != Ids(ws)[j] && Ids(ws)[i] != op.spawned && Ids(ws)[j] != op.spawned;
      }
    } else {
      assert forall i :: 0 <= i < |ws| ==> ws1[i].id == ws[i].id;
    }
  }

  /** The pool keeps its number of slots, each with a worker of its own, in every run. */
  lemma {:induction false} PoolKeepsSize(ws: seq<Worker>, ops: seq<Op>)
    requires Distinct(Ids(ws)) && AllPossible(ws, ops)
    ensures |Run(ws, ops)| == |ws| && Distinct(Ids(Run(ws, ops)))
    decreases |ops|
  {
    if ops != [] {
      var n := |ops| - 1;
      forall k | 0 <= k < n ensures Possible(Run(ws, ops[..n][..k]), ops[..n][k]) {
        assert ops[..n][..k] == ops[..k];
      }
      PoolKeepsSize(ws, ops[..n]);
      assert Possible(Run(ws, ops[..n]), ops[n]);
      StepKeepsSlots(Run(ws, ops[..n]), ops[n]);
    }
  }

  // ---------- Balance ----------

  ghost predicate AllRunning(ws: seq<Worker>) {
    forall i :: 0 <= i < |ws| ==> ws[i].running
  }

  /** No two workers' loads differ by more than this. */
  ghost predicate Within(ws: seq<Worker>, spread: nat) {
    forall i, j :: 0 <= i < |ws| && 0 <= j < |ws| ==> Load(ws[i]) <= Load(ws[j]) + spread
  }

  function DispatchAll(ws: seq<Worker>, jobs: seq<Job>): seq<Worker>
    decreases |jobs|
  {
    if jobs == [] then ws
    else
      var n := |jobs| - 1;
      Dispatched(DispatchAll(ws, jobs[..n]), jobs[n].msg, jobs[n].tx).0
  }

  lemma DispatchEffect(ws: seq<Worker>, job: Job)
    requires Dispatched(ws, job.msg, job.tx).1 == Forwarded
    ensures ws != []
    ensures var ws1 := Dispatched(ws, job.msg, job.tx).0;
      && |ws1| == |ws|
      && forall i :: 0 <= i < |ws| ==> Load(ws1[i]) == if i == NextWorker(ws) then Load(ws[i]) + 1 else Load(ws[i])
  {
  }

  /** Whatever the loads at first and whoever has stopped, dispatches spread them no further than they were, or one. */
  lemma {:induction false} DispatchesStayBalanced(ws: seq<Worker>, jobs: seq<Job>, spread: nat)
    requires Within(ws, spread)
    ensures var ws1 := DispatchAll(ws, jobs);
      && |ws1| == |ws|
      && Within(ws1, if spread > 1 then spread else 1)
      && forall i :: 0 <= i < |ws| ==> ws1[i].id == ws[i].id && ws1[i].running == ws[i].running
    decreases |jobs|
  {
    if jobs != [] {
      DispatchesStayBalanced(ws, jobs[..|jobs| - 1], spread);
    }
  }

  /** After n dispatches to idle workers: the first n % size workers are one ahead of the others. */
  ghost predicate RoundRobin(ws: seq<Worker>, rounds: nat, ahead: nat) {
    ahead < |ws| && forall i :: 0 <= i < |ws| ==> Load(ws[i]) == if i < ahead then rounds + 1 else rounds
  }

  lemma DispatchGoesRound(ws: seq<Worker>, job: Job, rounds: nat, ahead: nat)
    requires RoundRobin(ws, rounds, ahead) && Dispatched(ws, job.msg, job.tx).1 == Forwarded
    ensures NextWorker(ws) == ahead
    ensures var ws1 := Dispatched(ws, job.msg, job.tx).0;
      if ahead + 1 < |ws| then RoundRobin(ws1, rounds, ahead + 1) else RoundRobin(ws1, rounds + 1, 0)
  {
    var next := NextWorker(ws);
    assert Load(ws[next]) <= Load(ws[ahead]);
    DispatchEffect(ws, job);
  }

  lemma OneMoreRound(n: nat, size: nat)
    requires size > 0
    ensures if n % size + 1 < size then (n + 1) / size == n / size && (n + 1) % size == n % size + 1
            else (n + 1) / size == n / size + 1 && (n + 1) % size == 0
  {
    var q, r := n / size, n % size;
    assert n == q * size + r;
    if r + 1 < size {
      QuotientIs(n + 1, size, q, r + 1);
    } else {
      assert n + 1 == (q + 1) * size + 0;
      QuotientIs(n + 1, size, q + 1, 0);
    }
  }

  lemma QuotientIs(n: nat, size: nat, q: nat, r: nat)
    requires r < size && n == q * size + r
    ensures n / size == q && n % size == r
  {
    var q1, r1 := n / size, n % size;
    assert n == q1 * size + r1;
    SameQuotient(size, q, r, q1, r1);
  }

  lemma SameQuotient(size: nat, q: nat, r: nat, q1: nat, r1: nat)
    requires r < size && r1 < size && q * size + r == q1 * size + r1
    ensures q == q1 && r == r1
  {
    if q < q1 {
      AtLeastOnce(q1 - q, size);
    } else if q1 < q {
      AtLeastOnce(q - q1, size);
    }
  }

  lemma AtLeastOnce(times: nat, size: nat)
    requires times > 0
    ensures times * size >= size
  {
  }

  /** Every one of the dispatches finds its worker running. */
  ghost predicate AllForwarded(ws: seq<Worker>, jobs: seq<Job>) {
    forall n :: 0 <= n < |jobs| ==> Dispatched(DispatchAll(ws, jobs[..n]), jobs[n].msg, jobs[n].tx).1 == Forwarded
  }

  ghost predicate AllIdle(ws: seq<Worker>) {
    forall i :: 0 <= i < |ws| ==> Load(ws[i]) == 0
  }

  ghost predicate TurnsTaken(ws: seq<Worker>, n: nat) {
    ws != [] && RoundRobin(ws, n / |ws|, n % |ws|)
  }

  lemma {:induction false} IdleWorkersTakeTurns(ws: seq<Worker>, jobs: seq<Job>)
    requires ws != [] && AllIdle(ws) && AllForwarded(ws, jobs)
    ensures var ws1 := DispatchAll(ws, jobs);
      |ws1| == |ws| && TurnsTaken(ws1, |jobs|)
    decreases |jobs|
  {
    if jobs != [] {
      var n := |jobs| - 1;
      forall k | 0 <= k < n
        ensures Dispatched(DispatchAll(ws, jobs[..n][..k]), jobs[..n][k].msg, jobs[..n][k].tx).1 == Forwarded
      {
        assert jobs[..n][..k] == jobs[..k];
      }
      IdleWorkersTakeTurns(ws, jobs[..n]);
      assert Dispatched(DispatchAll(ws, jobs[..n]), jobs[n].msg, jobs[n].tx).1 == Forwarded;
      DispatchEffect(DispatchAll(ws, jobs[..n]), jobs[n]);
      DispatchGoesRound(DispatchAll(ws, jobs[..n]), jobs[n], n / |ws|, n % |ws|);
      OneMoreRound(n, |ws|);
    }
  }

  /** From idle, k successful dispatches per worker leave every worker with exactly k. */
  lemma FullRoundsAreEven(ws: seq<Worker>, jobs: seq<Job>, k: nat)
    requires ws != [] && AllIdle(ws) && AllForwarded(ws, jobs)
    requires |jobs| == k * |ws|
    ensures |DispatchAll(ws, jobs)| == |ws|
    ensures forall i :: 0 <= i < |ws| ==> Load(DispatchAll(ws, jobs)[i]) == k
  {
    IdleWorkersTakeTurns(ws, jobs);
    QuotientIs(|jobs|, |ws|, k, 0);
  }

  /** A pool whose workers all run refuses nothing. */
  lemma {:induction false} RunningPoolsForwardAll(ws: seq<Worker>, jobs: seq<Job>)
    requires ws != [] && AllRunning(ws)
    ensures AllForwarded(ws, jobs)
  {
    forall n | 0 <= n < |jobs|
      ensures Dispatched(DispatchAll(ws, jobs[..n]), jobs[n].msg, jobs[n].tx).1 == Forwarded
    {
      DispatchesStayBalanced(ws, jobs[..n], HighestLoad(ws));
    }
  }

  /** Some bound on the spread always exists. */
  function HighestLoad(ws: seq<Worker>): (load: nat)
    ensures Within(ws, load) && forall i :: 0 <= i < |ws| ==> Load(ws[i]) <= load
    decreases |ws|
  {
    if ws == [] then 0
    else
      var n := |ws| - 1;
      var earlier := HighestLoad(ws[..n]);
      assert forall i :: 0 <= i < n ==> ws[i] == ws[..n][i];
      if Load(ws[n]) > earlier then Load(ws[n]) else earlier
  }

  /** The retry loop finds no other worker: a dispatch fails exactly when the first least loaded worker is dead. */
  lemma DispatchFailsOnDeadMinimum(ws: seq<Worker>, msg: Message, tx: Option<Sender>)
    requires ws != []
    ensures Dispatched(ws, msg, tx).1.ActorNotRunning? <==>
      exists i :: 0 <= i < |ws| && !ws[i].running && (forall j :: 0 <= j < |ws| ==> Load(ws[i]) <= Load(ws[j]))
                  && forall j :: 0 <= j < i ==> Load(ws[i]) < Load(ws[j])
    ensures Dispatched(ws, msg, tx).1.ActorNotRunning? ==> Dispatched(ws, msg, tx) == (ws, ActorNotRunning(msg))
  {
    var next := NextWorker(ws);
    forall i | 0 <= i < |ws| && (forall j :: 0 <= j < |ws| ==> Load(ws[i]) <= Load(ws[j]))
               && forall j :: 0 <= j < i ==> Load(ws[i]) < Load(ws[j])
      ensures i == next
    {
      assert Load(ws[i]) <= Load(ws[next]) && Load(ws[next]) <= Load(ws[i]);
    }
  }

  /** A concrete run: an idle running worker is not found, because the stopped one before it is as little loaded. */
  lemma IdleWorkerIsPassedOver(first: WorkerId, second: WorkerId, msg: Message, tx: Option<Sender>)
    ensures var ws := Run([Worker(first, [], true), Worker(second, [], true)], [Die(0)]);
      && ws == [Worker(first, [], false), Worker(second, [], true)]
      && Dispatched(ws, msg, tx) == (ws, ActorNotRunning(msg))
  {
    var idle := [Worker(first, [], true), Worker(second, [], true)];
    var ops := [Die(0)];
    assert ops[..0] == [] && Run(idle, ops[..0]) == idle;
    var ws := Run(idle, ops);
    assert ws == [Worker(first, [], false), Worker(second, [], true)];
    DispatchFailsOnDeadMinimum(ws, msg, tx);
    assert !ws[0].running && forall j :: 0 <= j < |ws| ==> Load(ws[0]) <= Load(ws[j]);
  }

  // ---------- The object ----------

  class ActorPool {
    var workers: seq<Worker>
    const size: nat

    ghost predicate Valid()
      reads this
    {
      size > 0 && |workers| == size && Distinct(Ids(workers))
    }

    constructor (ids: seq<WorkerId>)
      requires ids != [] && Distinct(ids)
      ensures Valid() && size == |ids| && Ids(workers) == ids
      ensures AllRunning(workers) && AllIdle(workers)
    {
      size := |ids|;
      workers := seq(|ids|, i requires 0 <= i < |ids| => Worker(ids[i], [], true));
      new;
      assert Ids(workers) == ids;
    }

    /** Sends to a worker; if it is not running, message and sender come back and the load token is dropped. */
    method Send(i: nat, job: Job) returns (failed: Option<Job>)
      requires i < |workers|
      modifies this`workers
      ensures failed == (if old(workers)[i].running then None else Some(job))
      ensures workers == if failed.None? then Give(old(workers), i, job) else old(workers)
    {
      if !workers[i].running {
        return Some(job);
      }
      workers := workers[i := workers[i].(jobs := workers[i].jobs + [job])];
      failed := None;
    }

    method Dispatch(msg: Message, tx: Option<Sender>) returns (reply: WorkerReply)
      requires Valid()
      modifies this`workers
      ensures Valid() && (workers, reply) == Dispatched(old(workers), msg, tx)
    {
      StepKeepsSlots(workers, Op.Dispatch(msg, tx));
      var job := Job(msg, tx);
      for attempt := 0 to |workers|
        invariant workers == old(workers) && job == Job(msg, tx)
        invariant attempt > 0 ==> !workers[NextWorker(workers)].running
      {
        var failed := Send(NextWorker(workers), job);
        if failed.None? {
          return Forwarded;
        }
        job := failed.value;
      }
      reply := ActorNotRunning(job.msg);
    }

    /** One result per worker: whether the message was sent, or came back. */
    method Broadcast(msg: Message) returns (replies: seq<WorkerReply>)
      requires Valid()
      modifies this`workers
      ensures Valid() && workers == Broadcasted(old(workers), msg)
      ensures |replies| == size
      ensures forall i :: 0 <= i < size ==>
        replies[i] == if old(workers)[i].running then Forwarded else ActorNotRunning(msg)
    {
      StepKeepsSlots(workers, Op.Broadcast(msg));
      replies := [];
      for i := 0 to |workers|
        invariant |workers| == size && |replies| == i
        invariant forall j :: 0 <= j < i ==> workers[j] == Broadcasted(old(workers), msg)[j]
        invariant forall j :: i <= j < size ==> workers[j] == old(workers)[j]
        invariant forall j :: 0 <= j < i ==>
          replies[j] == if old(workers)[j].running then Forwarded else ActorNotRunning(msg)
      {
        var failed := Send(i, Job(msg, None));
        replies := replies + [if failed.None? then Forwarded else ActorNotRunning(msg)];
      }
    }

    /** `spawned` is the worker the factory makes; nothing happens once the pool itself is gone. */
    method OnLinkDied(upgraded: bool, id: WorkerId, spawned: WorkerId)
      requires Valid() && spawned !in Ids(workers)
      modifies this`workers
      ensures Valid()
      ensures workers == if upgraded then Step(old(workers), LinkDied(id, spawned)) else old(workers)
    {
      if !upgraded {
        return;
      }
      StepKeepsSlots(workers, LinkDied(id, spawned));
      var slot := SlotOf(workers, id);
      if slot.Some? {
        workers := workers[slot.value := Worker(spawned, [], true)];
      }
    }
  }
}
