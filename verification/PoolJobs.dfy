/** What becomes of the jobs of a pool: which worker gets one, and where each one ends. */
module PoolJobs {
  import opened Common
  import opened Pool

  // ---------- One operation ----------

  /** A dispatch appends the job to the queue of the chosen worker, if it runs, and changes nothing else. */
  lemma DispatchExactly(ws: seq<Worker>, msg: Message, tx: Option<Sender>)
    requires ws != []
    ensures var ws1 := Step(ws, Dispatch(msg, tx));
      && |ws1| == |ws|
      && forall i :: 0 <= i < |ws| ==>
           ws1[i] == ws[i].(jobs := if i == NextWorker(ws) && ws[i].running then ws[i].jobs + [Job(msg, tx)]
                                    else ws[i].jobs)
  {
  }

  /** A broadcast appends one job, which nobody waits for, to the queue of every worker that runs. */
  lemma BroadcastExactly(ws: seq<Worker>, msg: Message)
    ensures var ws1 := Step(ws, Broadcast(msg));
      && |ws1| == |ws|
      && forall i :: 0 <= i < |ws| ==>
           ws1[i] == ws[i].(jobs := if ws[i].running then ws[i].jobs + [Job(msg, None)] else ws[i].jobs)
  {
  }

  // ---------- Runs ----------

  function Count(jobs: seq<Job>, job: Job): nat {
    multiset(jobs)[job]
  }

  /** How often a job is in the queues of some workers. */
  function Queued(ws: seq<Worker>, job: Job): nat
    decreases |ws|
  {
    if ws == [] then 0 else Queued(ws[..|ws| - 1], job) + Count(ws[|ws| - 1].jobs, job)
  }

  function Running(ws: seq<Worker>): nat
    decreases |ws|
  {
    if ws == [] then 0 else Running(ws[..|ws| - 1]) + (if ws[|ws| - 1].running then 1 else 0)
  }

  /** How often an operation puts a job into a queue, has it done, and loses it with its worker. */
  function Accepted(ws: seq<Worker>, op: Op, job: Job): nat {
    match op
    case Dispatch(msg, tx) => if job == Job(msg, tx) && Dispatched(ws, msg, tx).1.Forwarded? then 1 else 0
    case Broadcast(msg) => if job == Job(msg, None) then Running(ws) else 0
    case _ => 0
  }

  function Done(ws: seq<Worker>, op: Op, job: Job): nat {
    match op
    case Complete(i) => if i < |ws| && ws[i].jobs != [] && ws[i].jobs[0] == job then 1 else 0
    case _ => 0
  }

  function Lost(ws: seq<Worker>, op: Op, job: Job): nat {
    match op
    case Die(i) => if i < |ws| then Count(ws[i].jobs, job) else 0
    case LinkDied(id, _) => if SlotOf(ws, id).Some? then Count(ws[SlotOf(ws, id).value].jobs, job) else 0
    case _ => 0
  }

  lemma {:induction false} QueuedButOne(ws: seq<Worker>, i: nat, w: Worker, job: Job)
    requires i < |ws|
    ensures Queued(ws[i := w], job) + Count(ws[i].jobs, job) == Queued(ws, job) + Count(w.jobs, job)
    decreases |ws|
  {
    var n := |ws| - 1;
    var ws1 := ws[i := w];
    hide Count;
    if i < n {
      assert ws1[..n] == ws[..n][i := w] && ws1[n] == ws[n];
      QueuedButOne(ws[..n], i, w, job);
    } else {
      assert ws1[..n] == ws[..n];
    }
  }

  lemma CountAppended(jobs: seq<Job>, last: Job, job: Job)
    ensures Count(jobs + [last], job) == Count(jobs, job) + if job == last then 1 else 0
  {
  }

  lemma CountTail(jobs: seq<Job>, job: Job)
    requires jobs != []
    ensures Count(jobs, job) == Count(jobs[1..], job) + if job == jobs[0] then 1 else 0
  {
    assert jobs == [jobs[0]] + jobs[1..];
  }

  lemma {:induction false} BroadcastQueues(ws: seq<Worker>, msg: Message, job: Job)
    ensures Queued(Broadcasted(ws, msg), job) == Queued(ws, job) + if job == Job(msg, None) then Running(ws) else 0
    decreases |ws|
  {
    if ws != [] {
      var n := |ws| - 1;
      BroadcastQueues(ws[..n], msg, job);
      assert Broadcasted(ws, msg)[..n] == Broadcasted(ws[..n], msg);
      CountAppended(ws[n].jobs, Job(msg, None), job);
      hide Count;
    }
  }

  lemma StepConserves(ws: seq<Worker>, op: Op, job: Job)
    ensures Queued(Step(ws, op), job) + Done(ws, op, job) + Lost(ws, op, job) ==
      Queued(ws, job) + Accepted(ws, op, job)
  {
    hide Queued;
    match op
    case Dispatch(msg, tx) =>
      if ws != [] {
        var i := NextWorker(ws);
        QueuedButOne(ws, i, ws[i].(jobs := ws[i].jobs + [Job(msg, tx)]), job);
        CountAppended(ws[i].jobs, Job(msg, tx), job);
        hide Count;
      }
    case Broadcast(msg) => BroadcastQueues(ws, msg, job);
    case Complete(i) =>
      if i < |ws| && ws[i].jobs != [] {
        QueuedButOne(ws, i, ws[i].(jobs := ws[i].jobs[1..]), job);
        CountTail(ws[i].jobs, job);
        hide Count;
      }
    case Die(i) => if i < |ws| { QueuedButOne(ws, i, ws[i].(jobs := [], running := false), job); }
    case LinkDied(id, spawned) =>
      if SlotOf(ws, id).Some? {
        QueuedButOne(ws, SlotOf(ws, id).value, Worker(spawned, [], true), job);
      }
  }

  /** The same, over a run. */
  function AllAccepted(ws: seq<Worker>, ops: seq<Op>, job: Job): nat
    decreases |ops|
  {
    if ops == [] then 0
    else AllAccepted(ws, ops[..|ops| - 1], job) + Accepted(Run(ws, ops[..|ops| - 1]), ops[|ops| - 1], job)
  }

  function AllDone(ws: seq<Worker>, ops: seq<Op>, job: Job): nat
    decreases |ops|
  {
    if ops == [] then 0
    else AllDone(ws, ops[..|ops| - 1], job) + Done(Run(ws, ops[..|ops| - 1]), ops[|ops| - 1], job)
  }

  function AllLost(ws: seq<Worker>, ops: seq<Op>, job: Job): nat
    decreases |ops|
  {
    if ops == [] then 0
    else AllLost(ws, ops[..|ops| - 1], job) + Lost(Run(ws, ops[..|ops| - 1]), ops[|ops| - 1], job)
  }

  /**
   Jobs are conserved in every run of a pool: as often as one was accepted it was done, was lost with the worker that
   had it, or is queued still.
   */
  lemma {:induction false} JobsAreConserved(ws: seq<Worker>, ops: seq<Op>, job: Job)
    ensures Queued(Run(ws, ops), job) + AllDone(ws, ops, job) + AllLost(ws, ops, job) ==
      Queued(ws, job) + AllAccepted(ws, ops, job)
    decreases |ops|
  {
    if ops != [] {
      var before, op := ops[..|ops| - 1], ops[|ops| - 1];
      JobsAreConserved(ws, before, job);
      StepConserves(Run(ws, before), op, job);
      hide Step, Queued, Accepted, Done, Lost;
    }
  }
}
