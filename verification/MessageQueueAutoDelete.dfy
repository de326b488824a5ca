/** Auto-deletion over whole runs of the message queue. */
module MessageQueueAutoDelete {
  import opened Common
  import opened MessageQueueTables
  import opened MessageQueueProofs
  import opened MessageQueueDelivery

  ghost predicate ConsumedQueue(t: Tables, queue: string) {
    queue in t.queues && t.queues[queue].autoDelete && t.queues[queue].recipients != map[]
  }

  ghost predicate BoundExchange(t: Tables, exchange: string) {
    exchange in t.exchanges && t.exchanges[exchange].autoDelete && t.exchanges[exchange].bindings != []
  }

  /** One operation leaves a consumed auto-delete queue consumed, or removes it. */
  lemma ConsumedOrGone(t: Tables, op: Op, queue: string)
    requires QueuesInv(t) && ConsumedQueue(t, queue)
    ensures queue !in Handle(t, op).0.queues || ConsumedQueue(Handle(t, op).0, queue)
  {
    match op
    case Publish(p, dead) =>
      if Route(t, p).Routed? && queue in AfterDelivery(t, p, dead, Route(t, p).queues).queues {
        PublishedOrGone(t, p, dead, Route(t, p).queues, queue);
      }
    case Consume(q, ty, actor, tags) =>
      if q == queue {
        assert ty in Handle(t, op).0.queues[queue].recipients;
      }
    case _ =>
  }

  lemma PublishedOrGone(t: Tables, p: Publication, dead: set<ActorId>, targets: set<string>, queue: string)
    requires QueuesInv(t) && ConsumedQueue(t, queue)
    requires queue in AfterDelivery(t, p, dead, targets).queues
    ensures ConsumedQueue(AfterDelivery(t, p, dead, targets), queue)
  {
    var q := t.queues[queue];
    assert queue !in Vanishing(t, p, dead, targets);
    if queue in targets && Reached(q, p) * dead == {} {
      PruneNobody(q, p.ty);
    }
  }

  lemma BoundOrGone(t: Tables, op: Op, exchange: string)
    requires BoundExchange(t, exchange)
    ensures exchange !in Handle(t, op).0.exchanges || BoundExchange(Handle(t, op).0, exchange)
  {
  }

  /**
   In any run from the empty tables: an auto-delete queue that had a consumer at some moment and was never
   removed since has a consumer now, whatever cancels, prunes and error replies came in between.
   */
  lemma {:induction false} AutoDeleteQueueKeepsConsumers(ops: seq<Op>, since: nat, queue: string)
    requires since <= |ops|
    requires ConsumedQueue(Run(EMPTY, ops[..since]), queue)
    requires forall k :: since <= k <= |ops| ==> queue in Run(EMPTY, ops[..k]).queues
    ensures ConsumedQueue(Run(EMPTY, ops), queue)
    decreases |ops|
  {
    if since == |ops| {
      assert ops[..since] == ops;
    } else {
      var before := ops[..|ops| - 1];
      forall k | since <= k <= |before| ensures before[..k] == ops[..k] {
      }
      assert before[..since] == ops[..since];
      AutoDeleteQueueKeepsConsumers(before, since, queue);
      RunKeepsInv(before);
      ConsumedOrGone(Run(EMPTY, before), ops[|ops| - 1], queue);
      assert ops[..|ops|] == ops;
    }
  }

  /** The same for an auto-delete exchange and its bindings. */
  lemma {:induction false} AutoDeleteExchangeKeepsBindings(ops: seq<Op>, since: nat, exchange: string)
    requires since <= |ops|
    requires BoundExchange(Run(EMPTY, ops[..since]), exchange)
    requires forall k :: since <= k <= |ops| ==> exchange in Run(EMPTY, ops[..k]).exchanges
    ensures BoundExchange(Run(EMPTY, ops), exchange)
    decreases |ops|
  {
    if since == |ops| {
      assert ops[..since] == ops;
    } else {
      var before := ops[..|ops| - 1];
      forall k | since <= k <= |before| ensures before[..k] == ops[..k] {
      }
      assert before[..since] == ops[..since];
      AutoDeleteExchangeKeepsBindings(before, since, exchange);
      BoundOrGone(Run(EMPTY, before), ops[|ops| - 1], exchange);
      assert ops[..|ops|] == ops;
    }
  }

  /**
   Removing a queue removes an auto-delete exchange exactly when nothing else is bound to it. An exchange
   that never had a binding meets that for every queue.
   */
  lemma SweptExactlyWhen(t: Tables, queue: string, exchange: string)
    requires queue in t.queues && exchange in t.exchanges
    ensures exchange !in QueueDelete(t, queue, false).0.exchanges <==>
      t.exchanges[exchange].autoDelete && forall b :: b in t.exchanges[exchange].bindings ==> b.queueName == queue
  {
    var x := t.exchanges[exchange];
    if Unbind(x.bindings, {queue}) != [] {
      assert Unbind(x.bindings, {queue})[0] in Unbind(x.bindings, {queue});
    }
  }

  /** A fresh auto-delete exchange is swept by deleting a queue it has nothing to do with. */
  lemma FreshExchangeIsSwept(exchange: string, kind: ExchangeType, queue: string)
    requires exchange != ""
    ensures
      var t := Run(EMPTY, [DeclareExchange(exchange, kind, true), DeclareQueue(queue, false)]);
      exchange in t.exchanges && exchange !in QueueDelete(t, queue, false).0.exchanges
  {
    var ops := [DeclareExchange(exchange, kind, true), DeclareQueue(queue, false)];
    assert ops[..1] == [ops[0]] && [ops[0]][..0] == [];
    assert Run(EMPTY, [ops[0]]) == Handle(Run(EMPTY, []), ops[0]).0;
    var t := Run(EMPTY, ops);
    assert t == Handle(Run(EMPTY, [ops[0]]), ops[1]).0;
    assert t.exchanges[exchange] == Exchange(exchange, kind, true, []);
    SweptExactlyWhen(t, queue, exchange);
  }
}
