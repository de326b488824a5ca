/** What one operation does to the message queue, said of names, bindings and consumers one at a time. */
module MessageQueueSteps {
  import opened Common
  import opened MessageQueueTables
  import opened MessageQueueProofs

  // ---------- What the tables say ----------

  predicate Consumes(t: Tables, queue: string, ty: TypeId, r: Registration) {
    queue in t.queues && ty in t.queues[queue].recipients && r in t.queues[queue].recipients[ty]
  }

  ghost predicate HasConsumer(t: Tables, queue: string, ty: TypeId, actor: ActorId) {
    exists r :: Consumes(t, queue, ty, r) && r.actorId == actor
  }

  ghost predicate Consumed(t: Tables, queue: string) {
    exists ty, r :: Consumes(t, queue, ty, r)
  }

  predicate Bound(t: Tables, exchange: string, b: Binding) {
    exchange in t.exchanges && b in t.exchanges[exchange].bindings
  }

  /** The consumer was found dead by a publish that reached its queue and passed its tags. */
  predicate FoundDead(t: Tables, op: Op, queue: string, ty: TypeId, r: Registration) {
    op.Publish? && op.publication.ty == ty && op.publication.accepts(r.tags) && r.actorId in op.dead
    && Route(t, op.publication).Routed? && queue in Route(t, op.publication).queues
  }

  // ---------- Consumers ----------

  lemma PrunedConsumers(q: Queue, ty: TypeId, actors: set<ActorId>, at: TypeId, r: Registration)
    ensures at in Pruned(q, ty, actors).recipients && r in Pruned(q, ty, actors).recipients[at] <==>
      at in q.recipients && r in q.recipients[at] && !(at == ty && r.actorId in actors)
  {
    if at in q.recipients && Left(q, ty, actors, at) == [] {
      assert r !in Left(q, ty, actors, at);
    }
  }

  lemma UniqueReached(q: Queue, p: Publication, r: Registration)
    requires QueueInv(q) && p.ty in q.recipients && r in q.recipients[p.ty]
    ensures r.actorId in Reached(q, p) <==> p.accepts(r.tags)
  {
    if r.actorId in Reached(q, p) {
      var r1 :| r1 in Consumers(q, p.ty) && p.accepts(r1.tags) && r1.actorId == r.actorId;
      var i :| 0 <= i < |q.recipients[p.ty]| && q.recipients[p.ty][i] == r;
      var j :| 0 <= j < |q.recipients[p.ty]| && q.recipients[p.ty][j] == r1;
    }
  }

  /**
   A consumer is registered after an operation exactly if its queue is still there, and it was registered before
   and neither cancelled nor found dead, or else it registers now and its actor had no registration yet.
   */
  lemma ConsumesAfter(t: Tables, op: Op, queue: string, ty: TypeId, r: Registration)
    requires Inv(t)
    ensures Consumes(Handle(t, op).0, queue, ty, r) <==>
      && queue in Handle(t, op).0.queues
      && (|| (Consumes(t, queue, ty, r) && op != Cancel(queue, ty, r.actorId) && !FoundDead(t, op, queue, ty, r))
          || (op == Consume(queue, ty, r.actorId, r.tags) && queue in t.queues
              && !HasConsumer(t, queue, ty, r.actorId)))
  {
    match op
    case Publish(p, dead) => ConsumesAfterPublish(t, p, dead, queue, ty, r);
    case Consume(q, at, actor, tags) => ConsumesAfterConsume(t, q, at, actor, tags, queue, ty, r);
    case Cancel(q, at, actor) => ConsumesAfterCancel(t, q, at, actor, queue, ty, r);
    case _ => OthersKeepConsumers(t, op, queue, ty, r);
  }

  lemma OthersKeepConsumers(t: Tables, op: Op, queue: string, ty: TypeId, r: Registration)
    requires !op.Publish? && !op.Consume? && !op.Cancel?
    ensures Consumes(Handle(t, op).0, queue, ty, r) <==> queue in Handle(t, op).0.queues && Consumes(t, queue, ty, r)
  {
  }

  lemma DeliveredConsumers(
    t: Tables, p: Publication, dead: set<ActorId>, targets: set<string>, queue: string, ty: TypeId, r: Registration)
    requires QueuesInv(t)
    ensures var t1 := AfterDelivery(t, p, dead, targets);
      Consumes(t1, queue, ty, r) <==>
        && queue in t1.queues && Consumes(t, queue, ty, r)
        && !(queue in targets && ty == p.ty && p.accepts(r.tags) && r.actorId in dead)
  {
    if queue in t.queues {
      var q := t.queues[queue];
      PrunedConsumers(q, p.ty, Reached(q, p) * dead, ty, r);
      if p.ty in q.recipients && r in q.recipients[p.ty] {
        UniqueReached(q, p, r);
      }
      hide Pruned, Reached, Unswept, Detached, QueueInv;
    }
  }

  lemma ConsumesAfterPublish(
    t: Tables, p: Publication, dead: set<ActorId>, queue: string, ty: TypeId, r: Registration)
    requires Inv(t)
    ensures Consumes(Handle(t, Publish(p, dead)).0, queue, ty, r) <==>
      && queue in Handle(t, Publish(p, dead)).0.queues
      && Consumes(t, queue, ty, r) && !FoundDead(t, Publish(p, dead), queue, ty, r)
  {
    if Route(t, p).Routed? {
      DeliveredConsumers(t, p, dead, Route(t, p).queues, queue, ty, r);
    }
    hide Route, AfterDelivery;
  }

  lemma ConsumesAfterConsume(
    t: Tables, q: string, at: TypeId, actor: ActorId, tags: Tags, queue: string, ty: TypeId, r: Registration)
    ensures var op := Consume(q, at, actor, tags);
      Consumes(Handle(t, op).0, queue, ty, r) <==>
        || Consumes(t, queue, ty, r)
        || (op == Consume(queue, ty, r.actorId, r.tags) && queue in t.queues && !HasConsumer(t, queue, ty, r.actorId))
  {
    if q == queue && q in t.queues && at == ty {
      var list := Consumers(t.queues[q], at);
      assert forall r1 :: r1 in list <==> Consumes(t, q, at, r1);
      assert (exists r1 :: r1 in list && r1.actorId == actor) <==> HasConsumer(t, q, at, actor);
    }
  }

  lemma ConsumesAfterCancel(
    t: Tables, q: string, at: TypeId, actor: ActorId, queue: string, ty: TypeId, r: Registration)
    ensures var op := Cancel(q, at, actor);
      Consumes(Handle(t, op).0, queue, ty, r) <==>
        queue in Handle(t, op).0.queues && Consumes(t, queue, ty, r) && op != Cancel(queue, ty, r.actorId)
  {
    if q == queue && q in t.queues {
      PrunedConsumers(t.queues[q], at, {actor}, ty, r);
    }
  }

  // ---------- Replies ----------

  /** Somebody but this consumer is registered with the queue. */
  ghost predicate OthersConsume(t: Tables, queue: string, ty: TypeId, actor: ActorId) {
    exists at, r :: Consumes(t, queue, at, r) && !(at == ty && r.actorId == actor)
  }

  lemma ConsumedIsNotEmpty(t: Tables, queue: string)
    requires queue in t.queues && QueueInv(t.queues[queue])
    ensures t.queues[queue].recipients != map[] <==> Consumed(t, queue)
  {
    if t.queues[queue].recipients != map[] {
      var ty :| ty in t.queues[queue].recipients;
      assert Consumes(t, queue, ty, t.queues[queue].recipients[ty][0]);
    }
  }

  lemma OthersAreLeft(t: Tables, queue: string, ty: TypeId, actor: ActorId)
    requires queue in t.queues
    ensures Pruned(t.queues[queue], ty, {actor}).recipients != map[] <==> OthersConsume(t, queue, ty, actor)
  {
    var q := t.queues[queue];
    var q1 := Pruned(q, ty, {actor});
    if q1.recipients != map[] {
      var at :| at in q1.recipients;
      PrunedConsumers(q, ty, {actor}, at, q1.recipients[at][0]);
      assert Consumes(t, queue, at, q1.recipients[at][0]);
    }
    if at, r :| Consumes(t, queue, at, r) && !(at == ty && r.actorId == actor) {
      PrunedConsumers(q, ty, {actor}, at, r);
    }
  }

  lemma BindReply(t: Tables, q: string, x: string, key: string, arguments: Headers)
    ensures var (t1, reply) := QueueBind(t, q, x, key, arguments);
      && reply ==
         (if q !in t.queues then Failed(QueueNotFound)
          else if x !in t.exchanges then Failed(ExchangeNotFound)
          else if exists b :: Bound(t, x, b) && b.queueName == q && b.routingKey == key
          then Failed(BindingAlreadyExists)
          else if t.exchanges[x].kind.Headers? && "x-match" in arguments && arguments["x-match"] != "all"
                  && arguments["x-match"] != "any"
          then Failed(InvalidHeaderMatch) else Done)
      && (reply == Done || t1 == t)
  {
    assert x in t.exchanges ==> forall b :: Bound(t, x, b) <==> b in t.exchanges[x].bindings;
  }

  /**
   The reply of each operation, by what the tables hold. An error changes nothing, but for one: cancelling a
   consumer of an auto-delete queue that others still consume takes effect and replies that the queue is in use.
   */
  lemma {:induction false} RepliesExactly(t: Tables, op: Op)
    requires Inv(t)
    ensures Handle(t, op).1 ==
      match op
      case DeclareExchange(x, _, _) => if x == "" || x in t.exchanges then Failed(ExchangeAlreadyExists) else Done
      case DeclareQueue(q, _) => if q in t.queues then Failed(QueueAlreadyExists) else Done
      case DeleteExchange(x, ifUnused) =>
        if x !in t.exchanges then Failed(ExchangeNotFound)
        else if ifUnused && (exists b :: Bound(t, x, b)) then Failed(ExchangeInUse) else Done
      case DeleteQueue(q, ifUnused) =>
        if q !in t.queues then Failed(QueueNotFound)
        else if ifUnused && Consumed(t, q) then Failed(QueueInUse) else Done
      case Bind(q, x, key, arguments) =>
        if q !in t.queues then Failed(QueueNotFound)
        else if x !in t.exchanges then Failed(ExchangeNotFound)
        else if exists b :: Bound(t, x, b) && b.queueName == q && b.routingKey == key
        then Failed(BindingAlreadyExists)
        else if t.exchanges[x].kind.Headers? && "x-match" in arguments && arguments["x-match"] != "all"
                && arguments["x-match"] != "any"
        then Failed(InvalidHeaderMatch) else Done
      case Unbinding(_, x, _) => if x !in t.exchanges then Failed(ExchangeNotFound) else Done
      case Publish(p, _) =>
        if p.exchange != "" && p.exchange !in t.exchanges then Failed(ExchangeNotFound)
        else
          var x := if p.exchange == "" then t.defaultExchange else t.exchanges[p.exchange];
          if x.kind.Headers? && p.headers.None? then Failed(HeadersRequired)
          else if x.kind.Topic? && exists b :: b in x.bindings && p.glob(b.routingKey, p.routingKey).Malformed?
          then Aborted else Done
      case Consume(q, _, _, _) => if q !in t.queues then Failed(QueueNotFound) else Done
      case Cancel(q, ty, actor) =>
        if q !in t.queues then Failed(QueueNotFound)
        else if t.queues[q].autoDelete && OthersConsume(t, q, ty, actor) then Failed(QueueInUse) else Done
    ensures Handle(t, op).1 == Done || Handle(t, op).0 == t || (op.Cancel? && Handle(t, op).1 == Failed(QueueInUse))
  {
    hide RemoveQueues, AfterDelivery, Targets, DropBinding, HeaderRule;
    match op
    case DeleteExchange(x, _) =>
      if x in t.exchanges && t.exchanges[x].bindings != [] {
        assert Bound(t, x, t.exchanges[x].bindings[0]);
      }
    case DeleteQueue(q, _) => if q in t.queues { ConsumedIsNotEmpty(t, q); }
    case Bind(q, x, key, arguments) => BindReply(t, q, x, key, arguments); hide QueueBind, Bound;
    case Cancel(q, ty, actor) => if q in t.queues { OthersAreLeft(t, q, ty, actor); } hide Consumed, OthersConsume;
    case _ => hide Consumed, OthersConsume, Inv;
  }

  // ---------- What exists ----------

  /** The operations that remove a queue: a deletion, the last consumer's cancel, or its last consumers found dead. */
  ghost predicate RemovesQueue(t: Tables, op: Op, queue: string) {
    match op
    case DeleteQueue(q, ifUnused) => q == queue && !(ifUnused && Consumed(t, queue))
    case Cancel(q, ty, actor) =>
      q == queue && queue in t.queues && t.queues[queue].autoDelete && !OthersConsume(t, queue, ty, actor)
    case Publish(p, _) =>
      && queue in t.queues && t.queues[queue].autoDelete && Consumed(t, queue)
      && forall ty, r :: Consumes(t, queue, ty, r) ==> FoundDead(t, op, queue, ty, r)
    case _ => false
  }

  lemma VanishesExactly(t: Tables, p: Publication, dead: set<ActorId>, queue: string)
    requires queue in t.queues && QueueInv(t.queues[queue])
    ensures Vanishes(t.queues[queue], p, dead) <==>
      && t.queues[queue].autoDelete && Consumed(t, queue)
      && forall ty, r :: Consumes(t, queue, ty, r) ==> ty == p.ty && p.accepts(r.tags) && r.actorId in dead
  {
    var q := t.queues[queue];
    var q1 := Delivered(q, p, dead);
    if Vanishes(q, p, dead) {
      var a :| a in Reached(q, p) * dead;
      var r :| r in Consumers(q, p.ty) && p.accepts(r.tags) && r.actorId == a;
      assert Consumes(t, queue, p.ty, r);
      forall ty, r | Consumes(t, queue, ty, r) ensures ty == p.ty && p.accepts(r.tags) && r.actorId in dead {
        PrunedConsumers(q, p.ty, Reached(q, p) * dead, ty, r);
        if ty == p.ty {
          UniqueReached(q, p, r);
        }
      }
    } else if q.autoDelete && Consumed(t, queue) {
      var ty, r :| Consumes(t, queue, ty, r);
      if forall ty, r :: Consumes(t, queue, ty, r) ==> ty == p.ty && p.accepts(r.tags) && r.actorId in dead {
        UniqueReached(q, p, r);
        assert r.actorId in Reached(q, p) * dead;
        var at :| at in q1.recipients;
        PrunedConsumers(q, p.ty, Reached(q, p) * dead, at, q1.recipients[at][0]);
        assert Consumes(t, queue, at, q1.recipients[at][0]);
        UniqueReached(q, p, q1.recipients[at][0]);
      }
    }
  }

  lemma PublishRemoves(t: Tables, p: Publication, dead: set<ActorId>, queue: string)
    requires QueuesInv(t) && queue in t.queues
    ensures RemovesQueue(t, Publish(p, dead), queue) <==>
      Route(t, p).Routed? && queue in Vanishing(t, p, dead, Route(t, p).queues)
  {
    VanishesExactly(t, p, dead, queue);
    if Consumed(t, queue) {
      var ty, r :| Consumes(t, queue, ty, r);
      assert FoundDead(t, Publish(p, dead), queue, ty, r) ==>
        Route(t, p).Routed? && queue in Route(t, p).queues;
    }
    hide Vanishes, Route;
  }

  lemma PublishedQueues(t: Tables, p: Publication, dead: set<ActorId>, queue: string)
    ensures var t1 := BasicPublish(t, p, dead).0;
      && (queue in t1.queues <==>
            queue in t.queues && !(Route(t, p).Routed? && queue in Vanishing(t, p, dead, Route(t, p).queues)))
      && (queue in t1.queues ==> t1.queues[queue].autoDelete == t.queues[queue].autoDelete)
  {
    hide Route, Vanishing;
  }

  lemma CancelledQueues(t: Tables, q: string, ty: TypeId, actor: ActorId, queue: string)
    ensures var t1 := BasicCancel(t, q, ty, actor).0;
      && (queue in t1.queues <==> queue in t.queues && !RemovesQueue(t, Cancel(q, ty, actor), queue))
      && (queue in t1.queues ==> t1.queues[queue].autoDelete == t.queues[queue].autoDelete)
  {
    if q in t.queues {
      OthersAreLeft(t, q, ty, actor);
      hide OthersConsume, Unswept, Detached;
    }
  }

  lemma DeletedQueues(t: Tables, q: string, ifUnused: bool, queue: string)
    requires Inv(t)
    ensures var t1 := QueueDelete(t, q, ifUnused).0;
      && (queue in t1.queues <==> queue in t.queues && !RemovesQueue(t, DeleteQueue(q, ifUnused), queue))
      && (queue in t1.queues ==> t1.queues[queue].autoDelete == t.queues[queue].autoDelete)
  {
    if q in t.queues {
      ConsumedIsNotEmpty(t, q);
    }
    hide Inv, Consumed, Unswept, Detached;
  }

  /** Which queues there are after an operation; a queue keeps the setting it was declared with. */
  lemma {:induction false} QueuesAfter(t: Tables, op: Op, queue: string)
    requires Inv(t)
    ensures var t1 := Handle(t, op).0;
      && (queue in t1.queues <==>
            (op.DeclareQueue? && op.queue == queue) || (queue in t.queues && !RemovesQueue(t, op, queue)))
      && (queue in t1.queues ==>
            t1.queues[queue].autoDelete == if queue in t.queues then t.queues[queue].autoDelete else op.autoDelete)
  {
    hide Pruned, Unswept, Detached, HeaderRule, DropBinding;
    match op
    case DeleteQueue(q, ifUnused) => DeletedQueues(t, q, ifUnused, queue); hide QueueDelete, RemovesQueue;
    case Cancel(q, ty, actor) => CancelledQueues(t, q, ty, actor, queue); hide BasicCancel, RemovesQueue;
    case Publish(p, dead) =>
      if queue in t.queues {
        PublishRemoves(t, p, dead, queue);
      }
      PublishedQueues(t, p, dead, queue);
      hide BasicPublish, Vanishing, Route, RemovesQueue, Inv;
    case _ => hide Inv;
  }

  // ---------- Exchanges and their bindings ----------

  /** An operation removed this queue. */
  ghost predicate QueueGoes(t: Tables, op: Op, queue: string) {
    queue in t.queues && RemovesQueue(t, op, queue)
  }

  /** The operations that remove an exchange; whatever removes a queue sweeps the auto-delete exchanges left bare. */
  ghost predicate RemovesExchange(t: Tables, op: Op, exchange: string)
    requires exchange in t.exchanges
  {
    match op
    case DeleteExchange(x, ifUnused) => x == exchange && !(ifUnused && exists b :: Bound(t, exchange, b))
    case Unbinding(q, x, key) =>
      && x == exchange && t.exchanges[exchange].autoDelete
      && forall b :: Bound(t, exchange, b) ==> b.queueName == q && b.routingKey == key
    case _ =>
      && t.exchanges[exchange].autoDelete && (exists q :: QueueGoes(t, op, q))
      && forall b :: Bound(t, exchange, b) ==> QueueGoes(t, op, b.queueName)
  }

  /** The queues an operation removes all go at once. */
  ghost function Going(t: Tables, op: Op): set<string> {
    set q | q in t.queues && RemovesQueue(t, op, q)
  }

  lemma RemovalSweeps(t: Tables, gone: set<string>, exchange: string, b: Binding)
    ensures var t1 := RemoveQueues(t, gone);
      && (exchange in t1.exchanges <==>
            && exchange in t.exchanges
            && !(gone != {} && t.exchanges[exchange].autoDelete
                 && forall b1 :: Bound(t, exchange, b1) ==> b1.queueName in gone))
      && (Bound(t1, exchange, b) <==> exchange in t1.exchanges && Bound(t, exchange, b) && b.queueName !in gone)
      && (exchange in t1.exchanges ==>
            t1.exchanges[exchange].kind == t.exchanges[exchange].kind
            && t1.exchanges[exchange].autoDelete == t.exchanges[exchange].autoDelete)
  {
    if gone != {} && exchange in t.exchanges {
      var x := t.exchanges[exchange];
      assert forall b1 :: Bound(t, exchange, b1) <==> b1 in x.bindings;
      if Unbind(x.bindings, gone) != [] {
        assert Unbind(x.bindings, gone)[0] in Unbind(x.bindings, gone);
      }
    }
  }

  lemma DeletionGoes(t: Tables, q: string, ifUnused: bool)
    requires Inv(t)
    ensures Going(t, DeleteQueue(q, ifUnused)) == if q in t.queues && !(ifUnused && Consumed(t, q)) then {q} else {}
  {
    hide Consumed;
  }

  lemma CancelGoes(t: Tables, q: string, ty: TypeId, actor: ActorId)
    ensures Going(t, Cancel(q, ty, actor)) ==
      if q in t.queues && t.queues[q].autoDelete && !OthersConsume(t, q, ty, actor) then {q} else {}
  {
    hide OthersConsume;
  }

  lemma PublishGoes(t: Tables, p: Publication, dead: set<ActorId>)
    requires Inv(t)
    ensures Going(t, Publish(p, dead)) ==
      if Route(t, p).Routed? then Vanishing(t, p, dead, Route(t, p).queues) else {}
  {
    forall q | q in t.queues ensures RemovesQueue(t, Publish(p, dead), q) <==>
      Route(t, p).Routed? && q in Vanishing(t, p, dead, Route(t, p).queues)
    {
      PublishRemoves(t, p, dead, q);
    }
    hide Route, RemovesQueue, Vanishes;
  }

  /** A deletion, a cancel and a publish change the exchanges only by sweeping. */
  lemma OnlySweeps(t: Tables, op: Op)
    requires Inv(t) && (op.DeleteQueue? || op.Cancel? || op.Publish?)
    ensures Handle(t, op).0.exchanges == RemoveQueues(t, Going(t, op)).exchanges
  {
    hide Unswept, Detached, QueueBind, QueueUnbind, ExchangeDelete, ExchangeDeclare, QueueDeclare, BasicConsume;
    match op
    case DeleteQueue(q, ifUnused) =>
      if q in t.queues {
        ConsumedIsNotEmpty(t, q);
      }
      DeletionGoes(t, q, ifUnused);
      hide Going, Consumed, Inv;
    case Cancel(q, ty, actor) =>
      if q in t.queues {
        OthersAreLeft(t, q, ty, actor);
      }
      CancelGoes(t, q, ty, actor);
      hide Going, OthersConsume, Inv;
    case Publish(p, dead) =>
      PublishGoes(t, p, dead);
      hide Going, Route, Vanishing, Inv;
  }

  /** An exchange stays of the kind it was declared with. */
  lemma KindsStay(t: Tables, op: Op, exchange: string)
    requires Inv(t)
    ensures var t1 := Handle(t, op).0;
      exchange in t1.exchanges ==>
        if exchange in t.exchanges
        then t1.exchanges[exchange].kind == t.exchanges[exchange].kind
             && t1.exchanges[exchange].autoDelete == t.exchanges[exchange].autoDelete
        else op == DeclareExchange(exchange, t1.exchanges[exchange].kind, t1.exchanges[exchange].autoDelete)
             && exchange != "" && !exists b :: Bound(t1, exchange, b)
  {
    if op.DeleteQueue? || op.Cancel? || op.Publish? {
      OnlySweeps(t, op);
      RemovalSweeps(t, Going(t, op), exchange, Binding("", "", None));
      hide Handle, RemoveQueues, Going, Inv;
    }
  }

  lemma SweepCondition(t: Tables, op: Op, exchange: string)
    requires exchange in t.exchanges && (op.DeleteQueue? || op.Cancel? || op.Publish?)
    ensures RemovesExchange(t, op, exchange) <==>
      && Going(t, op) != {} && t.exchanges[exchange].autoDelete
      && forall b :: Bound(t, exchange, b) ==> b.queueName in Going(t, op)
  {
    hide RemovesQueue, Bound;
    forall q ensures q in Going(t, op) <==> QueueGoes(t, op, q) {
    }
    if Going(t, op) != {} {
      var q :| q in Going(t, op);
      assert QueueGoes(t, op, q);
    }
    hide Going, QueueGoes;
  }

  lemma SweptExchanges(t: Tables, op: Op, exchange: string)
    requires Inv(t) && (op.DeleteQueue? || op.Cancel? || op.Publish?)
    ensures exchange in Handle(t, op).0.exchanges <==> exchange in t.exchanges && !RemovesExchange(t, op, exchange)
  {
    OnlySweeps(t, op);
    RemovalSweeps(t, Going(t, op), exchange, Binding("", "", None));
    if exchange in t.exchanges {
      SweepCondition(t, op, exchange);
    }
    hide Handle, RemoveQueues, RemovesExchange, Going, Bound, Inv;
  }

  lemma UnboundExchanges(t: Tables, q: string, x: string, key: string, exchange: string)
    ensures exchange in QueueUnbind(t, q, x, key).0.exchanges <==>
      && exchange in t.exchanges
      && !(x == exchange && t.exchanges[x].autoDelete
           && forall b :: Bound(t, x, b) ==> b.queueName == q && b.routingKey == key)
  {
    if x in t.exchanges {
      var bs := t.exchanges[x].bindings;
      var kept := DropBinding(bs, q, key);
      assert forall b :: Bound(t, x, b) <==> b in bs;
      assert kept != [] ==> kept[0] in kept;
      hide DropBinding;
    }
  }

  lemma DeletedExchanges(t: Tables, x: string, ifUnused: bool, exchange: string)
    ensures exchange in ExchangeDelete(t, x, ifUnused).0.exchanges <==>
      exchange in t.exchanges && !(x == exchange && !(ifUnused && exists b :: Bound(t, exchange, b)))
  {
    if x in t.exchanges && t.exchanges[x].bindings != [] {
      assert Bound(t, x, t.exchanges[x].bindings[0]);
    }
  }

  lemma NothingGoes(t: Tables, op: Op, exchange: string)
    requires op.DeclareExchange? || op.DeclareQueue? || op.Bind? || op.Consume?
    requires exchange in t.exchanges
    ensures !RemovesExchange(t, op, exchange)
  {
    forall q ensures !QueueGoes(t, op, q) {
    }
  }

  /** Which exchanges there are after an operation. */
  lemma {:induction false} ExchangesAfter(t: Tables, op: Op, exchange: string)
    requires Inv(t)
    ensures exchange in Handle(t, op).0.exchanges <==>
      || (op.DeclareExchange? && op.exchange == exchange && exchange != "")
      || (exchange in t.exchanges && !RemovesExchange(t, op, exchange))
  {
    hide RemoveQueues, Pruned, AfterDelivery, Route, HeaderRule;
    match op
    case DeleteExchange(x, ifUnused) => DeletedExchanges(t, x, ifUnused, exchange);
    case Unbinding(q, x, key) => UnboundExchanges(t, q, x, key, exchange); hide QueueUnbind;
    case DeleteQueue(_, _) => SweptExchanges(t, op, exchange); hide Handle, RemovesExchange;
    case Cancel(_, _, _) => SweptExchanges(t, op, exchange); hide Handle, RemovesExchange;
    case Publish(_, _) => SweptExchanges(t, op, exchange); hide Handle, RemovesExchange;
    case _ =>
      if exchange in t.exchanges {
        NothingGoes(t, op, exchange);
      }
      hide RemovesExchange;
  }

  /** The binding an accepted bind makes. */
  predicate Binds(t: Tables, op: Op, exchange: string, b: Binding) {
    && op.Bind? && Handle(t, op).1 == Done
    && op.exchange == exchange && op.queue == b.queueName && op.key == b.routingKey
    && exchange in t.exchanges && HeaderRule(t.exchanges[exchange].kind, op.arguments) == Some(b.headerMatch)
  }

  /** Which bindings an exchange has after an operation. */
  lemma {:induction false} BoundAfter(t: Tables, op: Op, exchange: string, b: Binding)
    requires Inv(t)
    ensures var t1 := Handle(t, op).0;
      Bound(t1, exchange, b) <==>
        && exchange in t1.exchanges
        && (|| (Bound(t, exchange, b) && b.queueName in t1.queues
                && op != Unbinding(b.queueName, exchange, b.routingKey))
            || Binds(t, op, exchange, b))
  {
    if exchange in t.exchanges {
      assert ExchangeInv(t.exchanges[exchange], exchange, t.queues);
    }
    if op.DeleteQueue? || op.Cancel? || op.Publish? {
      OnlySweeps(t, op);
      RemovalSweeps(t, Going(t, op), exchange, b);
      QueuesAfter(t, op, b.queueName);
      hide Handle, RemoveQueues, RemovesQueue, Inv, ExchangeInv;
    } else {
      BoundAfterOthers(t, op, exchange, b);
      hide Inv, ExchangeInv;
    }
  }

  lemma BoundAfterOthers(t: Tables, op: Op, exchange: string, b: Binding)
    requires !op.DeleteQueue? && !op.Cancel? && !op.Publish?
    requires Bound(t, exchange, b) ==> b.queueName in t.queues
    ensures var t1 := Handle(t, op).0;
      Bound(t1, exchange, b) <==>
        && exchange in t1.exchanges
        && (|| (Bound(t, exchange, b) && b.queueName in t1.queues
                && op != Unbinding(b.queueName, exchange, b.routingKey))
            || Binds(t, op, exchange, b))
  {
    hide HeaderRule;
  }
}
