/** What every run of the message queue keeps, and why the order of delivery never shows. */
module MessageQueueProofs {
  import opened Common
  import opened MessageQueueTables

  // ---------- The inductive invariant ----------

  ghost predicate UniqueBindings(bs: seq<Binding>) {
    forall i, j :: 0 <= i < j < |bs| ==>
      bs[i].queueName != bs[j].queueName || bs[i].routingKey != bs[j].routingKey
  }

  ghost predicate UniqueActors(rs: seq<Registration>) {
    forall i, j :: 0 <= i < j < |rs| ==> rs[i].actorId != rs[j].actorId
  }

  ghost predicate QueueInv(q: Queue) {
    forall ty :: ty in q.recipients ==> q.recipients[ty] != [] && UniqueActors(q.recipients[ty])
  }

  ghost predicate ExchangeInv(x: Exchange, name: string, queues: map<string, Queue>) {
    && x.name == name
    && name != ""
    && UniqueBindings(x.bindings)
    && (forall b :: b in x.bindings ==> b.queueName in queues)
    && (forall b :: b in x.bindings ==> (b.headerMatch.Some? <==> x.kind == ExchangeType.Headers))
  }

  /** One binding per queue, keyed by the queue's own name. */
  ghost predicate DefaultInv(x: Exchange, queues: map<string, Queue>) {
    && x.name == "" && x.kind == Direct && !x.autoDelete
    && UniqueBindings(x.bindings)
    && (forall b :: b in x.bindings ==> b == Binding(b.queueName, b.queueName, None) && b.queueName in queues)
    && (forall q :: q in queues ==> Binding(q, q, None) in x.bindings)
  }

  ghost predicate QueuesInv(t: Tables) {
    forall q :: q in t.queues ==> QueueInv(t.queues[q])
  }

  ghost predicate Inv(t: Tables) {
    && DefaultInv(t.defaultExchange, t.queues)
    && (forall n :: n in t.exchanges ==> ExchangeInv(t.exchanges[n], n, t.queues))
    && QueuesInv(t)
  }

  lemma {:induction false} UnbindUnique(bs: seq<Binding>, gone: set<string>)
    requires UniqueBindings(bs)
    ensures UniqueBindings(Unbind(bs, gone))
    decreases bs
  {
    if bs != [] {
      UnbindUnique(bs[1..], gone);
      forall b | b in Unbind(bs[1..], gone)
        ensures b.queueName != bs[0].queueName || b.routingKey != bs[0].routingKey
      {
        assert b in bs[1..];
      }
    }
  }

  lemma {:induction false} DropBindingUnique(bs: seq<Binding>, queue: string, key: string)
    requires UniqueBindings(bs)
    ensures UniqueBindings(DropBinding(bs, queue, key))
    decreases bs
  {
    if bs != [] {
      DropBindingUnique(bs[1..], queue, key);
      forall b | b in DropBinding(bs[1..], queue, key)
        ensures b.queueName != bs[0].queueName || b.routingKey != bs[0].routingKey
      {
        assert b in bs[1..];
      }
    }
  }

  lemma {:induction false} DropActorsUnique(rs: seq<Registration>, actors: set<ActorId>)
    requires UniqueActors(rs)
    ensures UniqueActors(DropActors(rs, actors))
    decreases rs
  {
    if rs != [] {
      DropActorsUnique(rs[1..], actors);
      forall r | r in DropActors(rs[1..], actors) ensures r.actorId != rs[0].actorId {
        assert r in rs[1..];
      }
    }
  }

  lemma DetachedKeepsInv(x: Exchange, name: string, queues: map<string, Queue>, gone: set<string>)
    requires ExchangeInv(x, name, queues)
    ensures ExchangeInv(Detached(x, gone), name, queues - gone)
  {
    UnbindUnique(x.bindings, gone);
  }

  lemma DefaultKeepsInv(x: Exchange, queues: map<string, Queue>, gone: set<string>)
    requires DefaultInv(x, queues)
    ensures DefaultInv(Detached(x, gone), queues - gone)
  {
    UnbindUnique(x.bindings, gone);
  }

  lemma RemoveQueuesKeepsInv(t: Tables, gone: set<string>)
    requires Inv(t)
    ensures Inv(RemoveQueues(t, gone))
  {
    if gone != {} {
      DefaultKeepsInv(t.defaultExchange, t.queues, gone);
      forall n | n in t.exchanges && !Swept(t.exchanges[n], gone)
        ensures ExchangeInv(Detached(t.exchanges[n], gone), n, t.queues - gone)
      {
        DetachedKeepsInv(t.exchanges[n], n, t.queues, gone);
      }
      hide DefaultInv, ExchangeInv, QueueInv, Detached, Swept;
    }
  }

  lemma PrunedKeepsInv(q: Queue, ty: TypeId, actors: set<ActorId>)
    requires QueueInv(q)
    ensures QueueInv(Pruned(q, ty, actors))
  {
    if ty in q.recipients {
      DropActorsUnique(q.recipients[ty], actors);
    }
  }

  /** Only which queues exist matters to the bindings. */
  lemma SameQueuesKeepInv(t: Tables, queues: map<string, Queue>)
    requires Inv(t)
    requires queues.Keys == t.queues.Keys
    requires forall q :: q in queues ==> QueueInv(queues[q])
    ensures Inv(t.(queues := queues))
  {
  }

  lemma CancelKeepsInv(t: Tables, queue: string, ty: TypeId, actor: ActorId)
    requires Inv(t)
    ensures Inv(BasicCancel(t, queue, ty, actor).0)
  {
    if queue in t.queues {
      PrunedKeepsInv(t.queues[queue], ty, {actor});
      var t1 := t.(queues := t.queues[queue := Pruned(t.queues[queue], ty, {actor})]);
      SameQueuesKeepInv(t, t1.queues);
      RemoveQueuesKeepsInv(t1, {queue});
    }
  }

  lemma ConsumeKeepsInv(t: Tables, queue: string, ty: TypeId, actor: ActorId, tags: Tags)
    requires Inv(t)
    ensures Inv(BasicConsume(t, queue, ty, actor, tags).0)
  {
    if queue in t.queues {
      SameQueuesKeepInv(t, BasicConsume(t, queue, ty, actor, tags).0.queues);
    }
  }

  lemma DeliveryKeepsInv(t: Tables, p: Publication, dead: set<ActorId>, targets: set<string>)
    requires Inv(t)
    ensures Inv(AfterDelivery(t, p, dead, targets))
  {
    var queues := EachDelivered(t.queues, p, dead, targets);
    forall q | q in t.queues ensures QueueInv(queues[q]) {
      PrunedKeepsInv(t.queues[q], p.ty, Reached(t.queues[q], p) * dead);
    }
    SameQueuesKeepInv(t, queues);
    RemoveQueuesKeepsInv(t.(queues := queues), Vanishing(t, p, dead, targets));
  }

  lemma QueueDeclareKeepsInv(t: Tables, queue: string, autoDelete: bool)
    requires Inv(t)
    ensures Inv(QueueDeclare(t, queue, autoDelete).0)
  {
    if queue !in t.queues {
      var t' := QueueDeclare(t, queue, autoDelete).0;
      var b := Binding(queue, queue, None);
      assert t'.defaultExchange.bindings[|t.defaultExchange.bindings|] == b;
      forall q | q in t'.queues ensures Binding(q, q, None) in t'.defaultExchange.bindings {
        if q != queue {
          assert Binding(q, q, None) in t.defaultExchange.bindings;
        }
      }
    }
  }

  lemma BindKeepsInv(t: Tables, queue: string, exchange: string, key: string, arguments: Headers)
    requires Inv(t)
    ensures Inv(QueueBind(t, queue, exchange, key, arguments).0)
  {
    if exchange in t.exchanges {
      assert ExchangeInv(t.exchanges[exchange], exchange, t.queues);
    }
  }

  lemma UnbindKeepsInv(t: Tables, queue: string, exchange: string, key: string)
    requires Inv(t)
    ensures Inv(QueueUnbind(t, queue, exchange, key).0)
  {
    if exchange in t.exchanges {
      assert ExchangeInv(t.exchanges[exchange], exchange, t.queues);
      DropBindingUnique(t.exchanges[exchange].bindings, queue, key);
    }
  }

  /** Every handler keeps the invariant, error replies included. */
  lemma HandleKeepsInv(t: Tables, op: Op)
    requires Inv(t)
    ensures Inv(Handle(t, op).0)
  {
    match op
    case DeclareExchange(_, _, _) =>
    case DeleteExchange(_, _) =>
    case DeclareQueue(q, auto) => QueueDeclareKeepsInv(t, q, auto);
    case DeleteQueue(q, _) => RemoveQueuesKeepsInv(t, {q});
    case Bind(q, x, key, arguments) => BindKeepsInv(t, q, x, key, arguments);
    case Unbinding(q, x, key) => UnbindKeepsInv(t, q, x, key);
    case Publish(p, dead) => if Route(t, p).Routed? { DeliveryKeepsInv(t, p, dead, Route(t, p).queues); }
    case Consume(q, ty, actor, tags) => ConsumeKeepsInv(t, q, ty, actor, tags);
    case Cancel(q, ty, actor) => CancelKeepsInv(t, q, ty, actor);
  }

  lemma {:induction false} RunKeepsInv(ops: seq<Op>)
    ensures Inv(Run(EMPTY, ops))
    decreases |ops|
  {
    if ops != [] {
      RunKeepsInv(ops[..|ops| - 1]);
      HandleKeepsInv(Run(EMPTY, ops[..|ops| - 1]), ops[|ops| - 1]);
    }
  }

  // ---------- When a publish is refused ----------

  /**
   In every state a run can reach: a publish panics exactly if its exchange is a topic exchange that holds a
   malformed pattern, misses headers exactly on a headers exchange, and misses the exchange exactly if it is
   neither the default one nor declared. None of the three changes anything.
   */
  lemma {:induction false} RefusedExactlyWhen(ops: seq<Op>, p: Publication, dead: set<ActorId>)
    ensures var t := Run(EMPTY, ops);
      var named := p.exchange != "" && p.exchange in t.exchanges;
      var (t1, reply) := Handle(t, Publish(p, dead));
      && (reply == Aborted <==>
            && named && t.exchanges[p.exchange].kind.Topic?
            && exists b :: b in t.exchanges[p.exchange].bindings && p.glob(b.routingKey, p.routingKey) == Malformed)
      && (reply == Failed(HeadersRequired) <==>
            named && t.exchanges[p.exchange].kind.Headers? && p.headers.None?)
      && (reply == Failed(ExchangeNotFound) <==> p.exchange != "" && !named)
      && (reply != Done ==> t1 == t)
  {
    RunKeepsInv(ops);
  }

  /** A concrete run: binding a malformed pattern is accepted, and the next publish to the exchange panics. */
  lemma MalformedPatternAborts(exchange: string, queue: string, key: string, p: Publication, dead: set<ActorId>)
    requires exchange != "" && p.exchange == exchange && p.glob(key, p.routingKey).Malformed?
    ensures var ops :=
        [DeclareExchange(exchange, Topic, false), DeclareQueue(queue, false), Bind(queue, exchange, key, map[])];
      Handle(Run(EMPTY, ops[..2]), ops[2]).1 == Done && Handle(Run(EMPTY, ops), Publish(p, dead)).1 == Aborted
  {
    var ops :=
      [DeclareExchange(exchange, Topic, false), DeclareQueue(queue, false), Bind(queue, exchange, key, map[])];
    assert ops[..1] == [ops[0]] && ops[..2] == [ops[0], ops[1]] && ops[..0] == [];
    assert ops[..1][..0] == [] && ops[..2][..1] == ops[..1];
    var t1 := Run(EMPTY, ops[..1]);
    assert [ops[0]][..0] == [] && Run(EMPTY, [ops[0]]) == Handle(Run(EMPTY, []), ops[0]).0;
    var t2 := Run(EMPTY, ops[..2]);
    assert t2 == Handle(t1, ops[1]).0;
    var t3 := Run(EMPTY, ops);
    assert t3 == Handle(t2, ops[2]).0;
    var b := Binding(queue, key, None);
    assert t3.exchanges[exchange].bindings == [b];
    assert b in t3.exchanges[exchange].bindings;
    RefusedExactlyWhen(ops, p, dead);
  }
}
