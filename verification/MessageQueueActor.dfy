/** The message queue actor: its handlers update the tables in place. */
module MessageQueueActor {
  import opened Common
  import opened MessageQueueTables
  import opened MessageQueueProofs
  import opened MessageQueueDelivery

  lemma UnsweptInTwoSteps(
    was: map<string, Exchange>, now: map<string, Exchange>, emptied: seq<string>, gone: set<string>)
    requires now.Keys == was.Keys
    requires forall n :: n in now ==> now[n] == Detached(was[n], gone)
    requires forall n :: n in emptied <==> n in now && Swept(was[n], gone)
    ensures now - Elements(emptied) == Unswept(was, gone)
  {
  }

  class MessageQueue {
    var exchanges: map<string, Exchange>
    var queues: map<string, Queue>
    var defaultExchange: Exchange

    ghost function Contents(): Tables
      reads this
    {
      Tables(exchanges, queues, defaultExchange)
    }

    ghost predicate Valid()
      reads this
    {
      Inv(Contents())
    }

    constructor ()
      ensures Valid() && Contents() == EMPTY
    {
      exchanges := map[];
      queues := map[];
      defaultExchange := Exchange("", Direct, false, []);
    }

    /** Detaches a queue from every exchange, listing the auto-delete exchanges left without bindings. */
    method DetachQueue(queueName: string) returns (emptied: seq<string>)
      requires forall n :: n in exchanges ==> exchanges[n].name == n
      modifies this`exchanges
      ensures exchanges.Keys == old(exchanges).Keys
      ensures forall n :: n in exchanges ==> exchanges[n] == Detached(old(exchanges)[n], {queueName})
      ensures forall n :: n in emptied <==> n in exchanges && Swept(old(exchanges)[n], {queueName})
    {
      ghost var was := exchanges;
      emptied := [];
      var remaining := exchanges.Keys;
      while remaining != {}
        invariant remaining <= exchanges.Keys == was.Keys
        invariant forall n :: n in was ==>
          exchanges[n] == if n in remaining then was[n] else Detached(was[n], {queueName})
        invariant forall n :: n in emptied <==> n in was && n !in remaining && Swept(was[n], {queueName})
      {
        var n :| n in remaining;
        var exchange := Detached(exchanges[n], {queueName});
        exchanges := exchanges[n := exchange];
        if exchange.bindings == [] && exchange.autoDelete {
          emptied := emptied + [exchange.name];
        }
        remaining := remaining - {n};
      }
    }

    method RemoveExchanges(names: seq<string>)
      modifies this`exchanges
      ensures exchanges == old(exchanges) - Elements(names)
    {
      for i := 0 to |names|
        invariant exchanges == old(exchanges) - Elements(names[..i])
      {
        exchanges := exchanges - {names[i]};
        assert names[..i + 1] == names[..i] + [names[i]];
      }
      assert names[..|names|] == names;
    }

    method DeleteQueue(queueName: string, ifUnused: bool) returns (reply: Reply)
      requires Valid()
      modifies this
      ensures Valid()
      ensures (Contents(), reply) == QueueDelete(old(Contents()), queueName, ifUnused)
    {
      if queueName !in queues {
        return Failed(QueueNotFound);
      }
      if ifUnused && queues[queueName].recipients != map[] {
        return Failed(QueueInUse);
      }
      RemoveQueuesKeepsInv(Contents(), {queueName});
      queues := queues - {queueName};
      defaultExchange := Detached(defaultExchange, {queueName});
      var exchangesToDelete := DetachQueue(queueName);
      UnsweptInTwoSteps(old(exchanges), exchanges, exchangesToDelete, {queueName});
      RemoveExchanges(exchangesToDelete);
      assert Contents() == RemoveQueues(old(Contents()), {queueName});
      reply := Done;
    }

    method CancelConsumer(queueName: string, ty: TypeId, actor: ActorId) returns (reply: Reply)
      requires Valid()
      modifies this
      ensures Valid()
      ensures (Contents(), reply) == BasicCancel(old(Contents()), queueName, ty, actor)
    {
      if queueName !in queues {
        return Failed(QueueNotFound);
      }
      CancelKeepsInv(Contents(), queueName, ty, actor);
      PrunedKeepsInv(queues[queueName], ty, {actor});
      SameQueuesKeepInv(Contents(), queues[queueName := Pruned(queues[queueName], ty, {actor})]);
      queues := queues[queueName := Pruned(queues[queueName], ty, {actor})];
      if queues[queueName].autoDelete {
        reply := DeleteQueue(queueName, true);
      } else {
        reply := Done;
      }
    }

    /** Tells the consumers whose tags pass; the dead ones are reported back for cancelling. */
    method TellConsumers(queueName: string, recipients: seq<Registration>, p: Publication, dead: set<ActorId>)
      returns (sent: seq<(string, ActorId)>, toCancel: seq<ActorId>)
      ensures sent == Told(queueName, recipients, p, dead)
      ensures toCancel == ToCancel(recipients, p, dead)
    {
      sent, toCancel := [], [];
      for i := 0 to |recipients|
        invariant toCancel == ToCancel(recipients[..i], p, dead)
        invariant sent == Told(queueName, recipients[..i], p, dead)
      {
        var registration := recipients[i];
        assert recipients[..i + 1][..i] == recipients[..i];
        if p.accepts(registration.tags) {
          if registration.actorId in dead {
            toCancel := toCancel + [registration.actorId];
          } else {
            sent := sent + [(queueName, registration.actorId)];
          }
        }
      }
      assert recipients[..|recipients|] == recipients;
    }

    method DeliverMessage(queueName: string, p: Publication, dead: set<ActorId>) returns (sent: seq<(string, ActorId)>)
      requires Valid()
      modifies this
      ensures Valid()
      ensures Contents() == Deliver(old(Contents()), queueName, p, dead)
      ensures sent == Told(queueName, ConsumersAt(old(Contents()), queueName, p.ty), p, dead)
    {
      var recipients := if queueName in queues then Consumers(queues[queueName], p.ty) else [];
      var toCancel;
      sent, toCancel := TellConsumers(queueName, recipients, p, dead);
      hide Told, ToCancel, CancelAll, Inv;
      CancelDead(queueName, p.ty, toCancel);
    }

    /** Cancels the consumers found dead, one after the other. */
    method CancelDead(queueName: string, ty: TypeId, toCancel: seq<ActorId>)
      requires Valid()
      modifies this
      ensures Valid()
      ensures Contents() == CancelAll(old(Contents()), queueName, ty, toCancel)
    {
      hide Inv, BasicCancel;
      for i := 0 to |toCancel|
        invariant Valid()
        invariant CancelAll(Contents(), queueName, ty, toCancel[i..])
               == CancelAll(old(Contents()), queueName, ty, toCancel)
      {
        assert toCancel[i..][0] == toCancel[i] && toCancel[i..][1..] == toCancel[i + 1..];
        var _ := CancelConsumer(queueName, ty, toCancel[i]);
      }
    }

    /** Collects the queues an exchange routes a message to. */
    method FindTargets(exchange: Exchange, p: Publication) returns (routing: Routing)
      ensures routing == RouteFrom(exchange, p)
    {
      if exchange.kind == ExchangeType.Headers && p.headers.None? {
        return Refused(Failed(HeadersRequired));
      }
      var targets: set<string> := {};
      for i := 0 to |exchange.bindings|
        invariant targets == set b | b in exchange.bindings[..i] && BindingMatches(exchange.kind, b, p) :: b.queueName
        invariant exchange.kind.Topic? ==>
          forall b :: b in exchange.bindings[..i] ==> !p.glob(b.routingKey, p.routingKey).Malformed?
      {
        var binding := exchange.bindings[i];
        assert exchange.bindings[..i + 1] == exchange.bindings[..i] + [binding];
        if exchange.kind.Topic? && p.glob(binding.routingKey, p.routingKey).Malformed? {
          return Refused(Aborted);
        }
        if BindingMatches(exchange.kind, binding, p) {
          targets := targets + {binding.queueName};
        }
      }
      assert exchange.bindings[..|exchange.bindings|] == exchange.bindings;
      routing := Routed(targets);
    }

    /** The targets are walked in an arbitrary order; neither the tables nor the deliveries show it. */
    method DeliverToAll(targets: set<string>, p: Publication, dead: set<ActorId>) returns (sent: seq<(string, ActorId)>)
      requires Valid()
      modifies this
      ensures Valid()
      ensures Contents() == AfterDelivery(old(Contents()), p, dead, targets)
      ensures SentExactly(sent, old(Contents()), p, dead, targets)
    {
      sent := [];
      ghost var done: set<string> := {};
      var remaining := targets;
      assert EachDelivered(queues, p, dead, {}) == queues && Vanishing(Contents(), p, dead, {}) == {};
      while remaining != {}
        invariant done <= targets && remaining == targets - done
        invariant Valid() && Contents() == AfterDelivery(old(Contents()), p, dead, done)
        invariant SentExactly(sent, old(Contents()), p, dead, done)
      {
        var q :| q in remaining;
        DeliverOneMore(old(Contents()), p, dead, done, q);
        var told := DeliverMessage(q, p, dead);
        SentOneMore(sent, old(Contents()), p, dead, done, q);
        sent := sent + told;
        done, remaining := done + {q}, remaining - {q};
      }
      assert done == targets;
    }

    method PublishMessage(p: Publication, dead: set<ActorId>) returns (reply: Reply, sent: seq<(string, ActorId)>)
      requires Valid()
      modifies this
      ensures Valid()
      ensures (Contents(), reply) == BasicPublish(old(Contents()), p, dead)
      ensures var routing := Route(old(Contents()), p);
        SentExactly(sent, old(Contents()), p, dead, if routing.Routed? then routing.queues else {})
    {
      sent := [];
      if p.exchange != "" && p.exchange !in exchanges {
        return Failed(ExchangeNotFound), sent;
      }
      var routing := FindTargets(if p.exchange == "" then defaultExchange else exchanges[p.exchange], p);
      if routing.Refused? {
        return routing.reply, sent;
      }
      sent := DeliverToAll(routing.queues, p, dead);
      reply := Done;
    }

    method DeclareExchange(exchange: string, kind: ExchangeType, autoDelete: bool) returns (reply: Reply)
      requires Valid()
      modifies this
      ensures Valid()
      ensures (Contents(), reply) == ExchangeDeclare(old(Contents()), exchange, kind, autoDelete)
    {
      if exchange == "" || exchange in exchanges {
        return Failed(ExchangeAlreadyExists);
      }
      exchanges := exchanges[exchange := Exchange(exchange, kind, autoDelete, [])];
      reply := Done;
    }

    method DeleteExchange(exchange: string, ifUnused: bool) returns (reply: Reply)
      requires Valid()
      modifies this
      ensures Valid()
      ensures (Contents(), reply) == ExchangeDelete(old(Contents()), exchange, ifUnused)
    {
      if exchange !in exchanges {
        return Failed(ExchangeNotFound);
      }
      if ifUnused && exchanges[exchange].bindings != [] {
        return Failed(ExchangeInUse);
      }
      exchanges := exchanges - {exchange};
      reply := Done;
    }

    method DeclareQueue(queue: string, autoDelete: bool) returns (reply: Reply)
      requires Valid()
      modifies this
      ensures Valid()
      ensures (Contents(), reply) == QueueDeclare(old(Contents()), queue, autoDelete)
    {
      if queue in queues {
        return Failed(QueueAlreadyExists);
      }
      QueueDeclareKeepsInv(Contents(), queue, autoDelete);
      queues := queues[queue := Queue(autoDelete, map[])];
      defaultExchange := defaultExchange.(bindings := defaultExchange.bindings + [Binding(queue, queue, None)]);
      reply := Done;
    }

    method BindQueue(queue: string, exchange: string, key: string, arguments: Headers) returns (reply: Reply)
      requires Valid()
      modifies this
      ensures Valid()
      ensures (Contents(), reply) == QueueBind(old(Contents()), queue, exchange, key, arguments)
    {
      BindKeepsInv(Contents(), queue, exchange, key, arguments);
      if queue !in queues {
        return Failed(QueueNotFound);
      }
      if exchange !in exchanges {
        return Failed(ExchangeNotFound);
      }
      var x := exchanges[exchange];
      if exists b :: b in x.bindings && b.queueName == queue && b.routingKey == key {
        return Failed(BindingAlreadyExists);
      }
      var rule := HeaderRule(x.kind, arguments);
      if rule.None? {
        return Failed(InvalidHeaderMatch);
      }
      exchanges := exchanges[exchange := x.(bindings := x.bindings + [Binding(queue, key, rule.value)])];
      reply := Done;
    }

    method UnbindQueue(queue: string, exchange: string, key: string) returns (reply: Reply)
      requires Valid()
      modifies this
      ensures Valid()
      ensures (Contents(), reply) == QueueUnbind(old(Contents()), queue, exchange, key)
    {
      UnbindKeepsInv(Contents(), queue, exchange, key);
      if exchange !in exchanges {
        return Failed(ExchangeNotFound);
      }
      var x := exchanges[exchange];
      exchanges := exchanges[exchange := x.(bindings := DropBinding(x.bindings, queue, key))];
      if exchanges[exchange].bindings == [] && x.autoDelete {
        exchanges := exchanges - {exchange};
        assert exchanges == old(exchanges) - {exchange};
      }
      reply := Done;
    }

    method ConsumeQueue(queue: string, ty: TypeId, actor: ActorId, tags: Tags) returns (reply: Reply)
      requires Valid()
      modifies this
      ensures Valid()
      ensures (Contents(), reply) == BasicConsume(old(Contents()), queue, ty, actor, tags)
    {
      ConsumeKeepsInv(Contents(), queue, ty, actor, tags);
      if queue !in queues {
        return Failed(QueueNotFound);
      }
      var q := queues[queue];
      var recipients := if ty in q.recipients then q.recipients[ty] else [];
      if !exists r :: r in recipients && r.actorId == actor {
        recipients := recipients + [Registration(actor, tags)];
      }
      queues := queues[queue := q.(recipients := q.recipients[ty := recipients])];
      reply := Done;
    }
  }
}
