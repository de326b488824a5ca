/** Publishing delivers queue by queue and prunes as it goes; the outcome is the same in every order. */
module MessageQueueDelivery {
  import opened Common
  import opened MessageQueueTables
  import opened MessageQueueProofs

  // ---------- One queue at a time ----------

  /** The dead consumers met while telling a list, in list order. */
  function ToCancel(rs: seq<Registration>, p: Publication, dead: set<ActorId>): seq<ActorId> {
    if rs == [] then []
    else
      var r := rs[|rs| - 1];
      ToCancel(rs[..|rs| - 1], p, dead) + (if p.accepts(r.tags) && r.actorId in dead then [r.actorId] else [])
  }

  /** The live consumers told, in list order. */
  function Told(queue: string, rs: seq<Registration>, p: Publication, dead: set<ActorId>): seq<(string, ActorId)> {
    if rs == [] then []
    else
      var r := rs[|rs| - 1];
      Told(queue, rs[..|rs| - 1], p, dead)
      + (if p.accepts(r.tags) && r.actorId !in dead then [(queue, r.actorId)] else [])
  }

  function CancelAll(t: Tables, queue: string, ty: TypeId, actors: seq<ActorId>): Tables
    decreases |actors|
  {
    if actors == [] then t else CancelAll(BasicCancel(t, queue, ty, actors[0]).0, queue, ty, actors[1..])
  }

  function ConsumersAt(t: Tables, queue: string, ty: TypeId): seq<Registration> {
    if queue in t.queues then Consumers(t.queues[queue], ty) else []
  }

  function Deliver(t: Tables, queue: string, p: Publication, dead: set<ActorId>): Tables {
    CancelAll(t, queue, p.ty, ToCancel(ConsumersAt(t, queue, p.ty), p, dead))
  }

  function DeliverAll(t: Tables, order: seq<string>, p: Publication, dead: set<ActorId>): Tables {
    if order == [] then t
    else Deliver(DeliverAll(t, order[..|order| - 1], p, dead), order[|order| - 1], p, dead)
  }

  function SentAll(t: Tables, order: seq<string>, p: Publication, dead: set<ActorId>): seq<(string, ActorId)> {
    if order == [] then []
    else
      var before := order[..|order| - 1];
      var q := order[|order| - 1];
      SentAll(t, before, p, dead) + Told(q, ConsumersAt(DeliverAll(t, before, p, dead), q, p.ty), p, dead)
  }

  ghost predicate Receives(t: Tables, p: Publication, dead: set<ActorId>, queue: string, actor: ActorId) {
    queue in t.queues && actor in Reached(t.queues[queue], p) && actor !in dead
  }

  /** Each live reached consumer of each of the queues is told once, and nobody else is. */
  ghost predicate SentExactly(
    sent: seq<(string, ActorId)>, t: Tables, p: Publication, dead: set<ActorId>, queues: set<string>)
  {
    forall q, a :: multiset(sent)[(q, a)] == (if q in queues && Receives(t, p, dead, q, a) then 1 else 0)
  }

  // ---------- Cancelling a batch ----------

  lemma {:induction false} DropActorsTwice(rs: seq<Registration>, first: set<ActorId>, second: set<ActorId>)
    ensures DropActors(DropActors(rs, first), second) == DropActors(rs, first + second)
    decreases rs
  {
    if rs != [] {
      DropActorsTwice(rs[1..], first, second);
      var kept := DropActors(rs[1..], first);
      if rs[0].actorId in first {
        assert DropActors(rs, first) == kept;
      } else {
        assert DropActors(rs, first) == [rs[0]] + kept;
        assert ([rs[0]] + kept)[1..] == kept;
      }
    }
  }

  lemma {:induction false} DropNoActors(rs: seq<Registration>)
    ensures DropActors(rs, {}) == rs
    decreases rs
  {
    if rs != [] {
      DropNoActors(rs[1..]);
    }
  }

  lemma PrunedTwice(q: Queue, ty: TypeId, first: set<ActorId>, second: set<ActorId>)
    requires QueueInv(q)
    ensures Pruned(Pruned(q, ty, first), ty, second) == Pruned(q, ty, first + second)
  {
    if ty in q.recipients {
      DropActorsTwice(q.recipients[ty], first, second);
    }
    var a, b := Pruned(Pruned(q, ty, first), ty, second), Pruned(q, ty, first + second);
    assert a.recipients == b.recipients;
  }

  lemma PruneNobody(q: Queue, ty: TypeId)
    requires QueueInv(q)
    ensures Pruned(q, ty, {}) == q
  {
    if ty in q.recipients {
      DropNoActors(q.recipients[ty]);
    }
    assert Pruned(q, ty, {}).recipients == q.recipients;
  }

  /** The tables after a non-empty batch of cancels on one queue. */
  function CancelledTogether(t: Tables, queue: string, ty: TypeId, actors: set<ActorId>): Tables
    requires queue in t.queues
  {
    var q := Pruned(t.queues[queue], ty, actors);
    if q.autoDelete && q.recipients == map[] then RemoveQueues(t, {queue}) else t.(queues := t.queues[queue := q])
  }

  lemma CancelOne(t: Tables, queue: string, ty: TypeId, actor: ActorId)
    requires queue in t.queues
    ensures BasicCancel(t, queue, ty, actor).0 == CancelledTogether(t, queue, ty, {actor})
  {
    var q := Pruned(t.queues[queue], ty, {actor});
    var t1 := t.(queues := t.queues[queue := q]);
    assert t1.queues - {queue} == t.queues - {queue};
    assert RemoveQueues(t1, {queue}) == RemoveQueues(t, {queue});
  }

  ghost predicate Consuming(q: Queue, ty: TypeId, actor: ActorId) {
    exists r :: r in Consumers(q, ty) && r.actorId == actor
  }

  lemma StillConsuming(q: Queue, ty: TypeId, gone: ActorId, actor: ActorId)
    requires actor != gone && Consuming(q, ty, actor)
    ensures Consuming(Pruned(q, ty, {gone}), ty, actor)
    ensures Pruned(q, ty, {gone}).recipients != map[]
  {
    var r :| r in Consumers(q, ty) && r.actorId == actor;
    assert r in Left(q, ty, {gone}, ty);
    assert ty in Pruned(q, ty, {gone}).recipients;
  }

  lemma CancelTogetherMore(t: Tables, queue: string, ty: TypeId, first: set<ActorId>, rest: set<ActorId>)
    requires queue in t.queues && QueueInv(t.queues[queue])
    ensures
      CancelledTogether(t.(queues := t.queues[queue := Pruned(t.queues[queue], ty, first)]), queue, ty, rest)
      == CancelledTogether(t, queue, ty, first + rest)
  {
    var q := t.queues[queue];
    var t1 := t.(queues := t.queues[queue := Pruned(q, ty, first)]);
    PrunedTwice(q, ty, first, rest);
    var q2 := Pruned(q, ty, first + rest);
    assert t1.queues[queue := q2] == t.queues[queue := q2];
    assert t1.queues - {queue} == t.queues - {queue};
    assert RemoveQueues(t1, {queue}) == RemoveQueues(t, {queue});
  }

  lemma RestStillConsumes(q: Queue, ty: TypeId, gone: ActorId, rest: seq<ActorId>)
    requires rest != [] && gone !in rest && forall a :: a in rest ==> Consuming(q, ty, a)
    ensures Pruned(q, ty, {gone}).recipients != map[]
    ensures forall a :: a in rest ==> Consuming(Pruned(q, ty, {gone}), ty, a)
  {
    forall a | a in rest ensures Consuming(Pruned(q, ty, {gone}), ty, a) {
      StillConsuming(q, ty, gone, a);
    }
    StillConsuming(q, ty, gone, rest[0]);
  }

  lemma {:induction false} CancelAllTogether(t: Tables, queue: string, ty: TypeId, actors: seq<ActorId>)
    requires queue in t.queues && QueueInv(t.queues[queue]) && actors != [] && Distinct(actors)
    requires forall a :: a in actors ==> Consuming(t.queues[queue], ty, a)
    ensures CancelAll(t, queue, ty, actors) == CancelledTogether(t, queue, ty, Elements(actors))
    decreases |actors|
  {
    var a0, rest := actors[0], actors[1..];
    CancelOne(t, queue, ty, a0);
    assert CancelAll(t, queue, ty, actors) == CancelAll(BasicCancel(t, queue, ty, a0).0, queue, ty, rest);
    if rest == [] {
      assert Elements(actors) == {a0};
    } else {
      var t1 := t.(queues := t.queues[queue := Pruned(t.queues[queue], ty, {a0})]);
      RestStillConsumes(t.queues[queue], ty, a0, rest);
      assert CancelledTogether(t, queue, ty, {a0}) == t1;
      PrunedKeepsInv(t.queues[queue], ty, {a0});
      hide BasicCancel, CancelledTogether, Pruned, Consuming, QueueInv;
      CancelAllTogether(t1, queue, ty, rest);
      CancelTogetherMore(t, queue, ty, {a0}, Elements(rest));
      assert {a0} + Elements(rest) == Elements(actors);
    }
  }

  lemma {:induction false} ToCancelIsExact(rs: seq<Registration>, p: Publication, dead: set<ActorId>)
    requires UniqueActors(rs)
    ensures Distinct(ToCancel(rs, p, dead))
    ensures forall a :: a in ToCancel(rs, p, dead) <==>
      exists r :: r in rs && p.accepts(r.tags) && r.actorId == a && a in dead
    decreases |rs|
  {
    if rs != [] {
      ToCancelIsExact(rs[..|rs| - 1], p, dead);
      assert rs == rs[..|rs| - 1] + [rs[|rs| - 1]];
    }
  }

  lemma HitIsToCancel(q: Queue, p: Publication, dead: set<ActorId>)
    requires QueueInv(q)
    ensures Distinct(ToCancel(Consumers(q, p.ty), p, dead))
    ensures Elements(ToCancel(Consumers(q, p.ty), p, dead)) == Reached(q, p) * dead
    ensures forall a :: a in ToCancel(Consumers(q, p.ty), p, dead) ==> Consuming(q, p.ty, a)
  {
    ToCancelIsExact(Consumers(q, p.ty), p, dead);
  }

  /** Delivering to one queue cancels its reached dead consumers together. */
  lemma DeliverOnce(t: Tables, queue: string, p: Publication, dead: set<ActorId>)
    requires queue in t.queues ==> QueueInv(t.queues[queue])
    ensures queue !in t.queues ==> Deliver(t, queue, p, dead) == t
    ensures queue in t.queues ==>
      var hit := Reached(t.queues[queue], p) * dead;
      Deliver(t, queue, p, dead) == if hit == {} then t else CancelledTogether(t, queue, p.ty, hit)
  {
    if queue in t.queues {
      var rs := Consumers(t.queues[queue], p.ty);
      var actors := ToCancel(rs, p, dead);
      var hit := Reached(t.queues[queue], p) * dead;
      HitIsToCancel(t.queues[queue], p, dead);
      if actors != [] {
        assert actors[0] in hit;
        CancelAllTogether(t, queue, p.ty, actors);
      }
    }
  }

  // ---------- All targets, in any order ----------

  lemma {:induction false} UnbindTwice(bs: seq<Binding>, first: set<string>, second: set<string>)
    ensures Unbind(Unbind(bs, first), second) == Unbind(bs, first + second)
    decreases bs
  {
    if bs != [] {
      UnbindTwice(bs[1..], first, second);
      var kept := Unbind(bs[1..], first);
      if bs[0].queueName in first {
        assert Unbind(bs, first) == kept;
      } else {
        assert Unbind(bs, first) == [bs[0]] + kept;
        assert ([bs[0]] + kept)[1..] == kept;
      }
    }
  }

  lemma UnsweptTwice(xs: map<string, Exchange>, first: set<string>, second: set<string>)
    ensures Unswept(Unswept(xs, first), second) == Unswept(xs, first + second)
  {
    forall n | n in xs
      ensures Detached(Detached(xs[n], first), second) == Detached(xs[n], first + second)
      ensures Swept(xs[n], first + second) <==> Swept(xs[n], first) || Swept(Detached(xs[n], first), second)
    {
      UnbindTwice(xs[n].bindings, first, second);
    }
  }

  lemma RemoveQueuesTwice(t: Tables, first: set<string>, second: set<string>)
    ensures RemoveQueues(RemoveQueues(t, first), second) == RemoveQueues(t, first + second)
  {
    if first == {} {
      assert first + second == second;
    } else if second == {} {
      assert first + second == first;
    } else {
      UnbindTwice(t.defaultExchange.bindings, first, second);
      UnsweptTwice(t.exchanges, first, second);
      assert t.queues - first - second == t.queues - (first + second);
    }
  }

  /** What an update of one surviving queue adds to a removal. */
  lemma UpdateThenRemove(t: Tables, gone: set<string>, queue: string, q: Queue)
    requires queue in t.queues && queue !in gone
    ensures RemoveQueues(t.(queues := t.queues[queue := q]), gone)
         == RemoveQueues(t, gone).(queues := RemoveQueues(t, gone).queues[queue := q])
  {
    assert t.queues[queue := q] - gone == (t.queues - gone)[queue := q];
  }

  lemma RemoveForgets(t: Tables, gone: set<string>, queue: string, q: Queue)
    requires queue in t.queues && queue in gone
    ensures RemoveQueues(t.(queues := t.queues[queue := q]), gone) == RemoveQueues(t, gone)
  {
    assert t.queues[queue := q] - gone == t.queues - gone;
  }

  lemma OneMoreEach(t: Tables, p: Publication, dead: set<ActorId>, done: set<string>, queue: string)
    requires queue !in done && queue in t.queues
    ensures EachDelivered(t.queues, p, dead, done + {queue})
         == EachDelivered(t.queues, p, dead, done)[queue := Delivered(t.queues[queue], p, dead)]
    ensures EachDelivered(t.queues, p, dead, done)[queue] == t.queues[queue]
    ensures Vanishing(t, p, dead, done + {queue})
         == Vanishing(t, p, dead, done) + (if Vanishes(t.queues[queue], p, dead) then {queue} else {})
  {
  }

  /** One more target extends the closed form by exactly that target. */
  lemma DeliverOneMore(t: Tables, p: Publication, dead: set<ActorId>, done: set<string>, queue: string)
    requires QueuesInv(t) && queue !in done
    ensures ConsumersAt(AfterDelivery(t, p, dead, done), queue, p.ty) == ConsumersAt(t, queue, p.ty)
    ensures Deliver(AfterDelivery(t, p, dead, done), queue, p, dead) == AfterDelivery(t, p, dead, done + {queue})
  {
    if queue !in t.queues {
      assert EachDelivered(t.queues, p, dead, done) == EachDelivered(t.queues, p, dead, done + {queue});
      assert Vanishing(t, p, dead, done) == Vanishing(t, p, dead, done + {queue});
    } else {
      DeliverOneMoreExisting(t, p, dead, done, queue);
    }
  }

  /** The closed form over one more target, as an update and a removal on the one without it. */
  lemma AfterOneMore(t: Tables, p: Publication, dead: set<ActorId>, done: set<string>, queue: string)
    requires queue !in done && queue in t.queues
    ensures var u := t.(queues := EachDelivered(t.queues, p, dead, done));
      && u.queues[queue] == t.queues[queue]
      && AfterDelivery(t, p, dead, done) == RemoveQueues(u, Vanishing(t, p, dead, done))
      && AfterDelivery(t, p, dead, done + {queue}) ==
         RemoveQueues(u.(queues := u.queues[queue := Delivered(t.queues[queue], p, dead)]),
                      Vanishing(t, p, dead, done) + (if Vanishes(t.queues[queue], p, dead) then {queue} else {}))
  {
    OneMoreEach(t, p, dead, done, queue);
    hide EachDelivered, Vanishing, RemoveQueues, Vanishes, Delivered;
  }

  /** A delivery to one queue by the three ways it can end. */
  lemma DeliverOnceEnds(t: Tables, queue: string, p: Publication, dead: set<ActorId>)
    requires queue in t.queues && QueueInv(t.queues[queue])
    ensures var q := t.queues[queue];
      Deliver(t, queue, p, dead) ==
        if Vanishes(q, p, dead) then RemoveQueues(t, {queue})
        else t.(queues := t.queues[queue := Delivered(q, p, dead)])
  {
    var q := t.queues[queue];
    DeliverOnce(t, queue, p, dead);
    if Reached(q, p) * dead == {} {
      PruneNobody(q, p.ty);
      assert t.queues[queue := q] == t.queues;
    }
    hide Deliver, RemoveQueues, Pruned, Reached;
  }

  lemma DeliverOneMoreExisting(t: Tables, p: Publication, dead: set<ActorId>, done: set<string>, queue: string)
    requires queue !in done && queue in t.queues && QueueInv(t.queues[queue])
    ensures ConsumersAt(AfterDelivery(t, p, dead, done), queue, p.ty) == ConsumersAt(t, queue, p.ty)
    ensures Deliver(AfterDelivery(t, p, dead, done), queue, p, dead) == AfterDelivery(t, p, dead, done + {queue})
  {
    var q, gone := t.queues[queue], Vanishing(t, p, dead, done);
    var u := t.(queues := EachDelivered(t.queues, p, dead, done));
    var q' := Delivered(q, p, dead);
    AfterOneMore(t, p, dead, done, queue);
    assert queue !in gone && RemoveQueues(u, gone).queues[queue] == q;
    DeliverOnceEnds(RemoveQueues(u, gone), queue, p, dead);
    hide AfterDelivery, Deliver, Vanishes, Delivered, EachDelivered, Vanishing, RemoveQueues;
    if Vanishes(q, p, dead) {
      RemoveQueuesTwice(u, gone, {queue});
      RemoveForgets(u, gone + {queue}, queue, q');
    } else {
      assert gone + {} == gone;
      UpdateThenRemove(u, gone, queue, q');
    }
  }

  ghost predicate Accepting(rs: seq<Registration>, p: Publication, actor: ActorId) {
    exists r :: r in rs && p.accepts(r.tags) && r.actorId == actor
  }

  lemma AcceptingMore(before: seq<Registration>, last: Registration, p: Publication, actor: ActorId)
    ensures Accepting(before + [last], p, actor) <==>
      Accepting(before, p, actor) || (p.accepts(last.tags) && last.actorId == actor)
  {
    assert last in before + [last];
  }

  lemma LastIsNew(before: seq<Registration>, last: Registration, p: Publication)
    requires UniqueActors(before + [last])
    ensures UniqueActors(before) && !Accepting(before, p, last.actorId)
  {
    var rs := before + [last];
    assert forall i :: 0 <= i < |before| ==> rs[i] == before[i];
    assert rs[|before|] == last;
  }

  /** Each live consumer of a queue that accepts the message is told once. */
  lemma {:induction false} ToldIsExact(
    queue: string, rs: seq<Registration>, p: Publication, dead: set<ActorId>, x: (string, ActorId))
    requires UniqueActors(rs)
    ensures multiset(Told(queue, rs, p, dead))[x] ==
      if x.0 == queue && x.1 !in dead && Accepting(rs, p, x.1) then 1 else 0
    decreases |rs|
  {
    if rs != [] {
      var before, last := rs[..|rs| - 1], rs[|rs| - 1];
      var one := if p.accepts(last.tags) && last.actorId !in dead then [(queue, last.actorId)] else [];
      assert Told(queue, rs, p, dead) == Told(queue, before, p, dead) + one;
      assert rs == before + [last];
      hide UniqueActors, Accepting, Told;
      LastIsNew(before, last, p);
      AcceptingMore(before, last, p, x.1);
      ToldIsExact(queue, before, p, dead, x);
      assert multiset(one)[x] == if one != [] && x == (queue, last.actorId) then 1 else 0;
    }
  }

  lemma {:induction false} TablesIgnoreOrder(t: Tables, order: seq<string>, p: Publication, dead: set<ActorId>)
    requires QueuesInv(t) && Distinct(order)
    ensures DeliverAll(t, order, p, dead) == AfterDelivery(t, p, dead, Elements(order))
    decreases |order|
  {
    if order == [] {
      assert Elements(order) == {};
      assert EachDelivered(t.queues, p, dead, {}) == t.queues;
      assert Vanishing(t, p, dead, {}) == {};
    } else {
      var before, q := order[..|order| - 1], order[|order| - 1];
      TablesIgnoreOrder(t, before, p, dead);
      DeliverOneMore(t, p, dead, Elements(before), q);
      assert Elements(before) + {q} == Elements(order);
    }
  }

  lemma ToldByQueue(t: Tables, queue: string, p: Publication, dead: set<ActorId>, x: (string, ActorId))
    requires QueuesInv(t)
    ensures multiset(Told(queue, ConsumersAt(t, queue, p.ty), p, dead))[x] ==
      if x.0 == queue && Receives(t, p, dead, queue, x.1) then 1 else 0
  {
    ToldIsExact(queue, ConsumersAt(t, queue, p.ty), p, dead, x);
  }

  lemma SentOneMore(
    sent: seq<(string, ActorId)>, t: Tables, p: Publication, dead: set<ActorId>, done: set<string>, queue: string)
    requires QueuesInv(t) && queue !in done && SentExactly(sent, t, p, dead, done)
    ensures SentExactly(sent + Told(queue, ConsumersAt(t, queue, p.ty), p, dead), t, p, dead, done + {queue})
  {
    forall q: string, a: ActorId
      ensures multiset(Told(queue, ConsumersAt(t, queue, p.ty), p, dead))[(q, a)] ==
        (if q == queue && Receives(t, p, dead, q, a) then 1 else 0)
    {
      ToldByQueue(t, queue, p, dead, (q, a));
    }
  }

  /** Earlier deliveries leave a later target's consumers alone. */
  lemma StillConsumers(t: Tables, before: seq<string>, queue: string, p: Publication, dead: set<ActorId>)
    requires QueuesInv(t) && Distinct(before) && queue !in before
    ensures ConsumersAt(DeliverAll(t, before, p, dead), queue, p.ty) == ConsumersAt(t, queue, p.ty)
  {
    TablesIgnoreOrder(t, before, p, dead);
    DeliverOneMore(t, p, dead, Elements(before), queue);
  }

  lemma {:induction false} SentIsExact(
    t: Tables, order: seq<string>, p: Publication, dead: set<ActorId>, x: (string, ActorId))
    requires QueuesInv(t) && Distinct(order)
    ensures multiset(SentAll(t, order, p, dead))[x] == if x.0 in order && Receives(t, p, dead, x.0, x.1) then 1 else 0
    decreases |order|
  {
    if order != [] {
      var before, q := order[..|order| - 1], order[|order| - 1];
      SentIsExact(t, before, p, dead, x);
      StillConsumers(t, before, q, p, dead);
      ToldByQueue(t, q, p, dead, x);
      hide DeliverAll, Told, Receives, QueuesInv;
      assert SentAll(t, order, p, dead) == SentAll(t, before, p, dead) + Told(q, ConsumersAt(t, q, p.ty), p, dead);
      assert order == before + [q];
    }
  }

  /**
   Whatever order the target set is walked in, the tables end the same and each live consumer whose tags
   pass gets exactly one message per target queue it consumes, and nobody else gets any.
   */
  lemma {:induction false} DeliveryOrderIsInvisible(t: Tables, order: seq<string>, p: Publication, dead: set<ActorId>)
    requires QueuesInv(t) && Distinct(order)
    ensures DeliverAll(t, order, p, dead) == AfterDelivery(t, p, dead, Elements(order))
    ensures SentExactly(SentAll(t, order, p, dead), t, p, dead, Elements(order))
  {
    TablesIgnoreOrder(t, order, p, dead);
    forall q: string, a: ActorId
      ensures multiset(SentAll(t, order, p, dead))[(q, a)] ==
              (if q in order && Receives(t, p, dead, q, a) then 1 else 0)
    {
      SentIsExact(t, order, p, dead, (q, a));
    }
  }

  /** Two orders of the same targets: same tables, same multiset of deliveries. */
  lemma {:induction false} AnyTwoOrdersAgree(
    t: Tables, one: seq<string>, two: seq<string>, p: Publication, dead: set<ActorId>)
    requires QueuesInv(t) && Distinct(one) && Distinct(two)
    requires forall q :: q in one <==> q in two
    ensures DeliverAll(t, one, p, dead) == DeliverAll(t, two, p, dead)
    ensures multiset(SentAll(t, one, p, dead)) == multiset(SentAll(t, two, p, dead))
  {
    DeliveryOrderIsInvisible(t, one, p, dead);
    DeliveryOrderIsInvisible(t, two, p, dead);
    assert Elements(one) == Elements(two);
    forall x ensures multiset(SentAll(t, one, p, dead))[x] == multiset(SentAll(t, two, p, dead))[x] {
      var (q, a) := x;
    }
  }

  /**
   A publish on tables that any run led to: walking its target queues in whatever order gives the tables and
   the deliveries that the closed form names.
   */
  lemma {:induction false} PublishInAnyOrder(ops: seq<Op>, p: Publication, dead: set<ActorId>, order: seq<string>)
    requires Distinct(order) && Route(Run(EMPTY, ops), p) == Routed(Elements(order))
    ensures var t := Run(EMPTY, ops);
      && DeliverAll(t, order, p, dead) == Run(EMPTY, ops + [Publish(p, dead)])
      && SentExactly(SentAll(t, order, p, dead), t, p, dead, Elements(order))
  {
    RunKeepsInv(ops);
    DeliveryOrderIsInvisible(Run(EMPTY, ops), order, p, dead);
    assert (ops + [Publish(p, dead)])[..|ops|] == ops;
  }
}
