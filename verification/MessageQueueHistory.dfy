/** The message queue read from its history alone: which bindings and consumers count, and whom a publish tells. */
module MessageQueueHistory {
  import opened Common
  import opened MessageQueueTables
  import opened MessageQueueProofs
  import opened MessageQueueDelivery
  import opened MessageQueueSteps

  /** The tables after the first k operations. */
  function After(ops: seq<Op>, k: nat): Tables
    requires k <= |ops|
  {
    Run(EMPTY, ops[..k])
  }

  lemma OneMoreOp(ops: seq<Op>, op: Op)
    ensures Run(EMPTY, ops + [op]) == Handle(Run(EMPTY, ops), op).0
    ensures forall k :: 0 <= k <= |ops| ==> After(ops + [op], k) == After(ops, k)
    ensures After(ops, |ops|) == Run(EMPTY, ops) && After(ops + [op], |ops| + 1) == Run(EMPTY, ops + [op])
  {
    assert (ops + [op])[..|ops|] == ops && ops[..|ops|] == ops && (ops + [op])[..|ops| + 1] == ops + [op];
    forall k | 0 <= k <= |ops| ensures (ops + [op])[..k] == ops[..k] {
    }
  }

  lemma AfterGrows(ops: seq<Op>, op: Op, k: nat)
    requires k <= |ops|
    ensures After(ops + [op], k) == After(ops, k)
  {
    assert (ops + [op])[..k] == ops[..k];
  }

  lemma AfterAll(ops: seq<Op>)
    ensures After(ops, |ops|) == Run(EMPTY, ops)
  {
    assert ops[..|ops|] == ops;
  }

  // ---------- Consumers ----------

  ghost predicate QueueStays(ops: seq<Op>, since: nat, queue: string) {
    forall k :: since < k <= |ops| ==> queue in After(ops, k).queues
  }

  /** Somebody cancels the consumer, or finds it dead. */
  predicate EndsConsumer(t: Tables, op: Op, queue: string, ty: TypeId, r: Registration) {
    op == Cancel(queue, ty, r.actorId) || FoundDead(t, op, queue, ty, r)
  }

  ghost predicate ConsumerStays(ops: seq<Op>, since: nat, queue: string, ty: TypeId, r: Registration) {
    forall j :: since < j < |ops| ==> !EndsConsumer(After(ops, j), ops[j], queue, ty, r)
  }

  /** The operation registers the consumer: the queue is there and has no registration of that actor. */
  ghost predicate Registers(t: Tables, op: Op, queue: string, ty: TypeId, r: Registration) {
    && op == Consume(queue, ty, r.actorId, r.tags)
    && queue in t.queues && !HasConsumer(t, queue, ty, r.actorId)
  }

  /** The i-th operation registered a consumer that is one still. */
  ghost predicate LiveConsume(ops: seq<Op>, i: nat, queue: string, ty: TypeId, r: Registration) {
    && i < |ops| && Registers(After(ops, i), ops[i], queue, ty, r)
    && QueueStays(ops, i, queue) && ConsumerStays(ops, i, queue, ty, r)
  }

  lemma QueueStayed(ops: seq<Op>, op: Op, since: nat, queue: string)
    requires since <= |ops| && QueueStays(ops + [op], since, queue)
    ensures QueueStays(ops, since, queue) && queue in After(ops + [op], |ops| + 1).queues
  {
    hide After;
    assert queue in After(ops + [op], |ops| + 1).queues;
    forall k | since < k <= |ops| ensures queue in After(ops, k).queues {
      AfterGrows(ops, op, k);
    }
  }

  lemma QueueStaysLonger(ops: seq<Op>, op: Op, since: nat, queue: string)
    requires since <= |ops| && QueueStays(ops, since, queue) && queue in After(ops + [op], |ops| + 1).queues
    ensures QueueStays(ops + [op], since, queue)
  {
    hide After;
    forall k | since < k <= |ops + [op]| ensures queue in After(ops + [op], k).queues {
      if k <= |ops| {
        AfterGrows(ops, op, k);
      }
    }
  }

  lemma QueueStaysOn(ops: seq<Op>, op: Op, since: nat, queue: string)
    requires since <= |ops|
    ensures QueueStays(ops + [op], since, queue) <==>
      QueueStays(ops, since, queue) && queue in Run(EMPTY, ops + [op]).queues
  {
    AfterAll(ops + [op]);
    hide After, Run, QueueStays;
    if QueueStays(ops + [op], since, queue) {
      QueueStayed(ops, op, since, queue);
    } else if QueueStays(ops, since, queue) && queue in Run(EMPTY, ops + [op]).queues {
      QueueStaysLonger(ops, op, since, queue);
    }
  }

  lemma ConsumerStaysOn(ops: seq<Op>, op: Op, since: nat, queue: string, ty: TypeId, r: Registration)
    requires since < |ops|
    ensures ConsumerStays(ops + [op], since, queue, ty, r) <==>
      ConsumerStays(ops, since, queue, ty, r) && !EndsConsumer(Run(EMPTY, ops), op, queue, ty, r)
  {
    OneMoreOp(ops, op);
    hide Run, EndsConsumer;
    var ops1 := ops + [op];
    assert ops1[|ops|] == op && After(ops1, |ops|) == Run(EMPTY, ops);
    assert forall j :: 0 <= j < |ops| ==> ops1[j] == ops[j];
    hide After;
  }

  lemma ConsumeLivesOn(ops: seq<Op>, op: Op, i: nat, queue: string, ty: TypeId, r: Registration)
    requires i < |ops|
    ensures LiveConsume(ops + [op], i, queue, ty, r) <==>
      && LiveConsume(ops, i, queue, ty, r) && queue in Run(EMPTY, ops + [op]).queues
      && !EndsConsumer(Run(EMPTY, ops), op, queue, ty, r)
  {
    OneMoreOp(ops, op);
    QueueStaysOn(ops, op, i, queue);
    ConsumerStaysOn(ops, op, i, queue, ty, r);
    hide Run, After, EndsConsumer, QueueStays, ConsumerStays, Registers;
    assert (ops + [op])[i] == ops[i];
  }

  lemma ConsumeStarts(ops: seq<Op>, op: Op, queue: string, ty: TypeId, r: Registration)
    ensures LiveConsume(ops + [op], |ops|, queue, ty, r) <==>
      Registers(Run(EMPTY, ops), op, queue, ty, r) && queue in Run(EMPTY, ops + [op]).queues
  {
    OneMoreOp(ops, op);
    QueueStaysOn(ops, op, |ops|, queue);
    assert QueueStays(ops, |ops|, queue);
    hide Run, After, EndsConsumer, QueueStays, Registers;
    assert (ops + [op])[|ops|] == op;
  }

  /** After any run, the consumers of a queue are the registrations in its history that still count. */
  lemma {:induction false} ConsumersReadTheHistory(ops: seq<Op>, queue: string, ty: TypeId, r: Registration)
    ensures Consumes(Run(EMPTY, ops), queue, ty, r) <==> exists i :: LiveConsume(ops, i, queue, ty, r)
    decreases |ops|
  {
    if ops != [] {
      var before, op := ops[..|ops| - 1], ops[|ops| - 1];
      assert ops == before + [op];
      ConsumersReadTheHistory(before, queue, ty, r);
      RunKeepsInv(before);
      OneMoreOp(before, op);
      ConsumesAfter(Run(EMPTY, before), op, queue, ty, r);
      ConsumeStarts(before, op, queue, ty, r);
      hide Run, Handle, Inv, Consumes, FoundDead, HasConsumer;
      forall i | 0 <= i < |before|
        ensures LiveConsume(ops, i, queue, ty, r) <==>
          && LiveConsume(before, i, queue, ty, r) && queue in Run(EMPTY, ops).queues
          && !EndsConsumer(Run(EMPTY, before), op, queue, ty, r)
      {
        ConsumeLivesOn(before, op, i, queue, ty, r);
      }
      hide QueueStays, ConsumerStays, After;
    }
  }

  // ---------- Bindings ----------

  ghost predicate ExchangeStays(ops: seq<Op>, since: nat, exchange: string) {
    forall k :: since < k <= |ops| ==> exchange in After(ops, k).exchanges
  }

  predicate NeverUnbound(ops: seq<Op>, since: nat, queue: string, exchange: string, key: string) {
    forall j :: since < j < |ops| ==> ops[j] != Unbinding(queue, exchange, key)
  }

  /** The i-th operation bound the queue to the exchange by this key, and the binding is there still. */
  ghost predicate LiveBind(ops: seq<Op>, i: nat, queue: string, exchange: string, key: string) {
    && i < |ops| && ops[i].Bind? && ops[i].queue == queue && ops[i].exchange == exchange && ops[i].key == key
    && Handle(After(ops, i), ops[i]).1 == Done
    && QueueStays(ops, i, queue) && ExchangeStays(ops, i, exchange) && NeverUnbound(ops, i, queue, exchange, key)
  }

  lemma ExchangeStayed(ops: seq<Op>, op: Op, since: nat, exchange: string)
    requires since <= |ops| && ExchangeStays(ops + [op], since, exchange)
    ensures ExchangeStays(ops, since, exchange) && exchange in After(ops + [op], |ops| + 1).exchanges
  {
    hide After;
    assert exchange in After(ops + [op], |ops| + 1).exchanges;
    forall k | since < k <= |ops| ensures exchange in After(ops, k).exchanges {
      AfterGrows(ops, op, k);
    }
  }

  lemma ExchangeStaysLonger(ops: seq<Op>, op: Op, since: nat, exchange: string)
    requires since <= |ops| && ExchangeStays(ops, since, exchange) && exchange in After(ops + [op], |ops| + 1).exchanges
    ensures ExchangeStays(ops + [op], since, exchange)
  {
    hide After;
    forall k | since < k <= |ops + [op]| ensures exchange in After(ops + [op], k).exchanges {
      if k <= |ops| {
        AfterGrows(ops, op, k);
      }
    }
  }

  lemma ExchangeStaysOn(ops: seq<Op>, op: Op, since: nat, exchange: string)
    requires since <= |ops|
    ensures ExchangeStays(ops + [op], since, exchange) <==>
      ExchangeStays(ops, since, exchange) && exchange in Run(EMPTY, ops + [op]).exchanges
  {
    AfterAll(ops + [op]);
    hide After, Run, ExchangeStays;
    if ExchangeStays(ops + [op], since, exchange) {
      ExchangeStayed(ops, op, since, exchange);
    } else if ExchangeStays(ops, since, exchange) && exchange in Run(EMPTY, ops + [op]).exchanges {
      ExchangeStaysLonger(ops, op, since, exchange);
    }
  }

  lemma NeverUnboundOn(ops: seq<Op>, op: Op, since: nat, queue: string, exchange: string, key: string)
    requires since < |ops|
    ensures NeverUnbound(ops + [op], since, queue, exchange, key) <==>
      NeverUnbound(ops, since, queue, exchange, key) && op != Unbinding(queue, exchange, key)
  {
    var ops1 := ops + [op];
    assert ops1[|ops|] == op;
    assert forall j :: 0 <= j < |ops| ==> ops1[j] == ops[j];
  }

  lemma BindLivesOn(ops: seq<Op>, op: Op, i: nat, queue: string, exchange: string, key: string)
    requires i < |ops|
    ensures LiveBind(ops + [op], i, queue, exchange, key) <==>
      && LiveBind(ops, i, queue, exchange, key) && op != Unbinding(queue, exchange, key)
      && queue in Run(EMPTY, ops + [op]).queues && exchange in Run(EMPTY, ops + [op]).exchanges
  {
    OneMoreOp(ops, op);
    QueueStaysOn(ops, op, i, queue);
    ExchangeStaysOn(ops, op, i, exchange);
    NeverUnboundOn(ops, op, i, queue, exchange, key);
    hide Run, After, Handle, QueueStays, ExchangeStays, NeverUnbound;
    assert (ops + [op])[i] == ops[i];
  }

  lemma BindStarts(ops: seq<Op>, op: Op, queue: string, exchange: string, key: string)
    ensures LiveBind(ops + [op], |ops|, queue, exchange, key) <==>
      && op.Bind? && op.queue == queue && op.exchange == exchange && op.key == key
      && Handle(Run(EMPTY, ops), op).1 == Done
      && queue in Run(EMPTY, ops + [op]).queues && exchange in Run(EMPTY, ops + [op]).exchanges
  {
    OneMoreOp(ops, op);
    QueueStaysOn(ops, op, |ops|, queue);
    ExchangeStaysOn(ops, op, |ops|, exchange);
    assert QueueStays(ops, |ops|, queue) && ExchangeStays(ops, |ops|, exchange);
    assert NeverUnbound(ops + [op], |ops|, queue, exchange, key);
    hide Run, After, Handle, QueueStays, ExchangeStays, NeverUnbound;
    assert (ops + [op])[|ops|] == op;
  }

  /** The binding carries the header rule of those arguments, on an exchange that matches by headers, or none. */
  predicate RuleOf(t: Tables, exchange: string, b: Binding, arguments: Headers) {
    exchange in t.exchanges && HeaderRule(t.exchanges[exchange].kind, arguments) == Some(b.headerMatch)
  }

  /** The i-th operation is a live bind that made this binding. */
  ghost predicate MadeBy(ops: seq<Op>, i: nat, exchange: string, b: Binding) {
    LiveBind(ops, i, b.queueName, exchange, b.routingKey) && RuleOf(Run(EMPTY, ops), exchange, b, ops[i].arguments)
  }

  lemma MadeByLivesOn(ops: seq<Op>, op: Op, i: nat, exchange: string, b: Binding)
    requires i < |ops| && Inv(Run(EMPTY, ops))
    ensures MadeBy(ops + [op], i, exchange, b) <==>
      && MadeBy(ops, i, exchange, b) && op != Unbinding(b.queueName, exchange, b.routingKey)
      && b.queueName in Run(EMPTY, ops + [op]).queues && exchange in Run(EMPTY, ops + [op]).exchanges
  {
    BindLivesOn(ops, op, i, b.queueName, exchange, b.routingKey);
    OneMoreOp(ops, op);
    KindsStay(Run(EMPTY, ops), op, exchange);
    if LiveBind(ops, i, b.queueName, exchange, b.routingKey) {
      assert exchange in After(ops, |ops|).exchanges;
    }
    hide Run, After, Handle, LiveBind, HeaderRule, Inv;
    assert (ops + [op])[i] == ops[i];
  }

  lemma MadeByStarts(ops: seq<Op>, op: Op, exchange: string, b: Binding)
    requires Inv(Run(EMPTY, ops))
    ensures MadeBy(ops + [op], |ops|, exchange, b) <==> Binds(Run(EMPTY, ops), op, exchange, b)
  {
    var t := Run(EMPTY, ops);
    BindStarts(ops, op, b.queueName, exchange, b.routingKey);
    OneMoreOp(ops, op);
    KindsStay(t, op, exchange);
    if op.Bind? && Handle(t, op).1 == Done {
      RepliesExactly(t, op);
      QueuesAfter(t, op, op.queue);
      ExchangesAfter(t, op, op.exchange);
      assert !RemovesExchange(t, op, op.exchange) by { NothingGoes(t, op, op.exchange); }
    }
    hide Run, After, Handle, LiveBind, HeaderRule, Inv, RemovesExchange;
    assert (ops + [op])[|ops|] == op;
  }

  ghost predicate Made(ops: seq<Op>, exchange: string, b: Binding) {
    exists i :: MadeBy(ops, i, exchange, b)
  }

  lemma MadeOn(ops: seq<Op>, op: Op, exchange: string, b: Binding)
    requires Inv(Run(EMPTY, ops))
    ensures Made(ops + [op], exchange, b) <==>
      || Binds(Run(EMPTY, ops), op, exchange, b)
      || (Made(ops, exchange, b) && op != Unbinding(b.queueName, exchange, b.routingKey)
          && b.queueName in Run(EMPTY, ops + [op]).queues && exchange in Run(EMPTY, ops + [op]).exchanges)
  {
    MadeByStarts(ops, op, exchange, b);
    if i: nat :| MadeBy(ops, i, exchange, b) {
      MadeByLivesOn(ops, op, i, exchange, b);
    }
    if i: nat :| MadeBy(ops + [op], i, exchange, b) {
      assert i < |ops| + 1;
      if i < |ops| {
        MadeByLivesOn(ops, op, i, exchange, b);
      }
    }
    hide Run, Handle, Inv, Binds, LiveBind, RuleOf;
  }

  /** After any run, the bindings of an exchange are the accepted binds in its history that still count. */
  lemma {:induction false} BindingsReadTheHistory(ops: seq<Op>, exchange: string, b: Binding)
    ensures Bound(Run(EMPTY, ops), exchange, b) <==> exists i :: MadeBy(ops, i, exchange, b)
    decreases |ops|
  {
    assert Made(ops, exchange, b) <==> exists i :: MadeBy(ops, i, exchange, b);
    if ops == [] {
      assert forall i :: !MadeBy(ops, i, exchange, b);
    } else {
      var before, op := ops[..|ops| - 1], ops[|ops| - 1];
      assert ops == before + [op];
      BindingsReadTheHistory(before, exchange, b);
      RunKeepsInv(before);
      OneMoreOp(before, op);
      BoundAfter(Run(EMPTY, before), op, exchange, b);
      MadeOn(before, op, exchange, b);
      if Binds(Run(EMPTY, before), op, exchange, b) {
        MadeByStarts(before, op, exchange, b);
        BindStarts(before, op, b.queueName, exchange, b.routingKey);
      }
      hide Run, Handle, Inv, Bound, Binds, MadeBy, LiveBind;
    }
  }

  /** The kind of an exchange is the one it was declared with when it came to be. */
  lemma {:induction false} KindsReadTheHistory(ops: seq<Op>, exchange: string)
    requires exchange in Run(EMPTY, ops).exchanges
    ensures var x := Run(EMPTY, ops).exchanges[exchange];
      exists i :: 0 <= i < |ops| && ops[i] == DeclareExchange(exchange, x.kind, x.autoDelete)
                  && exchange !in After(ops, i).exchanges && ExchangeStays(ops, i, exchange)
    decreases |ops|
  {
    if ops != [] {
      var before, op := ops[..|ops| - 1], ops[|ops| - 1];
      assert ops == before + [op];
      RunKeepsInv(before);
      OneMoreOp(before, op);
      var t, x := Run(EMPTY, before), Run(EMPTY, ops).exchanges[exchange];
      KindsStay(t, op, exchange);
      hide Run, Handle, Inv;
      if exchange in t.exchanges {
        KindsReadTheHistory(before, exchange);
        var i :| 0 <= i < |before| && before[i] == DeclareExchange(exchange, x.kind, x.autoDelete)
                 && exchange !in After(before, i).exchanges && ExchangeStays(before, i, exchange);
        ExchangeStaysOn(before, op, i, exchange);
        assert ops[i] == before[i];
      } else {
        ExchangeStaysOn(before, op, |before|, exchange);
        assert ExchangeStays(before, |before|, exchange);
        assert ops[|before|] == op;
      }
    }
  }

  // ---------- Routing ----------

  /** What the arguments of a bind ask of a message's headers: all of those named, or any. Names in x- do not count. */
  predicate Accepts(arguments: Headers, headers: Headers) {
    if "x-match" in arguments && arguments["x-match"] == "any"
    then exists k :: k in arguments && !("x-" <= k) && k in headers && headers[k] == arguments[k]
    else forall k :: k in arguments && !("x-" <= k) ==> k in headers && headers[k] == arguments[k]
  }

  /** The rule by which an exchange of a kind passes a message to a queue that was bound in this way. */
  predicate Carries(kind: ExchangeType, bind: Op, p: Publication)
    requires bind.Bind?
  {
    match kind
    case Direct => bind.key == p.routingKey
    case Topic => p.glob(bind.key, p.routingKey) == Parsed(true)
    case Fanout => true
    case Headers => p.headers.Some? && Accepts(bind.arguments, p.headers.value)
  }

  lemma RuleAccepts(arguments: Headers, headers: Headers)
    requires HeaderRule(ExchangeType.Headers, arguments).Some?
    ensures var rule := HeaderRule(ExchangeType.Headers, arguments).value;
      rule.Some? && (rule.value.Matches(headers) <==> Accepts(arguments, headers))
  {
  }

  /** A binding passes a message on exactly if the bind that made it does. */
  lemma MatchesAsBound(t: Tables, exchange: string, b: Binding, bind: Op, p: Publication)
    requires exchange in t.exchanges && bind.Bind? && bind.key == b.routingKey
    requires RuleOf(t, exchange, b, bind.arguments)
    ensures BindingMatches(t.exchanges[exchange].kind, b, p) <==> Carries(t.exchanges[exchange].kind, bind, p)
  {
    if t.exchanges[exchange].kind.Headers? && p.headers.Some? {
      RuleAccepts(bind.arguments, p.headers.value);
    }
    hide HeaderRule, Accepts;
  }

  predicate HasRule(t: Tables, exchange: string, arguments: Headers) {
    exchange in t.exchanges && HeaderRule(t.exchanges[exchange].kind, arguments).Some?
  }

  /** A bind that was accepted has a rule, and its exchange is still of the kind it was accepted by. */
  lemma {:induction false} LiveBindHasRule(ops: seq<Op>, i: nat, queue: string, exchange: string, key: string)
    requires LiveBind(ops, i, queue, exchange, key)
    ensures HasRule(Run(EMPTY, ops), exchange, ops[i].arguments)
    decreases |ops|
  {
    var before, op := ops[..|ops| - 1], ops[|ops| - 1];
    assert ops == before + [op];
    RunKeepsInv(before);
    OneMoreOp(before, op);
    KindsStay(Run(EMPTY, before), op, exchange);
    if i == |before| {
      BindStarts(before, op, queue, exchange, key);
      AcceptedHasRule(Run(EMPTY, before), op);
    } else {
      BindLivesOn(before, op, i, queue, exchange, key);
      LiveBindHasRule(before, i, queue, exchange, key);
    }
    hide Run, Handle, Inv, HeaderRule, LiveBind;
  }

  lemma AcceptedHasRule(t: Tables, op: Op)
    requires op.Bind? && Handle(t, op).1 == Done
    ensures HasRule(t, op.exchange, op.arguments)
  {
  }

  /** The i-th operation is a live bind by which this message reaches the queue. */
  ghost predicate CarriedBy(ops: seq<Op>, i: nat, p: Publication, queue: string)
    requires p.exchange in Run(EMPTY, ops).exchanges
  {
    && i < |ops| && ops[i].Bind? && LiveBind(ops, i, queue, p.exchange, ops[i].key)
    && Carries(Run(EMPTY, ops).exchanges[p.exchange].kind, ops[i], p)
  }

  /** After any run, a publish to a named exchange reaches the queues that a bind in the history carries it to. */
  lemma {:induction false} RoutesByHistory(ops: seq<Op>, p: Publication, queue: string)
    requires p.exchange in Run(EMPTY, ops).exchanges && Route(Run(EMPTY, ops), p).Routed?
    ensures queue in Route(Run(EMPTY, ops), p).queues <==> exists i :: CarriedBy(ops, i, p, queue)
  {
    var t := Run(EMPTY, ops);
    RunKeepsInv(ops);
    assert ExchangeInv(t.exchanges[p.exchange], p.exchange, t.queues);
    if queue in Route(t, p).queues {
      RoutedHasBind(ops, p, queue);
    }
    if i: nat :| CarriedBy(ops, i, p, queue) {
      BindRoutes(ops, i, p, queue);
    }
    hide Run, LiveBind, CarriedBy;
  }

  lemma RoutedHasBind(ops: seq<Op>, p: Publication, queue: string)
    requires p.exchange in Run(EMPTY, ops).exchanges
    requires queue in Targets(Run(EMPTY, ops).exchanges[p.exchange], p)
    ensures exists i :: CarriedBy(ops, i, p, queue)
  {
    var t := Run(EMPTY, ops);
    var x := t.exchanges[p.exchange];
    var b :| b in x.bindings && BindingMatches(x.kind, b, p) && b.queueName == queue;
    BindingsReadTheHistory(ops, p.exchange, b);
    assert Bound(t, p.exchange, b);
    hide Run, LiveBind, Carries, BindingMatches;
    var i: nat :| MadeBy(ops, i, p.exchange, b);
    LiveBindIs(ops, i, queue, p.exchange, b.routingKey);
    MatchesAsBound(t, p.exchange, b, ops[i], p);
    assert CarriedBy(ops, i, p, queue);
  }

  lemma BindRoutes(ops: seq<Op>, i: nat, p: Publication, queue: string)
    requires p.exchange in Run(EMPTY, ops).exchanges && CarriedBy(ops, i, p, queue)
    ensures queue in Targets(Run(EMPTY, ops).exchanges[p.exchange], p)
  {
    var t := Run(EMPTY, ops);
    hide Run, LiveBind, Carries, BindingMatches;
    LiveBindHasRule(ops, i, queue, p.exchange, ops[i].key);
    var b := Binding(queue, ops[i].key, HeaderRule(t.exchanges[p.exchange].kind, ops[i].arguments).value);
    assert MadeBy(ops, i, p.exchange, b);
    BindingsReadTheHistory(ops, p.exchange, b);
    MatchesAsBound(t, p.exchange, b, ops[i], p);
  }

  lemma LiveBindIs(ops: seq<Op>, i: nat, queue: string, exchange: string, key: string)
    requires LiveBind(ops, i, queue, exchange, key)
    ensures i < |ops| && ops[i].Bind? && ops[i].key == key
  {
  }

  /** The default exchange sends a message to the queue its key names, if there is one, and to no other. */
  lemma {:induction false} DefaultRoute(ops: seq<Op>, p: Publication)
    requires p.exchange == ""
    ensures var t := Run(EMPTY, ops);
      Route(t, p) == Routed(if p.routingKey in t.queues then {p.routingKey} else {})
  {
    RunKeepsInv(ops);
    hide Run;
    var t := Run(EMPTY, ops);
    assert p.routingKey in t.queues ==> Binding(p.routingKey, p.routingKey, None) in t.defaultExchange.bindings;
    assert Targets(t.defaultExchange, p) == if p.routingKey in t.queues then {p.routingKey} else {};
  }

  // ---------- Deliveries ----------

  /** The message reaches the queue: its key names it on the default exchange, or a live bind carries it there. */
  ghost predicate Reaches(ops: seq<Op>, p: Publication, queue: string) {
    if p.exchange == "" then queue == p.routingKey && queue in Run(EMPTY, ops).queues
    else p.exchange in Run(EMPTY, ops).exchanges && exists i :: CarriedBy(ops, i, p, queue)
  }

  /** The actor has a live registration with the queue, for this type of message and with tags that it accepts. */
  ghost predicate Listens(ops: seq<Op>, p: Publication, queue: string, actor: ActorId) {
    exists i, tags :: LiveConsume(ops, i, queue, p.ty, Registration(actor, tags)) && p.accepts(tags)
  }

  lemma RoutedReaches(ops: seq<Op>, p: Publication, queue: string)
    requires Route(Run(EMPTY, ops), p).Routed?
    ensures queue in Route(Run(EMPTY, ops), p).queues <==> Reaches(ops, p, queue)
  {
    if p.exchange == "" {
      DefaultRoute(ops, p);
    } else {
      RoutesByHistory(ops, p, queue);
    }
    hide Run, CarriedBy;
  }

  lemma ReceiversListen(ops: seq<Op>, p: Publication, dead: set<ActorId>, queue: string, actor: ActorId)
    ensures Receives(Run(EMPTY, ops), p, dead, queue, actor) <==> Listens(ops, p, queue, actor) && actor !in dead
  {
    var t := Run(EMPTY, ops);
    hide Run, LiveConsume;
    if queue in t.queues && actor in Reached(t.queues[queue], p) {
      var r :| r in Consumers(t.queues[queue], p.ty) && p.accepts(r.tags) && r.actorId == actor;
      assert Consumes(t, queue, p.ty, r);
      ConsumersReadTheHistory(ops, queue, p.ty, r);
      var i: nat :| LiveConsume(ops, i, queue, p.ty, r);
      assert LiveConsume(ops, i, queue, p.ty, Registration(actor, r.tags));
    }
    if i: nat, tags :| LiveConsume(ops, i, queue, p.ty, Registration(actor, tags)) && p.accepts(tags) {
      ConsumersReadTheHistory(ops, queue, p.ty, Registration(actor, tags));
    }
  }

  /**
   Whom a publish tells, read from the history alone: after any run, and in whatever order the queues are walked, an
   actor is told once through each queue that the message reaches and in which it listens, unless it is dead, and
   nobody is told anything else.
   */
  lemma {:induction false} PublishTellsExactly(
    ops: seq<Op>, p: Publication, dead: set<ActorId>, order: seq<string>, queue: string, actor: ActorId)
    requires Distinct(order) && Route(Run(EMPTY, ops), p) == Routed(Elements(order))
    ensures multiset(SentAll(Run(EMPTY, ops), order, p, dead))[(queue, actor)] ==
      if Reaches(ops, p, queue) && Listens(ops, p, queue, actor) && actor !in dead then 1 else 0
  {
    RunKeepsInv(ops);
    SentIsExact(Run(EMPTY, ops), order, p, dead, (queue, actor));
    RoutedReaches(ops, p, queue);
    ReceiversListen(ops, p, dead, queue, actor);
    hide Run, SentAll, Receives, Reaches, Listens;
  }
}
