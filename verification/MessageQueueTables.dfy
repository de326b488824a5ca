/**
 The exchange, queue and binding tables of the message queue and what each of its nine
 handlers does to them (actors/src/message_queue.rs).
 */
module MessageQueueTables {
  import opened Common

  type TypeId = nat
  type Tags = map<string, string>
  type Headers = map<string, string>

  datatype ExchangeType = Direct | Topic | Fanout | Headers

  datatype HeaderMatch = All(rules: Headers) | Any(rules: Headers) {
    predicate Matches(headers: Headers) {
      match this
      case All(rules) => forall k :: k in rules ==> k in headers && headers[k] == rules[k]
      case Any(rules) => exists k :: k in rules && k in headers && headers[k] == rules[k]
    }
  }

  datatype Binding = Binding(queueName: string, routingKey: string, headerMatch: Option<HeaderMatch>)

  datatype Exchange = Exchange(name: string, kind: ExchangeType, autoDelete: bool, bindings: seq<Binding>)

  /** The recipient box carries the same actor id, so the id stands for both. */
  datatype Registration = Registration(actorId: ActorId, tags: Tags)

  datatype Queue = Queue(autoDelete: bool, recipients: map<TypeId, seq<Registration>>)

  datatype Tables = Tables(
    exchanges: map<string, Exchange>,
    queues: map<string, Queue>,
    defaultExchange: Exchange)

  datatype AmqpError =
    | ExchangeAlreadyExists | QueueAlreadyExists | ExchangeNotFound | QueueNotFound
    | BindingAlreadyExists | HeadersRequired | InvalidHeaderMatch | ExchangeInUse | QueueInUse

  /** `Aborted` is the panic of a topic exchange that holds a malformed pattern. */
  datatype Reply = Done | Failed(error: AmqpError) | Aborted

  /** What the glob library answers for a pattern and a routing key. */
  datatype GlobAnswer = Malformed | Parsed(matched: bool)
  type Glob = (string, string) -> GlobAnswer

  const EMPTY: Tables := Tables(map[], map[], Exchange("", Direct, false, []))

  // ---------- Removing queues ----------

  function Unbind(bindings: seq<Binding>, gone: set<string>): (kept: seq<Binding>)
    ensures forall b :: b in kept <==> b in bindings && b.queueName !in gone
  {
    if bindings == [] then []
    else
      (if bindings[0].queueName in gone then [] else [bindings[0]]) + Unbind(bindings[1..], gone)
  }

  predicate Swept(x: Exchange, gone: set<string>) {
    x.autoDelete && Unbind(x.bindings, gone) == []
  }

  function Detached(x: Exchange, gone: set<string>): Exchange {
    x.(bindings := Unbind(x.bindings, gone))
  }

  function Unswept(exchanges: map<string, Exchange>, gone: set<string>): map<string, Exchange> {
    map n | n in exchanges && !Swept(exchanges[n], gone) :: Detached(exchanges[n], gone)
  }

  /** Removes a set of queues at once; removing none leaves even unbound exchanges alone. */
  function RemoveQueues(t: Tables, gone: set<string>): Tables {
    if gone == {} then t
    else Tables(Unswept(t.exchanges, gone), t.queues - gone, Detached(t.defaultExchange, gone))
  }

  function QueueDelete(t: Tables, queue: string, ifUnused: bool): (Tables, Reply) {
    if queue !in t.queues then (t, Failed(QueueNotFound))
    else if ifUnused && t.queues[queue].recipients != map[] then (t, Failed(QueueInUse))
    else (RemoveQueues(t, {queue}), Done)
  }

  // ---------- Consumers ----------

  function DropActors(rs: seq<Registration>, actors: set<ActorId>): (kept: seq<Registration>)
    ensures forall r :: r in kept <==> r in rs && r.actorId !in actors
  {
    if rs == [] then []
    else (if rs[0].actorId in actors then [] else [rs[0]]) + DropActors(rs[1..], actors)
  }

  function Consumers(q: Queue, ty: TypeId): seq<Registration> {
    if ty in q.recipients then q.recipients[ty] else []
  }

  function Left(q: Queue, ty: TypeId, actors: set<ActorId>, at: TypeId): seq<Registration>
    requires at in q.recipients
  {
    if at == ty then DropActors(q.recipients[at], actors) else q.recipients[at]
  }

  /** The queue without some consumers of one message type, and without empty consumer lists. */
  function Pruned(q: Queue, ty: TypeId, actors: set<ActorId>): Queue {
    q.(recipients := map at | at in q.recipients && Left(q, ty, actors, at) != [] :: Left(q, ty, actors, at))
  }

  function BasicCancel(t: Tables, queue: string, ty: TypeId, actor: ActorId): (Tables, Reply) {
    if queue !in t.queues then (t, Failed(QueueNotFound))
    else
      var q := Pruned(t.queues[queue], ty, {actor});
      var t1 := t.(queues := t.queues[queue := q]);
      if q.autoDelete then QueueDelete(t1, queue, true) else (t1, Done)
  }

  function BasicConsume(t: Tables, queue: string, ty: TypeId, actor: ActorId, tags: Tags): (Tables, Reply) {
    if queue !in t.queues then (t, Failed(QueueNotFound))
    else
      var q := t.queues[queue];
      var list := Consumers(q, ty);
      var list' := if exists r :: r in list && r.actorId == actor then list else list + [Registration(actor, tags)];
      (t.(queues := t.queues[queue := q.(recipients := q.recipients[ty := list'])]), Done)
  }

  // ---------- Declarations and bindings ----------

  function ExchangeDeclare(t: Tables, exchange: string, kind: ExchangeType, autoDelete: bool): (Tables, Reply) {
    if exchange == "" || exchange in t.exchanges then (t, Failed(ExchangeAlreadyExists))
    else (t.(exchanges := t.exchanges[exchange := Exchange(exchange, kind, autoDelete, [])]), Done)
  }

  function ExchangeDelete(t: Tables, exchange: string, ifUnused: bool): (Tables, Reply) {
    if exchange !in t.exchanges then (t, Failed(ExchangeNotFound))
    else if ifUnused && t.exchanges[exchange].bindings != [] then (t, Failed(ExchangeInUse))
    else (t.(exchanges := t.exchanges - {exchange}), Done)
  }

  function QueueDeclare(t: Tables, queue: string, autoDelete: bool): (Tables, Reply) {
    if queue in t.queues then (t, Failed(QueueAlreadyExists))
    else
      var d := t.defaultExchange;
      (t.(queues := t.queues[queue := Queue(autoDelete, map[])],
          defaultExchange := d.(bindings := d.bindings + [Binding(queue, queue, None)])), Done)
  }

  /** The header rule of a new binding: `x-match` picks the mode, other `x-` arguments are dropped. */
  function HeaderRule(kind: ExchangeType, arguments: Headers): Option<Option<HeaderMatch>> {
    if kind != ExchangeType.Headers then Some(None)
    else
      var mode := if "x-match" in arguments then arguments["x-match"] else "all";
      var rules := map k | k in arguments && !("x-" <= k) :: arguments[k];
      if mode == "all" then Some(Some(All(rules)))
      else if mode == "any" then Some(Some(Any(rules)))
      else None
  }

  function QueueBind(t: Tables, queue: string, exchange: string, key: string, arguments: Headers): (Tables, Reply) {
    if queue !in t.queues then (t, Failed(QueueNotFound))
    else if exchange !in t.exchanges then (t, Failed(ExchangeNotFound))
    else
      var x := t.exchanges[exchange];
      if exists b :: b in x.bindings && b.queueName == queue && b.routingKey == key
      then (t, Failed(BindingAlreadyExists))
      else
        match HeaderRule(x.kind, arguments)
        case None => (t, Failed(InvalidHeaderMatch))
        case Some(rule) =>
          (t.(exchanges := t.exchanges[exchange := x.(bindings := x.bindings + [Binding(queue, key, rule)])]), Done)
  }

  function DropBinding(bindings: seq<Binding>, queue: string, key: string): (kept: seq<Binding>)
    ensures forall b :: b in kept <==> b in bindings && !(b.queueName == queue && b.routingKey == key)
  {
    if bindings == [] then []
    else
      (if bindings[0].queueName == queue && bindings[0].routingKey == key then [] else [bindings[0]])
      + DropBinding(bindings[1..], queue, key)
  }

  function QueueUnbind(t: Tables, queue: string, exchange: string, key: string): (Tables, Reply) {
    if exchange !in t.exchanges then (t, Failed(ExchangeNotFound))
    else
      var x := t.exchanges[exchange];
      var x' := x.(bindings := DropBinding(x.bindings, queue, key));
      if x'.bindings == [] && x'.autoDelete then (t.(exchanges := t.exchanges - {exchange}), Done)
      else (t.(exchanges := t.exchanges[exchange := x']), Done)
  }

  // ---------- Publishing ----------

  /** A published message: its type, where it goes, and which consumers' tags it accepts. */
  datatype Publication = Publication(
    exchange: string, routingKey: string, ty: TypeId, headers: Option<Headers>, accepts: Tags -> bool, glob: Glob)

  predicate BindingMatches(kind: ExchangeType, b: Binding, p: Publication) {
    match kind
    case Direct => b.routingKey == p.routingKey
    case Topic => p.glob(b.routingKey, p.routingKey) == Parsed(true)
    case Fanout => true
    case Headers => b.headerMatch.Some? && p.headers.Some? && b.headerMatch.value.Matches(p.headers.value)
  }

  function Targets(x: Exchange, p: Publication): set<string> {
    set b | b in x.bindings && BindingMatches(x.kind, b, p) :: b.queueName
  }

  datatype Routing = Routed(queues: set<string>) | Refused(reply: Reply)

  predicate Lacks(x: Exchange, p: Publication) {
    x.kind == ExchangeType.Headers && p.headers.None?
  }

  predicate HoldsMalformed(x: Exchange, p: Publication) {
    x.kind.Topic? && exists b :: b in x.bindings && p.glob(b.routingKey, p.routingKey).Malformed?
  }

  function RouteFrom(x: Exchange, p: Publication): Routing {
    if Lacks(x, p) then Refused(Failed(HeadersRequired))
    else if HoldsMalformed(x, p) then Refused(Aborted)
    else Routed(Targets(x, p))
  }

  function Route(t: Tables, p: Publication): Routing {
    if p.exchange == "" then RouteFrom(t.defaultExchange, p)
    else if p.exchange in t.exchanges then RouteFrom(t.exchanges[p.exchange], p)
    else Refused(Failed(ExchangeNotFound))
  }

  /** Consumers of a queue that a message reaches: registered for its type, with tags it accepts. */
  function Reached(q: Queue, p: Publication): set<ActorId> {
    set r | r in Consumers(q, p.ty) && p.accepts(r.tags) :: r.actorId
  }

  /** What one delivery leaves of a queue: its reached dead consumers are cancelled. */
  function Delivered(q: Queue, p: Publication, dead: set<ActorId>): Queue {
    Pruned(q, p.ty, Reached(q, p) * dead)
  }

  predicate Vanishes(q: Queue, p: Publication, dead: set<ActorId>) {
    Reached(q, p) * dead != {} && q.autoDelete && Delivered(q, p, dead).recipients == map[]
  }

  function EachDelivered(queues: map<string, Queue>, p: Publication, dead: set<ActorId>, targets: set<string>)
    : map<string, Queue>
  {
    map q | q in queues :: if q in targets then Delivered(queues[q], p, dead) else queues[q]
  }

  function Vanishing(t: Tables, p: Publication, dead: set<ActorId>, targets: set<string>): set<string> {
    set q | q in targets && q in t.queues && Vanishes(t.queues[q], p, dead)
  }

  /** The tables once a message was delivered to a set of queues; no order of delivery appears here. */
  function AfterDelivery(t: Tables, p: Publication, dead: set<ActorId>, targets: set<string>): Tables {
    RemoveQueues(t.(queues := EachDelivered(t.queues, p, dead, targets)), Vanishing(t, p, dead, targets))
  }

  function BasicPublish(t: Tables, p: Publication, dead: set<ActorId>): (Tables, Reply) {
    match Route(t, p)
    case Refused(reply) => (t, reply)
    case Routed(targets) => (AfterDelivery(t, p, dead, targets), Done)
  }

  // ---------- Runs ----------

  datatype Op =
    | DeclareExchange(exchange: string, kind: ExchangeType, autoDelete: bool)
    | DeleteExchange(exchange: string, ifUnused: bool)
    | DeclareQueue(queue: string, autoDelete: bool)
    | DeleteQueue(queue: string, ifUnused: bool)
    | Bind(queue: string, exchange: string, key: string, arguments: Headers)
    | Unbinding(queue: string, exchange: string, key: string)
    | Publish(publication: Publication, dead: set<ActorId>)
    | Consume(queue: string, ty: TypeId, actor: ActorId, tags: Tags)
    | Cancel(queue: string, ty: TypeId, actor: ActorId)

  function Handle(t: Tables, op: Op): (Tables, Reply) {
    match op
    case DeclareExchange(x, kind, auto) => ExchangeDeclare(t, x, kind, auto)
    case DeleteExchange(x, ifUnused) => ExchangeDelete(t, x, ifUnused)
    case DeclareQueue(q, auto) => QueueDeclare(t, q, auto)
    case DeleteQueue(q, ifUnused) => QueueDelete(t, q, ifUnused)
    case Bind(q, x, key, arguments) => QueueBind(t, q, x, key, arguments)
    case Unbinding(q, x, key) => QueueUnbind(t, q, x, key)
    case Publish(p, dead) => BasicPublish(t, p, dead)
    case Consume(q, ty, actor, tags) => BasicConsume(t, q, ty, actor, tags)
    case Cancel(q, ty, actor) => BasicCancel(t, q, ty, actor)
  }

  function Run(t: Tables, ops: seq<Op>): Tables {
    if ops == [] then t else Handle(Run(t, ops[..|ops| - 1]), ops[|ops| - 1]).0
  }
}
