/** The reply cache behind exactly-once asks (src/remote/exactly_once.rs), against the history of executions. */
module ExactlyOnce {
  import opened Common

  type RequestId = nat
  type Fingerprint = nat

  datatype Entry<R> = Entry(fingerprint: Option<Fingerprint>, reply: R)

  datatype Cache<R> = Cache(capacity: nat, order: seq<RequestId>, cached: map<RequestId, Entry<R>>)

  /** A resolve, checked if it names a fingerprint; `answer` is what the work would reply if it ran. */
  datatype Call<R> = Call(id: RequestId, fingerprint: Option<Fingerprint>, answer: R)

  datatype Outcome<R> = Replied(reply: R) | PayloadMismatch

  // ---------- The cache ----------

  function New<R>(capacity: nat): Cache<R> {
    Cache(if capacity == 0 then 1 else capacity, [], map[])
  }

  function Insert<R>(c: Cache<R>, id: RequestId, entry: Entry<R>): Cache<R> {
    if id in c.cached then c
    else
      var c1 :=
        if |c.cached| >= c.capacity && c.order != []
        then c.(order := c.order[1..], cached := c.cached - {c.order[0]})
        else c;
      c1.(order := c1.order + [id], cached := c1.cached[id := entry])
  }

  function Resolve<R>(c: Cache<R>, call: Call<R>): (Cache<R>, Outcome<R>) {
    if call.id in c.cached then
      var entry := c.cached[call.id];
      (c, if call.fingerprint.None? || entry.fingerprint == call.fingerprint then Replied(entry.reply)
          else PayloadMismatch)
    else
      (Insert(c, call.id, Entry(call.fingerprint, call.answer)), Replied(call.answer))
  }

  function Run<R>(c: Cache<R>, calls: seq<Call<R>>): (r: (Cache<R>, seq<Outcome<R>>))
    ensures |r.1| == |calls|
    decreases |calls|
  {
    if calls == [] then (c, [])
    else
      var n := |calls| - 1;
      var (c1, outcomes) := Run(c, calls[..n]);
      var (c2, outcome) := Resolve(c1, calls[n]);
      (c2, outcomes + [outcome])
  }

  // ---------- The reference: nothing but the executions so far ----------

  function Window<T>(h: seq<T>, size: nat): seq<T> {
    if |h| <= size then h else h[|h| - size..]
  }

  function Latest<R>(h: seq<Call<R>>, id: RequestId): (r: Option<Call<R>>)
    ensures r.None? <==> forall i :: 0 <= i < |h| ==> h[i].id != id
    ensures r.Some? ==>
      exists i :: 0 <= i < |h| && h[i].id == id && h[i] == r.value && forall j :: i < j < |h| ==> h[j].id != id
    decreases |h|
  {
    if h == [] then None
    else if h[|h| - 1].id == id then Some(h[|h| - 1])
    else
      var r := Latest(h[..|h| - 1], id);
      assert r.Some? ==> (exists i :: 0 <= i < |h| - 1 && h[..|h| - 1][i] == h[i] && h[i].id == id && h[i] == r.value
                                      && forall j :: i < j < |h| ==> h[j].id != id);
      r
  }

  /** A call replays the execution among the last `size` ones that has its id, or else is executed. */
  function Replay<R>(h: seq<Call<R>>, size: nat, call: Call<R>): (seq<Call<R>>, Outcome<R>) {
    match Latest(Window(h, size), call.id)
    case None => (h + [call], Replied(call.answer))
    case Some(first) =>
      (h, if call.fingerprint.None? || call.fingerprint == first.fingerprint then Replied(first.answer)
          else PayloadMismatch)
  }

  function RunReplay<R>(size: nat, calls: seq<Call<R>>): (seq<Call<R>>, seq<Outcome<R>>)
    decreases |calls|
  {
    if calls == [] then ([], [])
    else
      var n := |calls| - 1;
      var (h, outcomes) := RunReplay(size, calls[..n]);
      var (h1, outcome) := Replay(h, size, calls[n]);
      (h1, outcomes + [outcome])
  }

  function Ids<R>(h: seq<Call<R>>): (ids: seq<RequestId>)
    ensures |ids| == |h| && forall i :: 0 <= i < |h| ==> ids[i] == h[i].id
  {
    Mapped((call: Call<R>) => call.id, h)
  }

  /** Two executions of one id lie more than `size` executions apart. */
  ghost predicate Spaced<R>(h: seq<Call<R>>, size: nat) {
    forall i, j :: 0 <= i < j < |h| && h[i].id == h[j].id ==> j - i > size
  }

  /** The cache holds exactly the last executions, in the order they happened. */
  ghost predicate Represents<R>(c: Cache<R>, h: seq<Call<R>>) {
    var w := Window(h, c.capacity);
    && c.capacity > 0 && Spaced(h, c.capacity)
    && c.order == Ids(w)
    && c.cached.Keys == Elements(c.order)
    && forall i :: 0 <= i < |w| ==> w[i].id in c.cached && c.cached[w[i].id] == Entry(w[i].fingerprint, w[i].answer)
  }

  lemma WindowIsDistinct<R>(h: seq<Call<R>>, size: nat)
    requires Spaced(h, size)
    ensures Distinct(Ids(Window(h, size)))
  {
    var w := Window(h, size);
    forall i, j | 0 <= i < j < |w| ensures w[i].id != w[j].id {
      assert w[i] == h[|h| - |w| + i] && w[j] == h[|h| - |w| + j];
    }
  }

  lemma KeysCount(order: seq<RequestId>)
    requires Distinct(order)
    ensures |Elements(order)| == |order|
    decreases |order|
  {
    if order != [] {
      var n := |order| - 1;
      KeysCount(order[..n]);
      assert Elements(order) == Elements(order[..n]) + {order[n]};
      assert order[n] !in order[..n];
    }
  }

  lemma HitMeansInWindow<R>(c: Cache<R>, h: seq<Call<R>>, id: RequestId)
    requires Represents(c, h)
    ensures id in c.cached <==> Latest(Window(h, c.capacity), id).Some?
    ensures id in c.cached ==>
      var first := Latest(Window(h, c.capacity), id).value; c.cached[id] == Entry(first.fingerprint, first.answer)
  {
    var w := Window(h, c.capacity);
    if id in c.cached {
      assert id in Ids(w);
    }
    if Latest(w, id).Some? {
      var i :| 0 <= i < |w| && w[i].id == id && w[i] == Latest(w, id).value;
      assert Ids(w)[i] == id && Ids(w)[i] in c.order;
    }
  }

  /** One execution later the window has one new element, and has lost its first one if it was full. */
  lemma WindowSlides<T>(h: seq<T>, size: nat, x: T)
    requires size > 0
    ensures Window(h + [x], size) == (if |h| < size then h else Window(h, size)[1..]) + [x]
  {
  }

  lemma MissSpaces<R>(h: seq<Call<R>>, size: nat, call: Call<R>)
    requires Spaced(h, size) && Latest(Window(h, size), call.id).None?
    ensures Spaced(h + [call], size)
  {
    var w := Window(h, size);
    forall i | |h| - |w| <= i < |h| ensures h[i].id != call.id {
      assert w[i - (|h| - |w|)] == h[i];
    }
  }

  lemma EvictedElements(order: seq<RequestId>)
    requires Distinct(order) && order != []
    ensures Elements(order[1..]) == Elements(order) - {order[0]}
  {
    assert order == [order[0]] + order[1..];
  }

  lemma AppendedElements(order: seq<RequestId>, id: RequestId)
    ensures Elements(order + [id]) == Elements(order) + {id}
  {
  }

  predicate Full<R>(c: Cache<R>) {
    |c.cached| >= c.capacity && c.order != []
  }

  lemma InsertKeys<R>(c: Cache<R>, id: RequestId, entry: Entry<R>)
    requires id !in c.cached && c.cached.Keys == Elements(c.order) && Distinct(c.order)
    ensures Insert(c, id, entry).cached.Keys == Elements(Insert(c, id, entry).order)
  {
    if Full(c) {
      EvictedElements(c.order);
      AppendedElements(c.order[1..], id);
      hide Elements, Distinct;
      assert Insert(c, id, entry).order == c.order[1..] + [id];
    } else {
      AppendedElements(c.order, id);
      hide Elements, Distinct;
      assert Insert(c, id, entry).order == c.order + [id];
    }
  }

  lemma InsertEntries<R>(c: Cache<R>, id: RequestId, entry: Entry<R>)
    requires id !in c.cached
    ensures var c1 := Insert(c, id, entry);
      && c1.capacity == c.capacity
      && c1.order == (if Full(c) then c.order[1..] else c.order) + [id]
      && id in c1.cached && c1.cached[id] == entry
      && forall k :: k in c.cached && (Full(c) ==> k != c.order[0]) ==> k in c1.cached && c1.cached[k] == c.cached[k]
  {
  }

  /** What is kept of the window keeps its entries. */
  lemma KeptEntries<R>(c: Cache<R>, h: seq<Call<R>>, call: Call<R>, k: nat)
    requires Represents(c, h) && call.id !in c.cached && Distinct(c.order) && |c.cached| == |c.order|
    requires k < |Window(h, c.capacity)| && (|h| >= c.capacity ==> k > 0)
    ensures var w := Window(h, c.capacity);
      var c1 := Insert(c, call.id, Entry(call.fingerprint, call.answer));
      w[k].id in c1.cached && c1.cached[w[k].id] == Entry(w[k].fingerprint, w[k].answer)
  {
    InsertEntries(c, call.id, Entry(call.fingerprint, call.answer));
    hide Insert;
    var w := Window(h, c.capacity);
    assert c.order[k] == w[k].id && w[k].id in c.cached;
  }

  lemma InsertSlides<R>(c: Cache<R>, h: seq<Call<R>>, call: Call<R>)
    requires Represents(c, h) && call.id !in c.cached && |c.cached| == |c.order|
    ensures Insert(c, call.id, Entry(call.fingerprint, call.answer)).order == Ids(Window(h + [call], c.capacity))
  {
    WindowSlides(h, c.capacity, call);
    InsertEntries(c, call.id, Entry(call.fingerprint, call.answer));
    hide Insert;
  }

  lemma InsertedEntries<R>(c: Cache<R>, h: seq<Call<R>>, call: Call<R>)
    requires Represents(c, h) && call.id !in c.cached && Distinct(c.order) && |c.cached| == |c.order|
    ensures var c1 := Insert(c, call.id, Entry(call.fingerprint, call.answer));
      var w1 := Window(h + [call], c.capacity);
      forall i :: 0 <= i < |w1| ==>
        w1[i].id in c1.cached && c1.cached[w1[i].id] == Entry(w1[i].fingerprint, w1[i].answer)
  {
    var c1 := Insert(c, call.id, Entry(call.fingerprint, call.answer));
    var w1 := Window(h + [call], c.capacity);
    InsertEntries(c, call.id, Entry(call.fingerprint, call.answer));
    WindowSlides(h, c.capacity, call);
    hide Insert, Distinct;
    forall i | 0 <= i < |w1|
      ensures w1[i].id in c1.cached && c1.cached[w1[i].id] == Entry(w1[i].fingerprint, w1[i].answer)
    {
      if i < |w1| - 1 {
        KeptEntries(c, h, call, if |h| < c.capacity then i else i + 1);
      }
    }
  }

  lemma InsertRepresents<R>(c: Cache<R>, h: seq<Call<R>>, call: Call<R>)
    requires Represents(c, h) && call.id !in c.cached
    ensures Represents(Insert(c, call.id, Entry(call.fingerprint, call.answer)), h + [call])
  {
    HitMeansInWindow(c, h, call.id);
    MissSpaces(h, c.capacity, call);
    WindowIsDistinct(h, c.capacity);
    KeysCount(c.order);
    InsertSlides(c, h, call);
    InsertKeys(c, call.id, Entry(call.fingerprint, call.answer));
    InsertEntries(c, call.id, Entry(call.fingerprint, call.answer));
    InsertedEntries(c, h, call);
    hide Insert, Latest, Window, Ids, Distinct;
  }

  /** An insert never replaces a reply: what was cached before and still is has the reply it had. */
  lemma NothingIsReplaced<R>(c: Cache<R>, id: RequestId, entry: Entry<R>, known: RequestId)
    requires known in c.cached && known in Insert(c, id, entry).cached
    ensures Insert(c, id, entry).cached[known] == c.cached[known]
    ensures id in c.cached ==> Insert(c, id, entry) == c
  {
  }

  lemma ResolveReplays<R>(c: Cache<R>, h: seq<Call<R>>, call: Call<R>)
    requires Represents(c, h)
    ensures Resolve(c, call).1 == Replay(h, c.capacity, call).1
    ensures Represents(Resolve(c, call).0, Replay(h, c.capacity, call).0)
    ensures Resolve(c, call).0.capacity == c.capacity
  {
    HitMeansInWindow(c, h, call.id);
    if call.id !in c.cached {
      InsertRepresents(c, h, call);
    }
  }

  // ---------- Main results ----------

  /**
   For every run of resolves the cache answers as if it remembered the whole history but looked back only
   `capacity` executions; its keys are exactly the ids of those executions, in order and distinct.
   */
  lemma {:induction false} CacheIsTheLastExecutions<R>(capacity: nat, calls: seq<Call<R>>)
    ensures var size := New<R>(capacity).capacity;
      var (c, outcomes) := Run(New(capacity), calls);
      && size == (if capacity == 0 then 1 else capacity)
      && outcomes == RunReplay(size, calls).1
      && c.capacity == size
      && Represents(c, RunReplay(size, calls).0)
      && Distinct(c.order)
      && |c.cached| == |c.order| <= size
    decreases |calls|
  {
    var size := New<R>(capacity).capacity;
    var n := |calls| - 1;
    if calls != [] {
      CacheIsTheLastExecutions(capacity, calls[..n]);
      ResolveReplays(Run(New(capacity), calls[..n]).0, RunReplay(size, calls[..n]).0, calls[n]);
    }
    WindowIsDistinct(RunReplay(size, calls).0, size);
    KeysCount(Run(New(capacity), calls).0.order);
  }

  /** Between two executions of one id lie executions of at least `capacity` other, distinct ids. */
  lemma {:induction false} ReexecutionIsFarApart<R>(capacity: nat, calls: seq<Call<R>>, i: nat, j: nat)
    requires i < j < |RunReplay(New<R>(capacity).capacity, calls).0|
    requires var h := RunReplay(New<R>(capacity).capacity, calls).0; h[i].id == h[j].id
    ensures var size := New<R>(capacity).capacity;
      var h := RunReplay(size, calls).0;
      && i < j - size
      && Distinct(Ids(h[j - size..j]))
      && h[i].id !in Ids(h[j - size..j])
  {
    ExecutionsAreSpaced(capacity, calls);
    hide Run, RunReplay;
    SpacedBetween(RunReplay(New<R>(capacity).capacity, calls).0, New<R>(capacity).capacity, i, j);
  }

  lemma ExecutionsAreSpaced<R>(capacity: nat, calls: seq<Call<R>>)
    ensures Spaced(RunReplay(New<R>(capacity).capacity, calls).0, New<R>(capacity).capacity)
  {
    CacheIsTheLastExecutions(capacity, calls);
    hide Run, RunReplay;
  }

  lemma SpacedBetween<R>(h: seq<Call<R>>, size: nat, i: nat, j: nat)
    requires Spaced(h, size) && i < j < |h| && h[i].id == h[j].id
    ensures i < j - size && Distinct(Ids(h[j - size..j])) && h[i].id !in Ids(h[j - size..j])
  {
    var between := h[j - size..j];
    assert forall k :: 0 <= k < size ==> between[k] == h[j - size + k];
  }

  /** In a spaced history the window holds an id's execution at most once. */
  lemma LatestInWindow<R>(h: seq<Call<R>>, size: nat, i: nat)
    requires Spaced(h, size) && i < |h| && |h| - i <= size
    ensures Latest(Window(h, size), h[i].id) == Some(h[i])
  {
    var w := Window(h, size);
    assert w[i - (|h| - |w|)] == h[i];
    var k :| 0 <= k < |w| && w[k].id == h[i].id && w[k] == Latest(w, h[i].id).value;
    assert w[k] == h[|h| - |w| + k];
  }

  lemma RunOneMore<R>(c: Cache<R>, size: nat, calls: seq<Call<R>>, n: nat)
    requires n < |calls|
    ensures Run(c, calls[..n + 1]).0 == Resolve(Run(c, calls[..n]).0, calls[n]).0
    ensures Run(c, calls[..n + 1]).1[n] == Resolve(Run(c, calls[..n]).0, calls[n]).1
    ensures RunReplay(size, calls[..n + 1]).0 == Replay(RunReplay(size, calls[..n]).0, size, calls[n]).0
  {
    assert calls[..n + 1][..n] == calls[..n];
  }

  /**
   What the n-th call of a run does. An execution still in the window decides: its first reply is returned, or,
   if the call is checked and the payloads differ or were never compared, an error. Neither runs the work nor
   changes the cache.
   */
  lemma {:induction false} FirstReplyWins<R>(capacity: nat, calls: seq<Call<R>>, n: nat, i: nat)
    requires n < |calls|
    ensures var size := New<R>(capacity).capacity;
      var h := RunReplay(size, calls[..n]).0;
      i < |h| && |h| - i <= size && h[i].id == calls[n].id ==>
        && Run(New(capacity), calls[..n + 1]).0 == Run(New(capacity), calls[..n]).0
        && RunReplay(size, calls[..n + 1]).0 == h
        && Run(New(capacity), calls[..n + 1]).1[n] ==
           if calls[n].fingerprint.None? || calls[n].fingerprint == h[i].fingerprint
           then Replied(h[i].answer) else PayloadMismatch
  {
    var size := New<R>(capacity).capacity;
    var h := RunReplay(size, calls[..n]).0;
    var c := Run(New(capacity), calls[..n]).0;
    CacheIsTheLastExecutions(capacity, calls[..n]);
    ResolveReplays(c, h, calls[n]);
    HitMeansInWindow(c, h, calls[n].id);
    RunOneMore(New(capacity), size, calls, n);
    if i < |h| && |h| - i <= size {
      LatestInWindow(h, size, i);
    }
    hide Run, RunReplay, Represents;
  }

  // ---------- The object ----------

  class ExactlyOnceDedup<R> {
    const capacity: nat
    var order: seq<RequestId>
    var cached: map<RequestId, Entry<R>>
    /** The calls whose work ran. */
    ghost var executed: seq<Call<R>>

    ghost function State(): Cache<R>
      reads this
    {
      Cache(capacity, order, cached)
    }

    ghost predicate Valid()
      reads this
    {
      Represents(State(), executed)
    }

    constructor (capacity: nat)
      ensures State() == New(capacity) && executed == []
      ensures Valid()
    {
      this.capacity := if capacity == 0 then 1 else capacity;
      order, cached := [], map[];
      executed := [];
    }

    method InsertReply(id: RequestId, fingerprint: Option<Fingerprint>, value: R)
      modifies this`order, this`cached
      ensures State() == Insert(old(State()), id, Entry(fingerprint, value))
    {
      if id in cached {
        return;
      }
      if |cached| >= capacity && order != [] {
        var evicted := order[0];
        order := order[1..];
        cached := cached - {evicted};
      }
      order := order + [id];
      cached := cached[id := Entry(fingerprint, value)];
    }

    method ResolveUnchecked(id: RequestId, f: () -> R) returns (reply: R)
      requires Valid()
      modifies this
      ensures Valid()
      ensures (State(), Replied(reply)) == Resolve(old(State()), Call(id, None, f()))
      ensures executed == Replay(old(executed), capacity, Call(id, None, f())).0
    {
      ghost var call := Call(id, None, f());
      ResolveReplays(State(), executed, call);
      HitMeansInWindow(State(), executed, id);
      if id in cached {
        return cached[id].reply;
      }
      var value := f();
      InsertReply(id, None, value);
      executed := executed + [call];
      reply := cached[id].reply;
    }

    method ResolveChecked(id: RequestId, fingerprint: Fingerprint, f: () -> R) returns (outcome: Outcome<R>)
      requires Valid()
      modifies this
      ensures Valid()
      ensures (State(), outcome) == Resolve(old(State()), Call(id, Some(fingerprint), f()))
      ensures executed == Replay(old(executed), capacity, Call(id, Some(fingerprint), f())).0
    {
      ghost var call := Call(id, Some(fingerprint), f());
      ResolveReplays(State(), executed, call);
      HitMeansInWindow(State(), executed, id);
      if id in cached {
        var existing := cached[id];
        return if existing.fingerprint == Some(fingerprint) then Replied(existing.reply) else PayloadMismatch;
      }
      var value := f();
      InsertReply(id, Some(fingerprint), value);
      executed := executed + [call];
      outcome := Replied(cached[id].reply);
    }
  }
}
