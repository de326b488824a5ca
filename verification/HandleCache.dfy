/** The liveness tokens of cached connections (src/remote/handle_cache.rs), against the history of events. */
module HandleCache {
  import opened Common

  type Address = nat
  type PeerId = nat

  datatype CacheKey = Addr(addr: Address) | Peer(peer: PeerId)

  /** What happens to the cache. A token is named by the position of its registration in the history. */
  datatype Op =
    | Register(addr: Address, peer: Option<PeerId>)
    | Invalidate(addr: Address, peer: Option<PeerId>)
    | Drop(token: nat)                                 // the last reference to a token goes away
  {
    function Keys(): set<CacheKey> {
      match this
      case Drop(_) => {}
      case _ => if peer.Some? then {Addr(addr), Peer(peer.value)} else {Addr(addr)}
    }
  }

  /** The index holds weak references: `held` says which tokens can still be upgraded. */
  datatype Cache = Cache(entries: map<CacheKey, seq<nat>>, flags: map<nat, bool>, held: set<nat>)

  const EMPTY: Cache := Cache(map[], map[], {})

  function Live(tokens: seq<nat>, held: set<nat>): seq<nat>
    decreases |tokens|
  {
    if tokens == [] then []
    else
      var n := |tokens| - 1;
      if tokens[n] in held then Live(tokens[..n], held) + [tokens[n]] else Live(tokens[..n], held)
  }

  function Cleared(flags: map<nat, bool>, tokens: seq<nat>): map<nat, bool>
    decreases |tokens|
  {
    if tokens == [] then flags else Cleared(flags, tokens[..|tokens| - 1])[tokens[|tokens| - 1] := false]
  }

  function Entry(c: Cache, key: CacheKey): seq<nat> {
    if key in c.entries then c.entries[key] else []
  }

  function RegisterKey(c: Cache, key: CacheKey, token: nat): Cache {
    c.(entries := c.entries[key := Live(Entry(c, key), c.held) + [token]])
  }

  function InvalidateKey(c: Cache, key: CacheKey): Cache {
    if key !in c.entries then c
    else
      var live := Live(c.entries[key], c.held);
      c.(entries := if live == [] then c.entries - {key} else c.entries[key := live], flags := Cleared(c.flags, live))
  }

  /** The effect of an event at a position of the history. */
  function Step(c: Cache, op: Op, at: nat): Cache {
    match op
    case Register(addr, peer) =>
      var c1 := RegisterKey(c.(flags := c.flags[at := true], held := c.held + {at}), Addr(addr), at);
      if peer.Some? then RegisterKey(c1, Peer(peer.value), at) else c1
    case Invalidate(addr, peer) =>
      var c1 := InvalidateKey(c, Addr(addr));
      if peer.Some? then InvalidateKey(c1, Peer(peer.value)) else c1
    case Drop(token) => c.(held := c.held - {token})
  }

  function Run(history: seq<Op>): Cache
    decreases |history|
  {
    if history == [] then EMPTY
    else var n := |history| - 1; Step(Run(history[..n]), history[n], n)
  }

  // ---------- What the history says ----------

  predicate Registered(h: seq<Op>, t: nat) {
    t < |h| && h[t].Register?
  }

  predicate StillHeld(h: seq<Op>, t: nat) {
    Registered(h, t) && forall j :: t < j < |h| ==> h[j] != Drop(t)
  }

  /** No invalidation since has named the token's address or its peer. */
  predicate StillAlive(h: seq<Op>, t: nat)
    requires Registered(h, t)
  {
    forall j :: t < j < |h| && h[j].Invalidate? ==> h[j].Keys() !! h[t].Keys()
  }

  /** Every held token is found under each of its keys, and reads what the history says. */
  ghost predicate HeldOk(c: Cache, h: seq<Op>) {
    && (forall t :: t in c.held <==> StillHeld(h, t))
    && (forall t :: t in c.held ==> t in c.flags && c.flags[t] == StillAlive(h, t))
    && (forall t, key :: t in c.held && key in h[t].Keys() ==> key in c.entries && t in c.entries[key])
  }

  /** An index entry is never empty and names each token at most once, and only under the token's own keys. */
  ghost predicate EntryOk(c: Cache, h: seq<Op>, key: CacheKey)
    requires key in c.entries
  {
    && c.entries[key] != [] && Distinct(c.entries[key])
    && forall t :: t in c.entries[key] ==> Registered(h, t) && key in h[t].Keys()
  }

  ghost predicate Represents(c: Cache, h: seq<Op>) {
    HeldOk(c, h) && forall key :: key in c.entries ==> EntryOk(c, h, key)
  }

  // ---------- Proofs ----------

  lemma {:induction false} LiveKeepsHeld(tokens: seq<nat>, held: set<nat>)
    ensures forall t :: t in Live(tokens, held) <==> t in tokens && t in held
    ensures Distinct(tokens) ==> Distinct(Live(tokens, held))
    decreases |tokens|
  {
    if tokens != [] {
      var n := |tokens| - 1;
      LiveKeepsHeld(tokens[..n], held);
      assert tokens == tokens[..n] + [tokens[n]];
    }
  }

  lemma {:induction false} ClearedReads(flags: map<nat, bool>, tokens: seq<nat>)
    ensures forall t :: t in Cleared(flags, tokens) <==> t in flags || t in tokens
    ensures forall t :: t in Cleared(flags, tokens) ==> Cleared(flags, tokens)[t] == (t !in tokens && flags[t])
    decreases |tokens|
  {
    if tokens != [] {
      var n := |tokens| - 1;
      ClearedReads(flags, tokens[..n]);
      assert tokens == tokens[..n] + [tokens[n]];
    }
  }

  lemma RegisterKeyEffect(c: Cache, key: CacheKey, token: nat, h: seq<Op>)
    requires Registered(h, token) && key in h[token].Keys()
    requires forall k :: k in c.entries ==> EntryOk(c, h, k)
    requires token !in Entry(c, key)
    ensures var c1 := RegisterKey(c, key, token);
      && (forall k :: k in c1.entries ==> EntryOk(c1, h, k))
      && c1.held == c.held && c1.flags == c.flags
      && key in c1.entries && token in c1.entries[key]
      && (forall k, t :: k in c.entries && t in c.entries[k] && t in c.held ==> k in c1.entries && t in c1.entries[k])
      && (forall k :: k != key ==> Entry(c1, k) == Entry(c, k))
  {
    LiveKeepsHeld(Entry(c, key), c.held);
    var c1 := RegisterKey(c, key, token);
    forall k | k in c1.entries ensures EntryOk(c1, h, k) {
      if k != key {
        assert EntryOk(c, h, k);
      }
    }
  }

  lemma InvalidateKeyEffect(c: Cache, key: CacheKey, h: seq<Op>)
    requires forall k :: k in c.entries ==> EntryOk(c, h, k)
    ensures var c1 := InvalidateKey(c, key);
      && (forall k :: k in c1.entries ==> EntryOk(c1, h, k))
      && c1.held == c.held
      && (forall k, t :: k in c.entries && t in c.entries[k] && t in c.held ==> k in c1.entries && t in c1.entries[k])
      && (forall t :: t in c.held && t in c.flags ==>
            t in c1.flags && c1.flags[t] == (c.flags[t] && !(key in c.entries && t in c.entries[key])))
  {
    if key in c.entries {
      var live := Live(c.entries[key], c.held);
      LiveKeepsHeld(c.entries[key], c.held);
      ClearedReads(c.flags, live);
      var c1 := InvalidateKey(c, key);
      assert EntryOk(c, h, key);
      forall k | k in c1.entries ensures EntryOk(c1, h, k) {
        assert EntryOk(c, h, k);
      }
    }
  }

  /** Histories that only grew: what was known of tokens stays, apart from the new event. */
  lemma HistoryGrows(h: seq<Op>, op: Op, t: nat)
    ensures t < |h| ==> (Registered(h + [op], t) <==> Registered(h, t)) && (h + [op])[t] == h[t]
    ensures t < |h| ==> (StillHeld(h + [op], t) <==> StillHeld(h, t) && op != Drop(t))
    ensures Registered(h, t) ==>
      (StillAlive(h + [op], t) <==> StillAlive(h, t) && (op.Invalidate? ==> op.Keys() !! h[t].Keys()))
    ensures t == |h| && op.Register? ==> StillHeld(h + [op], t) && StillAlive(h + [op], t)
  {
    var h1 := h + [op];
    assert h1[|h|] == op;
    assert forall j :: 0 <= j < |h| ==> h1[j] == h[j];
  }

  lemma EntriesStay(c: Cache, h: seq<Op>, op: Op)
    requires forall k :: k in c.entries ==> EntryOk(c, h, k)
    ensures forall k :: k in c.entries ==> EntryOk(c, h + [op], k)
  {
    forall k | k in c.entries ensures EntryOk(c, h + [op], k) {
      assert EntryOk(c, h, k);
    }
  }

  /** Every held token is found under its keys. */
  ghost predicate Found(c: Cache, h: seq<Op>) {
    forall t, key :: t in c.held && t < |h| && key in h[t].Keys() ==> key in c.entries && t in c.entries[key]
  }

  /** What an event does to a token that is held before and after it. */
  predicate ReadsAfter(c: Cache, h: seq<Op>, op: Op, t: nat, alive: bool) {
    if t < |h| then t in c.flags && (alive == (c.flags[t] && !(op.Invalidate? && !(op.Keys() !! h[t].Keys()))))
    else alive
  }

  lemma HeldStep(c: Cache, c2: Cache, h: seq<Op>, op: Op)
    requires HeldOk(c, h) && Found(c2, h + [op])
    requires forall t :: t in c2.held <==> (t in c.held && op != Drop(t)) || (t == |h| && op.Register?)
    requires forall t :: t in c2.held ==> t in c2.flags && ReadsAfter(c, h, op, t, c2.flags[t])
    ensures HeldOk(c2, h + [op])
  {
    var h1 := h + [op];
    forall t ensures t in c2.held <==> StillHeld(h1, t) {
      HistoryGrows(h, op, t);
    }
    forall t | t in c2.held ensures t in c2.flags && c2.flags[t] == StillAlive(h1, t) {
      HistoryGrows(h, op, t);
    }
  }

  lemma RegisterRepresents(c: Cache, h: seq<Op>, op: Op)
    requires Represents(c, h) && op.Register?
    ensures Represents(Step(c, op, |h|), h + [op])
  {
    var at, h1 := |h|, h + [op];
    EntriesStay(c, h, op);
    var c0 := c.(flags := c.flags[at := true], held := c.held + {at});
    assert forall k :: k in c.entries ==> EntryOk(c, h, k) && at !in c.entries[k];
    assert forall k :: k in c0.entries ==> EntryOk(c, h1, k) && EntryOk(c0, h1, k);
    RegisterKeyEffect(c0, Addr(op.addr), at, h1);
    var c1 := RegisterKey(c0, Addr(op.addr), at);
    if op.peer.Some? {
      assert Entry(c1, Peer(op.peer.value)) == Entry(c, Peer(op.peer.value));
      RegisterKeyEffect(c1, Peer(op.peer.value), at, h1);
    }
    hide RegisterKey, StillAlive, StillHeld;
    HeldStep(c, Step(c, op, at), h, op);
  }

  /** Invalidating a key clears exactly the held tokens registered under it. */
  lemma InvalidateKeyClears(c: Cache, h: seq<Op>, key: CacheKey)
    requires forall k :: k in c.entries ==> EntryOk(c, h, k)
    requires Found(c, h) && forall t :: t in c.held ==> Registered(h, t) && t in c.flags
    ensures var c1 := InvalidateKey(c, key);
      && (forall k :: k in c1.entries ==> EntryOk(c1, h, k))
      && c1.held == c.held && Found(c1, h)
      && (forall t :: t in c.held ==>
            Registered(h, t) && t in c1.flags && c1.flags[t] == (c.flags[t] && key !in h[t].Keys()))
  {
    InvalidateKeyEffect(c, key, h);
    hide InvalidateKey;
    forall t | t in c.held ensures key in h[t].Keys() <==> key in c.entries && t in c.entries[key] {
      if key in c.entries {
        assert EntryOk(c, h, key);
      }
    }
  }

  lemma InvalidateBoth(c: Cache, h: seq<Op>, op: Op)
    requires Represents(c, h) && op.Invalidate?
    ensures var c2 := Step(c, op, |h|);
      && (forall k :: k in c2.entries ==> EntryOk(c2, h, k))
      && c2.held == c.held && Found(c2, h)
      && (forall t :: t in c.held ==>
            t < |h| && t in c2.flags && c2.flags[t] == (c.flags[t] && op.Keys() !! h[t].Keys()))
  {
    InvalidateKeyClears(c, h, Addr(op.addr));
    if op.peer.Some? {
      InvalidateKeyClears(InvalidateKey(c, Addr(op.addr)), h, Peer(op.peer.value));
    }
    hide InvalidateKey, StillAlive, StillHeld;
  }

  lemma InvalidateRepresents(c: Cache, h: seq<Op>, op: Op)
    requires Represents(c, h) && op.Invalidate?
    ensures Represents(Step(c, op, |h|), h + [op])
  {
    InvalidateBoth(c, h, op);
    hide Step, StillAlive, StillHeld;
    EntriesStay(Step(c, op, |h|), h, op);
    HeldStep(c, Step(c, op, |h|), h, op);
  }

  lemma DropRepresents(c: Cache, h: seq<Op>, op: Op)
    requires Represents(c, h) && op.Drop?
    ensures Represents(Step(c, op, |h|), h + [op])
  {
    var c2, h1 := Step(c, op, |h|), h + [op];
    EntriesStay(c, h, op);
    assert forall k :: k in c2.entries ==> EntryOk(c, h1, k) && EntryOk(c2, h1, k);
    hide StillAlive, StillHeld;
    HeldStep(c, c2, h, op);
  }

  lemma StepRepresents(c: Cache, h: seq<Op>, op: Op)
    requires Represents(c, h)
    ensures Represents(Step(c, op, |h|), h + [op])
  {
    hide Represents, Step;
    match op
    case Register(_, _) => RegisterRepresents(c, h, op);
    case Invalidate(_, _) => InvalidateRepresents(c, h, op);
    case Drop(_) => DropRepresents(c, h, op);
  }

  lemma {:induction false} RunRepresents(h: seq<Op>)
    ensures Represents(Run(h), h)
    decreases |h|
  {
    if h != [] {
      var n := |h| - 1;
      RunRepresents(h[..n]);
      StepRepresents(Run(h[..n]), h[..n], h[n]);
      assert h == h[..n] + [h[n]];
    }
  }

  /**
   After any run, a token that is still held reads true exactly if no invalidation since its registration named
   its address or its peer; and the index still finds it under both, whatever was pruned.
   */
  lemma {:induction false} TokensReadTheHistory(h: seq<Op>, t: nat)
    ensures t in Run(h).held <==> StillHeld(h, t)
    ensures StillHeld(h, t) ==>
      && t in Run(h).flags
      && (Run(h).flags[t] <==> StillAlive(h, t))
      && forall key :: key in h[t].Keys() ==> key in Run(h).entries && t in Run(h).entries[key]
  {
    RunRepresents(h);
  }

  /** Touching a key drops the tokens under it that nobody holds, and adds at most the new one. */
  lemma TouchingPrunes(c: Cache, key: CacheKey, token: nat, other: CacheKey)
    ensures forall t :: t in Entry(RegisterKey(c, key, token), other) ==>
      t in Entry(c, other) || (other == key && t == token)
    ensures forall t :: t in Entry(RegisterKey(c, key, token), key) ==> t in c.held || t == token
    ensures forall t :: t in Entry(InvalidateKey(c, key), other) ==> t in Entry(c, other)
    ensures forall t :: t in Entry(InvalidateKey(c, key), key) ==> t in c.held
    ensures RegisterKey(c, key, token).held == c.held == InvalidateKey(c, key).held
  {
    LiveKeepsHeld(Entry(c, key), c.held);
  }

  lemma TouchedAreHeld(c: Cache, op: Op, at: nat, key: CacheKey, t: nat)
    requires key in op.Keys() && t in Entry(Step(c, op, at), key)
    ensures t in Step(c, op, at).held
  {
    var c0 := if op.Register? then c.(flags := c.flags[at := true], held := c.held + {at}) else c;
    TouchingPrunes(c0, Addr(op.addr), at, key);
    if op.peer.Some? {
      var c1 := if op.Register? then RegisterKey(c0, Addr(op.addr), at) else InvalidateKey(c0, Addr(op.addr));
      TouchingPrunes(c1, Peer(op.peer.value), at, key);
    }
    hide RegisterKey, InvalidateKey, Entry;
  }

  /**
   The index does not pile up dead tokens: right after a registration or an invalidation names a key, the tokens
   found under it are exactly those still held that were registered under it.
   */
  lemma {:induction false} TouchedKeysAreExact(h: seq<Op>, op: Op, key: CacheKey, t: nat)
    requires key in op.Keys()
    ensures t in Entry(Run(h + [op]), key) <==> StillHeld(h + [op], t) && key in (h + [op])[t].Keys()
  {
    var h1 := h + [op];
    assert h1[..|h|] == h && h1[|h|] == op;
    RunRepresents(h1);
    if t in Entry(Run(h1), key) {
      TouchedAreHeld(Run(h), op, |h|, key, t);
      assert EntryOk(Run(h1), h1, key);
    }
    hide Step, StillHeld;
  }

  // ---------- The object ----------

  class ConnectionCache {
    var entries: map<CacheKey, seq<nat>>
    var flags: map<nat, bool>
    var held: set<nat>
    var events: nat
    ghost var history: seq<Op>

    ghost function State(): Cache
      reads this
    {
      Cache(entries, flags, held)
    }

    ghost predicate Valid()
      reads this
    {
      events == |history| && Represents(State(), history)
    }

    constructor ()
      ensures Valid() && history == [] && State() == EMPTY
    {
      entries, flags, held := map[], map[], {};
      events, history := 0, [];
    }

    method AddUnder(key: CacheKey, token: nat)
      modifies this`entries
      ensures State() == RegisterKey(old(State()), key, token)
    {
      var entry := if key in entries then entries[key] else [];
      var kept := [];
      for i := 0 to |entry|
        invariant kept == Live(entry[..i], held)
      {
        assert entry[..i + 1][..i] == entry[..i];
        if entry[i] in held {
          kept := kept + [entry[i]];
        }
      }
      assert entry[..|entry|] == entry;
      entries := entries[key := kept + [token]];
    }

    method ClearUnder(key: CacheKey)
      modifies this`entries, this`flags
      ensures State() == InvalidateKey(old(State()), key)
    {
      if key !in entries {
        return;
      }
      var entry := entries[key];
      var kept := [];
      for i := 0 to |entry|
        invariant kept == Live(entry[..i], held)
        invariant flags == Cleared(old(flags), kept) && entries == old(entries)
      {
        assert entry[..i + 1][..i] == entry[..i];
        if entry[i] in held {
          flags := flags[entry[i] := false];
          assert (kept + [entry[i]])[..|kept|] == kept;
          kept := kept + [entry[i]];
        }
      }
      assert entry[..|entry|] == entry;
      entries := if kept == [] then entries - {key} else entries[key := kept];
    }

    method Register(addr: Address, peer: Option<PeerId>) returns (token: nat)
      requires Valid()
      modifies this
      ensures Valid() && token == |old(history)|
      ensures history == old(history) + [Op.Register(addr, peer)]
      ensures State() == Step(old(State()), Op.Register(addr, peer), token)
    {
      StepRepresents(State(), history, Op.Register(addr, peer));
      token := events;
      flags := flags[token := true];
      held := held + {token};
      AddUnder(Addr(addr), token);
      if peer.Some? {
        AddUnder(Peer(peer.value), token);
      }
      events, history := events + 1, history + [Op.Register(addr, peer)];
    }

    method Invalidate(addr: Address, peer: Option<PeerId>)
      requires Valid()
      modifies this
      ensures Valid()
      ensures history == old(history) + [Op.Invalidate(addr, peer)]
      ensures State() == Step(old(State()), Op.Invalidate(addr, peer), |old(history)|)
    {
      StepRepresents(State(), history, Op.Invalidate(addr, peer));
      ClearUnder(Addr(addr));
      if peer.Some? {
        ClearUnder(Peer(peer.value));
      }
      events, history := events + 1, history + [Op.Invalidate(addr, peer)];
    }

    /** The holder of a token lets go of its last reference; the index is not told. */
    method LetGo(token: nat)
      requires Valid()
      modifies this`held, this`events, this`history
      ensures Valid()
      ensures history == old(history) + [Op.Drop(token)]
      ensures State() == Step(old(State()), Op.Drop(token), |old(history)|)
    {
      StepRepresents(State(), history, Op.Drop(token));
      held := held - {token};
      events, history := events + 1, history + [Op.Drop(token)];
    }
  }
}
