/**
 Links from local actors to actors of remote peers (src/remote/remote_link.rs), against the signals dispatched
 for them. The mailbox of a local actor is named by the actor's id.
 */
module RemoteLinks {
  import opened Common

  type Address = nat
  newtype byte = x: int | 0 <= x < 256
  datatype PeerId = PeerId(key: seq<byte>)

  /** By peer address, remote actor: the linked local actors. */
  type Links = map<Address, map<ActorId, set<ActorId>>>

  /** What became of one link: the two signals a local actor is sent, and silent removals. */
  datatype Event =
    | Established(addr: Address, remote: ActorId, local: ActorId)
    | Died(addr: Address, remote: ActorId, local: ActorId)
    | Unlinked(addr: Address, remote: ActorId, local: ActorId)

  datatype Registry = Registry(links: Links, addrOf: map<PeerId, Address>, log: multiset<Event>)

  const EMPTY: Registry := Registry(map[], map[], multiset{})

  /** One critical section of the registry, together with the signals it leads to. */
  datatype Op =
    | Record(peer: PeerId, addr: Address)
    | Forget(peer: PeerId)
    | Link(addr: Address, remote: ActorId, local: ActorId)
    | Unlink(addr: Address, remote: ActorId, local: ActorId)
    | Take(addr: Address)

  function Locals(links: Links, addr: Address, remote: ActorId): set<ActorId> {
    if addr in links && remote in links[addr] then links[addr][remote] else {}
  }

  function ByActor(links: Links, addr: Address): map<ActorId, set<ActorId>> {
    if addr in links then links[addr] else map[]
  }

  function LinkOne(links: Links, addr: Address, remote: ActorId, local: ActorId): Links {
    if local in Locals(links, addr, remote) then links
    else links[addr := ByActor(links, addr)[remote := Locals(links, addr, remote) + {local}]]
  }

  function UnlinkOne(links: Links, addr: Address, remote: ActorId, local: ActorId): Links {
    if addr !in links || remote !in links[addr] then links
    else
      var locals: set<ActorId> := links[addr][remote] - {local};
      var byActor: map<ActorId, set<ActorId>> :=
        if locals == {} then links[addr] - {remote} else links[addr][remote := locals];
      if byActor == map[] then links - {addr} else links[addr := byActor]
  }

  /** A LinkDied for every link of these remote actors. */
  function DeathsOf(addr: Address, byActor: map<ActorId, set<ActorId>>, remotes: set<ActorId>): set<Event> {
    set remote, local | remote in remotes && remote in byActor && local in byActor[remote] :: Died(addr, remote, local)
  }

  function DeathsAt(links: Links, addr: Address): set<Event> {
    if addr in links then DeathsOf(addr, links[addr], links[addr].Keys) else {}
  }

  function Step(s: Registry, op: Op): Registry {
    match op
    case Record(peer, addr) => s.(addrOf := s.addrOf[peer := addr])
    case Forget(peer) => s.(addrOf := s.addrOf - {peer})
    case Link(addr, remote, local) =>
      if local in Locals(s.links, addr, remote) then s
      else s.(links := LinkOne(s.links, addr, remote, local), log := s.log + multiset{Established(addr, remote, local)})
    case Unlink(addr, remote, local) =>
      if local in Locals(s.links, addr, remote)
      then s.(links := UnlinkOne(s.links, addr, remote, local), log := s.log + multiset{Unlinked(addr, remote, local)})
      else s
    case Take(addr) => s.(links := s.links - {addr}, log := s.log + multiset(DeathsAt(s.links, addr)))
  }

  function Run(s: Registry, ops: seq<Op>): Registry
    decreases |ops|
  {
    if ops == [] then s else Step(Run(s, ops[..|ops| - 1]), ops[|ops| - 1])
  }

  // ---------- The balance of signals ----------

  /** Every link established and neither dead nor removed since is registered, and no other. */
  ghost predicate Balanced(s: Registry) {
    forall addr, remote, local ::
      s.log[Established(addr, remote, local)] ==
      s.log[Died(addr, remote, local)] + s.log[Unlinked(addr, remote, local)]
      + (if local in Locals(s.links, addr, remote) then 1 else 0)
  }

  ghost predicate NoEmptyMaps(links: Links) {
    forall addr :: addr in links ==>
      links[addr] != map[] && forall remote :: remote in links[addr] ==> links[addr][remote] != {}
  }

  /** Only this remote actor's local links differ. */
  ghost predicate OnlyLocals(links: Links, links1: Links, addr: Address, remote: ActorId, locals: set<ActorId>) {
    forall a, r :: Locals(links1, a, r) == (if a == addr && r == remote then locals else Locals(links, a, r))
  }

  lemma LinkOneAdds(links: Links, addr: Address, remote: ActorId, local: ActorId)
    ensures OnlyLocals(links, LinkOne(links, addr, remote, local), addr, remote, Locals(links, addr, remote) + {local})
    ensures NoEmptyMaps(links) ==> NoEmptyMaps(LinkOne(links, addr, remote, local))
  {
  }

  lemma UnlinkOneRemoves(links: Links, addr: Address, remote: ActorId, local: ActorId)
    requires NoEmptyMaps(links)
    ensures OnlyLocals(links, UnlinkOne(links, addr, remote, local), addr, remote,
                       Locals(links, addr, remote) - {local})
    ensures NoEmptyMaps(UnlinkOne(links, addr, remote, local))
  {
    if addr in links && remote in links[addr] {
      var locals: set<ActorId> := links[addr][remote] - {local};
      var byActor: map<ActorId, set<ActorId>> :=
        if locals == {} then links[addr] - {remote} else links[addr][remote := locals];
      assert locals != {} ==> remote in byActor;
      assert forall r :: r in byActor <==> r in links[addr] && (r == remote ==> locals != {});
    }
  }

  /** Removing a link that is not there leaves the map as it is. */
  lemma UnlinkOneOfNone(links: Links, addr: Address, remote: ActorId, local: ActorId)
    requires NoEmptyMaps(links) && local !in Locals(links, addr, remote)
    ensures UnlinkOne(links, addr, remote, local) == links
  {
    if addr in links && remote in links[addr] {
      assert links[addr] != map[] && links[addr][remote] != {};
      var locals: set<ActorId> := links[addr][remote] - {local};
      assert locals == links[addr][remote];
      assert links[addr][remote := locals] == links[addr];
    }
  }

  lemma DeathsAreTheLinks(links: Links, addr: Address, a: Address, remote: ActorId, local: ActorId)
    ensures Died(a, remote, local) in DeathsAt(links, addr) <==> a == addr && local in Locals(links, addr, remote)
    ensures Established(a, remote, local) !in DeathsAt(links, addr)
    ensures Unlinked(a, remote, local) !in DeathsAt(links, addr)
  {
  }

  lemma LinkKeepsBalance(s: Registry, addr: Address, remote: ActorId, local: ActorId)
    requires Balanced(s) && NoEmptyMaps(s.links) && local !in Locals(s.links, addr, remote)
    ensures Balanced(Step(s, Link(addr, remote, local)))
  {
    LinkOneAdds(s.links, addr, remote, local);
    hide LinkOne, Locals, NoEmptyMaps;
  }

  lemma UnlinkKeepsBalance(s: Registry, addr: Address, remote: ActorId, local: ActorId)
    requires Balanced(s) && NoEmptyMaps(s.links) && local in Locals(s.links, addr, remote)
    ensures Balanced(Step(s, Unlink(addr, remote, local)))
  {
    UnlinkOneRemoves(s.links, addr, remote, local);
    hide UnlinkOne, Locals, NoEmptyMaps;
  }

  lemma TakeKeepsBalance(s: Registry, addr: Address)
    requires Balanced(s)
    ensures Balanced(Step(s, Take(addr)))
  {
    var s1 := Step(s, Take(addr));
    forall a, remote, local ensures
      s1.log[Established(a, remote, local)] ==
      s1.log[Died(a, remote, local)] + s1.log[Unlinked(a, remote, local)]
      + (if local in Locals(s1.links, a, remote) then 1 else 0)
    {
      DeathsAreTheLinks(s.links, addr, a, remote, local);
    }
  }

  lemma StepKeepsBalance(s: Registry, op: Op)
    requires Balanced(s) && NoEmptyMaps(s.links)
    ensures Balanced(Step(s, op)) && NoEmptyMaps(Step(s, op).links)
  {
    match op
    case Record(_, _) =>
    case Forget(_) =>
    case Link(addr, remote, local) =>
      LinkOneAdds(s.links, addr, remote, local);
      if local !in Locals(s.links, addr, remote) {
        LinkKeepsBalance(s, addr, remote, local);
      }
      hide Balanced;
    case Unlink(addr, remote, local) =>
      UnlinkOneRemoves(s.links, addr, remote, local);
      if local in Locals(s.links, addr, remote) {
        UnlinkKeepsBalance(s, addr, remote, local);
      }
      hide Balanced;
    case Take(addr) => TakeKeepsBalance(s, addr);
  }

  lemma {:induction false} RunKeepsBalance(s: Registry, ops: seq<Op>)
    requires Balanced(s) && NoEmptyMaps(s.links)
    ensures Balanced(Run(s, ops)) && NoEmptyMaps(Run(s, ops).links)
    decreases |ops|
  {
    if ops != [] {
      RunKeepsBalance(s, ops[..|ops| - 1]);
      StepKeepsBalance(Run(s, ops[..|ops| - 1]), ops[|ops| - 1]);
    }
  }

  /**
   For any interleaving of links, unlinks and disconnects: a link was established once more than it died or was
   unlinked if it is registered, and equally often if not. No inner map is ever empty.
   */
  lemma EventsBalance(ops: seq<Op>, addr: Address, remote: ActorId, local: ActorId)
    ensures var s := Run(EMPTY, ops);
      && s.log[Established(addr, remote, local)] ==
         s.log[Died(addr, remote, local)] + s.log[Unlinked(addr, remote, local)]
         + (if local in Locals(s.links, addr, remote) then 1 else 0)
      && NoEmptyMaps(s.links)
  {
    assert Balanced(EMPTY);
    RunKeepsBalance(EMPTY, ops);
  }

  // ---------- Peer addresses ----------

  /** The address last recorded for a peer, unless it was forgotten since. */
  function LatestAddress(ops: seq<Op>, peer: PeerId): (addr: Option<Address>)
    ensures addr.Some? <==>
      exists i :: 0 <= i < |ops| && ops[i].Record? && ops[i].peer == peer && Undisturbed(ops, i, peer)
    ensures forall i :: 0 <= i < |ops| && ops[i].Record? && ops[i].peer == peer && Undisturbed(ops, i, peer) ==>
      addr == Some(ops[i].addr)
    decreases |ops|
  {
    if ops == [] then None
    else
      var n := |ops| - 1;
      var earlier := LatestAddress(ops[..n], peer);
      assert forall i :: 0 <= i < n ==>
        (Undisturbed(ops, i, peer) <==> Undisturbed(ops[..n], i, peer) && !Disturbs(ops[n], peer));
      assert forall i :: 0 <= i < n ==> ops[..n][i] == ops[i];
      match ops[n]
      case Record(p, addr) => (if p == peer then assert Undisturbed(ops, n, peer); Some(addr) else earlier)
      case Forget(p) => if p == peer then None else earlier
      case _ => earlier
  }

  predicate Disturbs(op: Op, peer: PeerId) {
    (op.Record? || op.Forget?) && op.peer == peer
  }

  predicate Undisturbed(ops: seq<Op>, i: nat, peer: PeerId) {
    forall j :: i < j < |ops| ==> !Disturbs(ops[j], peer)
  }

  lemma {:induction false} RunKnowsAddress(ops: seq<Op>, peer: PeerId)
    ensures LatestAddress(ops, peer) ==
      if peer in Run(EMPTY, ops).addrOf then Some(Run(EMPTY, ops).addrOf[peer]) else None
    decreases |ops|
  {
    if ops != [] {
      RunKnowsAddress(ops[..|ops| - 1], peer);
    }
  }

  // ---------- Disconnects ----------

  function DisconnectByAddr(s: Registry, addr: Address): Registry {
    Step(s, Take(addr))
  }

  /** Forgets the peer's address first, then takes the links found there. */
  function DisconnectById(s: Registry, peer: PeerId): Registry {
    if peer !in s.addrOf then s else Run(s, [Forget(peer), Take(s.addrOf[peer])])
  }

  /**
   After any run, a disconnect by peer id sends one LinkDied for every link under the address recorded last for
   the peer, however that link was made, and removes exactly these; links elsewhere and other peers' addresses
   stay. Without a recorded address, as right after a disconnect, nothing happens.
   */
  lemma {:induction false} DisconnectIsExact(ops: seq<Op>, peer: PeerId, addr: Address, remote: ActorId, local: ActorId)
    ensures var s := Run(EMPTY, ops);
      var s1 := DisconnectById(s, peer);
      var gone := LatestAddress(ops, peer) == Some(addr);
      && s1.log[Died(addr, remote, local)] == s.log[Died(addr, remote, local)]
         + (if gone && local in Locals(s.links, addr, remote) then 1 else 0)
      && s1.log[Established(addr, remote, local)] == s.log[Established(addr, remote, local)]
      && Locals(s1.links, addr, remote) == (if gone then {} else Locals(s.links, addr, remote))
      && s1.addrOf == s.addrOf - {peer}
      && (LatestAddress(ops, peer).None? ==> s1 == s)
      && DisconnectById(s1, peer) == s1
  {
    RunKnowsAddress(ops, peer);
    DisconnectTakes(Run(EMPTY, ops), peer, addr, remote, local);
    hide DisconnectById, Run, Locals, LatestAddress;
  }

  lemma DisconnectTakes(s: Registry, peer: PeerId, addr: Address, remote: ActorId, local: ActorId)
    ensures var s1 := DisconnectById(s, peer);
      var gone := peer in s.addrOf && s.addrOf[peer] == addr;
      && s1.log[Died(addr, remote, local)] == s.log[Died(addr, remote, local)]
         + (if gone && local in Locals(s.links, addr, remote) then 1 else 0)
      && s1.log[Established(addr, remote, local)] == s.log[Established(addr, remote, local)]
      && Locals(s1.links, addr, remote) == (if gone then {} else Locals(s.links, addr, remote))
      && s1.addrOf == s.addrOf - {peer}
      && (peer !in s.addrOf ==> s1 == s)
      && DisconnectById(s1, peer) == s1
  {
    if peer in s.addrOf {
      var at := s.addrOf[peer];
      ForgetThenTake(s, peer, at);
      DeathsAreTheLinks(s.links, at, addr, remote, local);
    }
  }

  lemma ForgetThenTake(s: Registry, peer: PeerId, addr: Address)
    ensures Run(s, [Forget(peer), Take(addr)]) == Step(s.(addrOf := s.addrOf - {peer}), Take(addr))
  {
    var ops := [Forget(peer), Take(addr)];
    assert ops[..1] == [Forget(peer)];
    assert [Forget(peer)][..0] == [];
    assert Run(s, [Forget(peer)]) == Step(s, Forget(peer));
  }

  // ---------- Automatic links ----------

  /** The remote actor id of a peer: the first eight bytes of its key, the least significant byte first. */
  function LittleEndian(bytes: seq<byte>): nat
    decreases |bytes|
  {
    if bytes == [] then 0 else bytes[0] as nat + 256 * LittleEndian(bytes[1..])
  }

  function RemoteOf(peer: PeerId): ActorId
    requires |peer.key| >= 8
  {
    LittleEndian(peer.key[..8])
  }

  function LinkSteps(addr: Address, remote: ActorId, locals: seq<ActorId>): (ops: seq<Op>)
    ensures |ops| == |locals|
  {
    seq(|locals|, i requires 0 <= i < |locals| => Link(addr, remote, locals[i]))
  }

  function NewlyLinked(links: Links, addr: Address, remote: ActorId, locals: set<ActorId>): set<Event> {
    set local | local in locals && local !in Locals(links, addr, remote) :: Established(addr, remote, local)
  }

  function LinkMany(s: Registry, addr: Address, remote: ActorId, locals: set<ActorId>): Registry {
    if locals <= Locals(s.links, addr, remote) then s
    else s.(links := s.links[addr := ByActor(s.links, addr)[remote := Locals(s.links, addr, remote) + locals]],
            log := s.log + multiset(NewlyLinked(s.links, addr, remote, locals)))
  }

  lemma LinkedLocals(s: Registry, addr: Address, remote: ActorId, locals: set<ActorId>)
    ensures Locals(LinkMany(s, addr, remote, locals).links, addr, remote) == Locals(s.links, addr, remote) + locals
  {
  }

  lemma AlreadyLinked(s: Registry, addr: Address, remote: ActorId, locals: set<ActorId>, local: ActorId)
    requires local in Locals(s.links, addr, remote) + locals
    ensures LinkMany(s, addr, remote, locals + {local}) == LinkMany(s, addr, remote, locals)
  {
    var linked := Locals(s.links, addr, remote);
    assert NewlyLinked(s.links, addr, remote, locals + {local}) == NewlyLinked(s.links, addr, remote, locals);
    assert linked + (locals + {local}) == linked + locals;
  }

  lemma OneMoreElement<T>(elements: set<T>, x: T)
    requires x !in elements
    ensures multiset(elements + {x}) == multiset(elements) + multiset{x}
  {
  }

  lemma LinkManyLog(s: Registry, addr: Address, remote: ActorId, locals: set<ActorId>)
    ensures LinkMany(s, addr, remote, locals).log == s.log + multiset(NewlyLinked(s.links, addr, remote, locals))
    ensures LinkMany(s, addr, remote, locals).addrOf == s.addrOf
  {
    if locals <= Locals(s.links, addr, remote) {
      assert NewlyLinked(s.links, addr, remote, locals) == {};
    }
  }

  lemma BesideLog(s: Registry, addr: Address, remote: ActorId, locals: set<ActorId>, local: ActorId)
    requires local !in Locals(s.links, addr, remote) + locals
    ensures LinkMany(s, addr, remote, locals + {local}).log ==
      LinkMany(s, addr, remote, locals).log + multiset{Established(addr, remote, local)}
  {
    LinkManyLog(s, addr, remote, locals);
    LinkManyLog(s, addr, remote, locals + {local});
    hide LinkMany;
    assert NewlyLinked(s.links, addr, remote, locals + {local})
      == NewlyLinked(s.links, addr, remote, locals) + {Established(addr, remote, local)};
    OneMoreElement(NewlyLinked(s.links, addr, remote, locals), Established(addr, remote, local));
  }

  lemma SetTwice(links: Links, addr: Address, remote: ActorId, first: set<ActorId>, last: set<ActorId>)
    ensures var once := links[addr := ByActor(links, addr)[remote := first]];
      once[addr := ByActor(once, addr)[remote := last]] == links[addr := ByActor(links, addr)[remote := last]]
  {
    assert ByActor(links, addr)[remote := first][remote := last] == ByActor(links, addr)[remote := last];
  }

  lemma BesideLinks(s: Registry, addr: Address, remote: ActorId, locals: set<ActorId>, local: ActorId)
    requires local !in Locals(s.links, addr, remote) + locals
    ensures LinkMany(s, addr, remote, locals + {local}).links ==
      LinkOne(LinkMany(s, addr, remote, locals).links, addr, remote, local)
  {
    hide NewlyLinked;
    var before, linked := LinkMany(s, addr, remote, locals).links, Locals(s.links, addr, remote);
    LinkedLocals(s, addr, remote, locals);
    assert linked + (locals + {local}) == linked + locals + {local};
    assert before == s.links || before == s.links[addr := ByActor(s.links, addr)[remote := linked + locals]];
    hide LinkMany, Locals;
    SetTwice(s.links, addr, remote, linked + locals, linked + locals + {local});
  }

  lemma LinkedBeside(s: Registry, addr: Address, remote: ActorId, locals: set<ActorId>, local: ActorId)
    requires local !in Locals(s.links, addr, remote) + locals
    ensures Step(LinkMany(s, addr, remote, locals), Link(addr, remote, local)) ==
            LinkMany(s, addr, remote, locals + {local})
  {
    LinkedLocals(s, addr, remote, locals);
    LinkManyLog(s, addr, remote, locals);
    LinkManyLog(s, addr, remote, locals + {local});
    BesideLog(s, addr, remote, locals, local);
    BesideLinks(s, addr, remote, locals, local);
    hide LinkMany, LinkOne, NewlyLinked, Locals;
  }

  lemma LinkManyOneMore(s: Registry, addr: Address, remote: ActorId, locals: set<ActorId>, local: ActorId)
    ensures Step(LinkMany(s, addr, remote, locals), Link(addr, remote, local)) ==
            LinkMany(s, addr, remote, locals + {local})
  {
    if local in Locals(s.links, addr, remote) + locals {
      AlreadyLinked(s, addr, remote, locals, local);
      LinkedLocals(s, addr, remote, locals);
      hide LinkMany;
    } else {
      LinkedBeside(s, addr, remote, locals, local);
    }
  }

  lemma {:induction false} LinkStepsLinkMany(s: Registry, addr: Address, remote: ActorId, locals: seq<ActorId>)
    ensures Run(s, LinkSteps(addr, remote, locals)) == LinkMany(s, addr, remote, Elements(locals))
    decreases |locals|
  {
    hide LinkMany, Step;
    if locals == [] {
      assert LinkMany(s, addr, remote, Elements(locals)) == s by {
        NothingToLink(s, addr, remote, Elements(locals));
      }
    } else {
      var n := |locals| - 1;
      LinkStepsLinkMany(s, addr, remote, locals[..n]);
      LinkManyOneMore(s, addr, remote, Elements(locals[..n]), locals[n]);
      assert LinkSteps(addr, remote, locals)[..n] == LinkSteps(addr, remote, locals[..n]);
      assert Elements(locals) == Elements(locals[..n]) + {locals[n]};
    }
  }

  lemma NothingToLink(s: Registry, addr: Address, remote: ActorId, locals: set<ActorId>)
    requires locals <= Locals(s.links, addr, remote)
    ensures LinkMany(s, addr, remote, locals) == s
  {
  }

  function AutoLink(s: Registry, addr: Address, peer: PeerId, locals: set<ActorId>): Registry
    requires |peer.key| >= 8
  {
    LinkMany(Step(s, Record(peer, addr)), addr, RemoteOf(peer), locals)
  }

  /** Linking the registered local actors to a peer again, in any order and with any repetition, changes nothing. */
  lemma {:induction false} AutoLinkIsIdempotent(
    s: Registry, addr: Address, peer: PeerId, locals: seq<ActorId>, again: seq<ActorId>)
    requires |peer.key| >= 8 && Elements(again) <= Elements(locals)
    ensures var once := Run(Step(s, Record(peer, addr)), LinkSteps(addr, RemoteOf(peer), locals));
      && Run(Step(once, Record(peer, addr)), LinkSteps(addr, RemoteOf(peer), again)) == once
      && forall local :: local in locals ==> local in Locals(once.links, addr, RemoteOf(peer))
  {
    var remote := RemoteOf(peer);
    var recorded := Step(s, Record(peer, addr));
    LinkStepsLinkMany(recorded, addr, remote, locals);
    var once := LinkMany(recorded, addr, remote, Elements(locals));
    assert Locals(once.links, addr, remote) == Locals(s.links, addr, remote) + Elements(locals);
    assert once.addrOf[peer := addr] == once.addrOf;
    assert Step(once, Record(peer, addr)) == once;
    LinkStepsLinkMany(once, addr, remote, again);
  }
}
