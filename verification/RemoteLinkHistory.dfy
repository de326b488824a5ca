/** The remote links read from their history: what one operation changes, and which links are there after a run. */
module RemoteLinkHistory {
  import opened Common
  import opened RemoteLinks

  // ---------- One operation ----------

  /** The number of signals and removals logged for a link by one operation. */
  function Logged(s: Registry, op: Op, e: Event): nat {
    match e
    case Established(a, r, l) => if op == Link(a, r, l) && l !in Locals(s.links, a, r) then 1 else 0
    case Unlinked(a, r, l) => if op == Unlink(a, r, l) && l in Locals(s.links, a, r) then 1 else 0
    case Died(a, r, l) => if op == Take(a) && l in Locals(s.links, a, r) then 1 else 0
  }

  /**
   A link is there after an operation exactly if the operation makes it, or it was there and the operation neither
   unlinks it nor takes the links of its address. Each change is logged once, and only a change.
   */
  lemma {:induction false} StepIsExact(s: Registry, op: Op, addr: Address, remote: ActorId, local: ActorId, e: Event)
    requires NoEmptyMaps(s.links)
    ensures local in Locals(Step(s, op).links, addr, remote) <==>
      || op == Link(addr, remote, local)
      || (local in Locals(s.links, addr, remote) && op != Unlink(addr, remote, local) && op != Take(addr))
    ensures Step(s, op).log[e] == s.log[e] + Logged(s, op, e)
  {
    match op
    case Record(_, _) =>
    case Forget(_) =>
    case Link(a, r, l) => LinkOneAdds(s.links, a, r, l); hide LinkOne, Locals, NoEmptyMaps;
    case Unlink(a, r, l) => UnlinkOneRemoves(s.links, a, r, l); hide UnlinkOne, Locals, NoEmptyMaps;
    case Take(a) => TakeIsExact(s, a, addr, remote, local, e); hide Step, Locals;
  }

  lemma TakeIsExact(s: Registry, a: Address, addr: Address, remote: ActorId, local: ActorId, e: Event)
    ensures local in Locals(Step(s, Take(a)).links, addr, remote) <==>
      local in Locals(s.links, addr, remote) && a != addr
    ensures Step(s, Take(a)).log[e] == s.log[e] + Logged(s, Take(a), e)
  {
    DeathsAreTheLinks(s.links, a, e.addr, e.remote, e.local);
    hide DeathsAt;
  }

  // ---------- Runs ----------

  predicate EndsLink(op: Op, addr: Address, remote: ActorId, local: ActorId) {
    op == Unlink(addr, remote, local) || op == Take(addr)
  }

  /** The i-th operation made the link, and none since unlinked it or took the links of its address. */
  predicate LinkLives(ops: seq<Op>, i: nat, addr: Address, remote: ActorId, local: ActorId) {
    && i < |ops| && ops[i] == Link(addr, remote, local)
    && forall j :: i < j < |ops| ==> !EndsLink(ops[j], addr, remote, local)
  }

  lemma LinkLivesOn(ops: seq<Op>, op: Op, i: nat, addr: Address, remote: ActorId, local: ActorId)
    ensures LinkLives(ops + [op], i, addr, remote, local) <==>
      if i == |ops| then op == Link(addr, remote, local)
      else LinkLives(ops, i, addr, remote, local) && !EndsLink(op, addr, remote, local)
  {
    var ops1 := ops + [op];
    assert ops1[|ops|] == op;
    assert forall j :: 0 <= j < |ops| ==> ops1[j] == ops[j];
  }

  /** After any run, a local actor is linked to a remote one exactly if the history made the link and never ended it. */
  lemma {:induction false} LinksReadTheHistory(ops: seq<Op>, addr: Address, remote: ActorId, local: ActorId)
    ensures local in Locals(Run(EMPTY, ops).links, addr, remote) <==>
      exists i :: LinkLives(ops, i, addr, remote, local)
    decreases |ops|
  {
    if ops != [] {
      var n := |ops| - 1;
      var before, op := ops[..n], ops[n];
      assert ops == before + [op];
      LinksReadTheHistory(before, addr, remote, local);
      assert Balanced(EMPTY);
      RunKeepsBalance(EMPTY, before);
      StepIsExact(Run(EMPTY, before), op, addr, remote, local, Died(addr, remote, local));
      LinkLivesOn(before, op, n, addr, remote, local);
      if i: nat :| LinkLives(before, i, addr, remote, local) {
        LinkLivesOn(before, op, i, addr, remote, local);
      }
      if i: nat :| LinkLives(ops, i, addr, remote, local) {
        LinkLivesOn(before, op, i, addr, remote, local);
      }
      hide Step, LinkLives, Locals, NoEmptyMaps;
    }
  }

  /** An unlink leaves nothing to be told of: whatever happens before the next link, that actor hears of no death. */
  lemma {:induction false} UnlinkedHearsNothing(
    ops: seq<Op>, more: seq<Op>, addr: Address, remote: ActorId, local: ActorId)
    requires Link(addr, remote, local) !in more
    ensures var s := Run(EMPTY, ops + [Unlink(addr, remote, local)]);
      && local !in Locals(s.links, addr, remote)
      && Run(s, more).log[Died(addr, remote, local)] == s.log[Died(addr, remote, local)]
  {
    var op := Unlink(addr, remote, local);
    assert (ops + [op])[..|ops|] == ops;
    assert Balanced(EMPTY);
    RunKeepsBalance(EMPTY, ops);
    RunKeepsBalance(EMPTY, ops + [op]);
    var e := Died(addr, remote, local);
    StepIsExact(Run(EMPTY, ops), op, addr, remote, local, e);
    StaysSilent(Run(EMPTY, ops + [op]), more, addr, remote, local);
    hide Step, Locals, NoEmptyMaps;
  }

  lemma {:induction false} StaysSilent(
    s: Registry, more: seq<Op>, addr: Address, remote: ActorId, local: ActorId)
    requires Balanced(s) && NoEmptyMaps(s.links)
    requires local !in Locals(s.links, addr, remote) && Link(addr, remote, local) !in more
    ensures local !in Locals(Run(s, more).links, addr, remote)
    ensures Run(s, more).log[Died(addr, remote, local)] == s.log[Died(addr, remote, local)]
    decreases |more|
  {
    if more != [] {
      var n := |more| - 1;
      assert more[n] in more;
      StaysSilent(s, more[..n], addr, remote, local);
      RunKeepsBalance(s, more[..n]);
      StepIsExact(Run(s, more[..n]), more[n], addr, remote, local, Died(addr, remote, local));
      hide Step, Locals, NoEmptyMaps;
    }
  }

  // ---------- Peers ----------

  /** The remote actor of a peer is the first eight bytes of its key, in order of rising significance. */
  lemma RemoteOfPeer(peer: PeerId)
    requires |peer.key| >= 8
    ensures var k := peer.key;
      RemoteOf(peer) == k[0] as nat + k[1] as nat * 0x100 + k[2] as nat * 0x1_0000 + k[3] as nat * 0x100_0000
        + k[4] as nat * 0x1_0000_0000 + k[5] as nat * 0x100_0000_0000
        + k[6] as nat * 0x1_0000_0000_0000 + k[7] as nat * 0x100_0000_0000_0000
  {
    var k := peer.key[..8];
    assert k[1..][1..] == k[2..] && k[2..][1..] == k[3..] && k[3..][1..] == k[4..] && k[4..][1..] == k[5..];
    assert k[5..][1..] == k[6..] && k[6..][1..] == k[7..] && k[7..][1..] == [];
    assert LittleEndian(k[7..]) == k[7] as nat;
    assert LittleEndian(k[6..]) == k[6] as nat + 256 * LittleEndian(k[7..]);
    assert LittleEndian(k[5..]) == k[5] as nat + 256 * LittleEndian(k[6..]);
    assert LittleEndian(k[4..]) == k[4] as nat + 256 * LittleEndian(k[5..]);
    assert LittleEndian(k[3..]) == k[3] as nat + 256 * LittleEndian(k[4..]);
    assert LittleEndian(k[2..]) == k[2] as nat + 256 * LittleEndian(k[3..]);
    assert LittleEndian(k[1..]) == k[1] as nat + 256 * LittleEndian(k[2..]);
  }

  /** An automatic link records the peer's address and makes the waiting actors' links to the peer, and no others. */
  lemma {:induction false} AutoLinkIsExact(
    s: Registry, addr: Address, peer: PeerId, waiting: seq<ActorId>, a: Address, r: ActorId, l: ActorId)
    requires |peer.key| >= 8 && NoEmptyMaps(s.links)
    ensures var s1 := AutoLink(s, addr, peer, Elements(waiting));
      && s1 == Run(Step(s, Record(peer, addr)), LinkSteps(addr, RemoteOf(peer), waiting))
      && s1.addrOf == s.addrOf[peer := addr]
      && (l in Locals(s1.links, a, r) <==>
            l in Locals(s.links, a, r) || (a == addr && r == RemoteOf(peer) && l in waiting))
      && s1.log[Established(a, r, l)] == s.log[Established(a, r, l)]
         + (if a == addr && r == RemoteOf(peer) && l in waiting && l !in Locals(s.links, a, r) then 1 else 0)
  {
    var recorded := Step(s, Record(peer, addr));
    LinkStepsLinkMany(recorded, addr, RemoteOf(peer), waiting);
    LinkManyLog(recorded, addr, RemoteOf(peer), Elements(waiting));
    ManyLinked(recorded, addr, RemoteOf(peer), Elements(waiting), a, r, l);
    hide Run, RemoteOf, LinkMany, NewlyLinked;
  }

  lemma ManyLinked(
    s: Registry, addr: Address, remote: ActorId, locals: set<ActorId>, a: Address, r: ActorId, l: ActorId)
    ensures l in Locals(LinkMany(s, addr, remote, locals).links, a, r) <==>
      l in Locals(s.links, a, r) || (a == addr && r == remote && l in locals)
    ensures multiset(NewlyLinked(s.links, addr, remote, locals))[Established(a, r, l)] ==
      if a == addr && r == remote && l in locals && l !in Locals(s.links, a, r) then 1 else 0
  {
  }

  /** A disconnect by address signals and removes the links there, and nothing else. */
  lemma DisconnectByAddrIsExact(s: Registry, addr: Address, a: Address, r: ActorId, l: ActorId)
    ensures var s1 := DisconnectByAddr(s, addr);
      && s1.addrOf == s.addrOf
      && Locals(s1.links, a, r) == (if a == addr then {} else Locals(s.links, a, r))
      && s1.log[Died(a, r, l)] == s.log[Died(a, r, l)] + (if a == addr && l in Locals(s.links, a, r) then 1 else 0)
      && s1.log[Unlinked(a, r, l)] == s.log[Unlinked(a, r, l)]
  {
    DeathsAreTheLinks(s.links, addr, a, r, l);
  }
}
