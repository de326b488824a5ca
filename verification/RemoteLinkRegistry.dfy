/** The registry object: nested maps edited in place, with loops that dispatch the signals. */
module RemoteLinkRegistries {
  import opened Common
  import opened RemoteLinks

  /** The local actors that want to be linked to every peer, over all names. */
  function AllIntents(intents: map<string, seq<ActorId>>): set<ActorId> {
    set name, local | name in intents && local in intents[name] :: local
  }

  function IntentsUnder(intents: map<string, seq<ActorId>>, names: set<string>): set<ActorId> {
    set name, local | name in names && name in intents && local in intents[name] :: local
  }

  /** A LinkDied for each of these links to one remote actor. */
  function DeathsTo(addr: Address, remote: ActorId, locals: set<ActorId>): set<Event> {
    set local | local in locals :: Died(addr, remote, local)
  }

  lemma OneMoreRemote(addr: Address, byActor: map<ActorId, set<ActorId>>, done: set<ActorId>, remote: ActorId)
    requires remote in byActor && remote !in done
    ensures multiset(DeathsOf(addr, byActor, done + {remote})) ==
      multiset(DeathsOf(addr, byActor, done)) + multiset(DeathsTo(addr, remote, byActor[remote]))
  {
    var told, now := DeathsOf(addr, byActor, done), DeathsTo(addr, remote, byActor[remote]);
    assert DeathsOf(addr, byActor, done + {remote}) == told + now;
    DisjointUnion(told, now);
  }

  lemma OneMoreLocal(addr: Address, remote: ActorId, told: set<ActorId>, local: ActorId)
    requires local !in told
    ensures multiset(DeathsTo(addr, remote, told + {local})) ==
      multiset(DeathsTo(addr, remote, told)) + multiset{Died(addr, remote, local)}
  {
    assert DeathsTo(addr, remote, told + {local}) == DeathsTo(addr, remote, told) + {Died(addr, remote, local)};
    OneMoreElement(DeathsTo(addr, remote, told), Died(addr, remote, local));
  }

  lemma DisjointUnion<T>(one: set<T>, two: set<T>)
    requires one !! two
    ensures multiset(one + two) == multiset(one) + multiset(two)
  {
  }

  lemma TakeEffect(s: Registry, addr: Address)
    ensures addr !in s.links ==> Step(s, Take(addr)) == s
    ensures addr in s.links ==>
      Step(s, Take(addr)) ==
        s.(links := s.links - {addr}, log := s.log + multiset(DeathsOf(addr, s.links[addr], s.links[addr].Keys)))
  {
    hide DeathsOf;
    if addr !in s.links {
      assert s.links - {addr} == s.links;
    }
  }

  lemma OneMoreName(intents: map<string, seq<ActorId>>, done: set<string>, name: string)
    requires name in intents
    ensures IntentsUnder(intents, done + {name}) == IntentsUnder(intents, done) + Elements(intents[name])
  {
  }

  lemma AllNames(intents: map<string, seq<ActorId>>)
    ensures IntentsUnder(intents, {}) == {}
    ensures IntentsUnder(intents, intents.Keys) == AllIntents(intents)
  {
  }

  class RemoteLinkRegistry {
    var linksByPeer: Links
    var peerIdToAddr: map<PeerId, Address>
    var intents: map<string, seq<ActorId>>
    /** The signals dispatched, and the links removed without one. */
    ghost var log: multiset<Event>

    ghost function State(): Registry
      reads this
    {
      Registry(linksByPeer, peerIdToAddr, log)
    }

    ghost predicate Valid()
      reads this
    {
      Balanced(State()) && NoEmptyMaps(linksByPeer)
    }

    constructor ()
      ensures Valid() && State() == EMPTY && intents == map[]
    {
      linksByPeer, peerIdToAddr, intents := map[], map[], map[];
      log := multiset{};
      new;
      assert Balanced(EMPTY);
    }

    method Insert(addr: Address, remote: ActorId, local: ActorId) returns (inserted: bool)
      modifies this`linksByPeer
      ensures inserted == (local !in Locals(old(linksByPeer), addr, remote))
      ensures linksByPeer == LinkOne(old(linksByPeer), addr, remote, local)
    {
      var byActor: map<ActorId, set<ActorId>> := if addr in linksByPeer then linksByPeer[addr] else map[];
      var locals: set<ActorId> := if remote in byActor then byActor[remote] else {};
      if local in locals {
        return false;
      }
      linksByPeer := linksByPeer[addr := byActor[remote := locals + {local}]];
      inserted := true;
    }

    method Link(addr: Address, remote: ActorId, local: ActorId)
      requires Valid()
      modifies this`linksByPeer, this`log
      ensures Valid() && State() == Step(old(State()), Op.Link(addr, remote, local))
    {
      StepKeepsBalance(State(), Op.Link(addr, remote, local));
      hide LinkOne, Balanced, NoEmptyMaps;
      var inserted := Insert(addr, remote, local);
      if inserted {
        log := log + multiset{Established(addr, remote, local)};
      }
    }

    method LinkWithPeerId(peer: PeerId, addr: Address, remote: ActorId, local: ActorId)
      requires Valid()
      modifies this`peerIdToAddr, this`linksByPeer, this`log
      ensures Valid() && State() == Step(Step(old(State()), Record(peer, addr)), Op.Link(addr, remote, local))
    {
      peerIdToAddr := peerIdToAddr[peer := addr];
      hide Balanced, NoEmptyMaps;
      assert Valid() by { StepKeepsBalance(old(State()), Record(peer, addr)); }
      Link(addr, remote, local);
    }

    method RegisterLocalActor(name: string, local: ActorId)
      modifies this`intents
      ensures intents == old(intents)[name := (if name in old(intents) then old(intents)[name] else []) + [local]]
      ensures AllIntents(intents) == AllIntents(old(intents)) + {local}
    {
      var entry := if name in intents then intents[name] else [];
      intents := intents[name := entry + [local]];
      assert forall l :: l in intents[name] <==> l in entry || l == local;
      assert AllIntents(intents) == AllIntents(old(intents)) + {local} by {
        forall l ensures l in AllIntents(intents) <==> l in AllIntents(old(intents)) || l == local {
          assert local in intents[name];
          if l in AllIntents(old(intents)) {
            var n :| n in old(intents) && l in old(intents)[n];
            assert l in intents[n];
          }
        }
      }
    }

    method AutoLinkPeer(addr: Address, peer: PeerId)
      requires Valid() && |peer.key| >= 8
      modifies this`peerIdToAddr, this`linksByPeer, this`log
      ensures Valid() && State() == AutoLink(old(State()), addr, peer, AllIntents(intents))
    {
      AllNames(intents);
      peerIdToAddr := peerIdToAddr[peer := addr];
      ghost var recorded := State();
      var remote := RemoteOf(peer);
      assert Valid() by { StepKeepsBalance(old(State()), Record(peer, addr)); }
      assert LinkMany(recorded, addr, remote, {}) == recorded by { NothingToLink(recorded, addr, remote, {}); }
      hide Balanced, NoEmptyMaps, LinkMany, IntentsUnder, AllIntents;
      if intents == map[] {
        assert intents.Keys == {};
        return;
      }
      var names := intents.Keys;
      ghost var done: set<string> := {};
      while names != {}
        invariant Valid() && names + done == intents.Keys && names !! done
        invariant State() == LinkMany(recorded, addr, remote, IntentsUnder(intents, done))
        decreases |names|
      {
        var name :| name in names;
        LinkIntents(peer, addr, remote, name, recorded, IntentsUnder(intents, done));
        OneMoreName(intents, done, name);
        names, done := names - {name}, done + {name};
      }
      assert done == intents.Keys;
    }

    /** The inner loop of an automatic link: the actors under one name. */
    method LinkIntents(
      peer: PeerId, addr: Address, remote: ActorId, name: string, ghost before: Registry, ghost locals: set<ActorId>)
      requires Valid() && name in intents
      requires State() == LinkMany(before, addr, remote, locals)
      requires peer in before.addrOf && before.addrOf[peer] == addr
      modifies this`peerIdToAddr, this`linksByPeer, this`log
      ensures Valid() && State() == LinkMany(before, addr, remote, locals + Elements(intents[name]))
    {
      hide Balanced, NoEmptyMaps, LinkMany;
      var entry := intents[name];
      assert Elements(entry[..0]) == {};
      assert locals + {} == locals;
      for i := 0 to |entry|
        invariant Valid() && State() == LinkMany(before, addr, remote, locals + Elements(entry[..i]))
      {
        LinkManyLog(before, addr, remote, locals + Elements(entry[..i]));
        LinkManyOneMore(before, addr, remote, locals + Elements(entry[..i]), entry[i]);
        assert peerIdToAddr[peer := addr] == peerIdToAddr;
        assert Step(State(), Record(peer, addr)) == State();
        LinkWithPeerId(peer, addr, remote, entry[i]);
        assert Elements(entry[..i + 1]) == Elements(entry[..i]) + {entry[i]};
        assert locals + Elements(entry[..i]) + {entry[i]} == locals + Elements(entry[..i + 1]);
      }
      assert entry[..|entry|] == entry;
    }

    method Unlink(addr: Address, remote: ActorId, local: ActorId)
      requires Valid()
      modifies this`linksByPeer, this`log
      ensures Valid() && State() == Step(old(State()), Op.Unlink(addr, remote, local))
    {
      StepKeepsBalance(State(), Op.Unlink(addr, remote, local));
      if local !in Locals(linksByPeer, addr, remote) {
        UnlinkOneOfNone(linksByPeer, addr, remote, local);
      }
      hide Balanced, NoEmptyMaps;
      if addr !in linksByPeer || remote !in linksByPeer[addr] {
        return;
      }
      var byActor: map<ActorId, set<ActorId>> := linksByPeer[addr];
      ghost var was := local in byActor[remote];
      var locals: set<ActorId> := byActor[remote] - {local};
      byActor := if locals == {} then byActor - {remote} else byActor[remote := locals];
      linksByPeer := if byActor == map[] then linksByPeer - {addr} else linksByPeer[addr := byActor];
      if was {
        log := log + multiset{Unlinked(addr, remote, local)};
      }
    }

    method NotifyPeerDisconnectedByAddr(addr: Address)
      requires Valid()
      modifies this`linksByPeer, this`log
      ensures Valid() && State() == DisconnectByAddr(old(State()), addr)
    {
      StepKeepsBalance(State(), Take(addr));
      TakeEffect(State(), addr);
      hide Balanced, NoEmptyMaps, Step, DeathsOf;
      if addr !in linksByPeer {
        return;
      }
      var byActor: map<ActorId, set<ActorId>> := linksByPeer[addr];
      linksByPeer := linksByPeer - {addr};
      DispatchDeaths(addr, byActor);
      assert State() == Step(old(State()), Take(addr));
    }

    /** Tells the local side of every taken link, in any order. */
    method DispatchDeaths(addr: Address, byActor: map<ActorId, set<ActorId>>)
      modifies this`log
      ensures log == old(log) + multiset(DeathsOf(addr, byActor, byActor.Keys))
    {
      var remotes := byActor.Keys;
      ghost var done: set<ActorId> := {};
      assert DeathsOf(addr, byActor, done) == {};
      hide DeathsOf, DeathsTo;
      while remotes != {}
        invariant remotes + done == byActor.Keys && remotes !! done
        invariant log == old(log) + multiset(DeathsOf(addr, byActor, done))
        decreases |remotes|
      {
        var remote :| remote in remotes;
        DispatchDeathsTo(addr, remote, byActor[remote]);
        OneMoreRemote(addr, byActor, done, remote);
        remotes, done := remotes - {remote}, done + {remote};
      }
      assert done == byActor.Keys;
    }

    method DispatchDeathsTo(addr: Address, remote: ActorId, locals: set<ActorId>)
      modifies this`log
      ensures log == old(log) + multiset(DeathsTo(addr, remote, locals))
    {
      var rest := locals;
      ghost var told: set<ActorId> := {};
      assert DeathsTo(addr, remote, told) == {};
      while rest != {}
        invariant rest + told == locals && rest !! told
        invariant log == old(log) + multiset(DeathsTo(addr, remote, told))
        decreases |rest|
      {
        var local :| local in rest;
        OneMoreLocal(addr, remote, told, local);
        log := log + multiset{Died(addr, remote, local)};
        rest, told := rest - {local}, told + {local};
      }
      assert told == locals;
    }

    method NotifyPeerDisconnectedById(peer: PeerId)
      requires Valid()
      modifies this`linksByPeer, this`peerIdToAddr, this`log
      ensures Valid() && State() == DisconnectById(old(State()), peer)
    {
      if peer !in peerIdToAddr {
        return;
      }
      var addr := peerIdToAddr[peer];
      ForgetThenTake(State(), peer, addr);
      hide Run;
      StepKeepsBalance(State(), Forget(peer));
      peerIdToAddr := peerIdToAddr - {peer};
      NotifyPeerDisconnectedByAddr(addr);
    }
  }
}
