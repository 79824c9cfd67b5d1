/**
 `publish`, `discover` and `refresh` (smart.go:168-361), composed of the locked sections, with any
 steps of other threads in between. What the network, the factory and the context do is
 nondeterministic.
 */
module Refreshing {
  import opened Wrappers
  import opened Endpoints
  import opened Lifecycle
  import opened Discovery
  import opened SmartBackends

  /** What may go wrong outside: the context of the refresh may end, the factory may fail. */
  datatype Risks = Risks(cancel: bool, factory: bool)

  /** What other threads can not change: the runs in `mine`, begun or not, and, for the holder of the
      gate, everything that belongs to the refresher. */
  twostate predicate Undisturbed(b: SmartBackend, mine: set<nat>, gate: bool)
    reads b
  {
    && old(b.endpoints) <= b.endpoints
    && (forall r :: r in mine ==> (r in b.runs <==> r in old(b.runs)))
    && (forall r :: r in mine && r in b.runs && r in old(b.runs) ==> b.runs[r] == old(b.runs)[r])
    && (gate ==> b.refresher == old(b.refresher) && b.snapshot == old(b.snapshot) &&
                 b.coordinatorConnections == old(b.coordinatorConnections) && b.issued == old(b.issued) &&
                 b.activeCoordinator == old(b.activeCoordinator))
    && (old(b.closed) ==> b.closed)
    && (old(b.snapshot).Some? ==> b.snapshot.Some?)
  }

  /** Every method below may allocate endpoints, and none reopens the client; only a successful refresh
      moves the active coordinator. */
  twostate predicate Grows(b: SmartBackend)
    reads b
  {
    old(b.endpoints) <= b.endpoints && fresh(b.endpoints - old(b.endpoints)) && (old(b.closed) ==> b.closed)
  }

  twostate predicate SameActive(b: SmartBackend)
    reads b
  {
    b.activeCoordinator == old(b.activeCoordinator)
  }

  /** One step of any other thread. */
  method OtherStep(b: SmartBackend, mine: set<nat>, gate: bool, reserve: nat)
    requires b.Valid() && reserve <= b.waiting
    modifies b, b.endpoints
    ensures b.Valid() && Undisturbed(b, mine, gate) && reserve <= b.waiting && Grows(b)
  {
    hide Inv, IdleNodes, IdleTargets;
    var choice: nat, run: nat := *, *;
    if choice == 0 && run !in b.runs && run !in mine {
      var _ := b.RunBegin(run);
    } else if choice == 1 && run in b.runs && run !in mine {
      b.RunEnd(run);
    } else if choice == 2 {
      var _ := b.Enter();
    } else if choice == 3 && b.waiting > reserve {
      b.GiveUp();
    } else if choice == 4 && !b.closed {
      b.CloseBegin();
    } else if choice == 5 {
      var _ := b.Tick();
    } else if !gate {
      RefresherStep(b, reserve);
    }
  }

  /** One step of the thread that holds, or takes, the gate; or the end of Close. */
  method RefresherStep(b: SmartBackend, reserve: nat)
    requires b.Valid() && reserve <= b.waiting
    modifies b, b.endpoints
    ensures b.Valid() && b.runs == old(b.runs) && Undisturbed(b, {}, false) && reserve <= b.waiting && Grows(b)
  {
    hide Inv, SmartBackend.View;
    var choice: nat, target: Target, shards: ShardCount := *, *, *;
    var c := AnyConnection(b, true);
    match b.refresher
    case Idle =>
      if b.waiting > reserve {
        b.TakeGate();
      } else if b.waiting == 0 && b.closed && !b.finished {
        b.CloseFinish();
      }
    case Gated =>
      if choice == 0 {
        b.ReleaseGate();
      } else if choice == 1 && target !in b.coordinatorConnections {
        b.Dialed(target, c);
      } else if choice == 2 {
        var index: nat := *;
        b.SetActive(index % |b.coordinators|);
      } else {
        b.StartPublish(shards);
      }
    case Holding(_, _) =>
      b.StoreCoordinator();
    case Building(_, _, _, _) =>
      PublishStep(b);
    case Unpinning(_) =>
      b.UnpinAll();
  }

  method PublishStep(b: SmartBackend)
    requires b.Valid() && b.refresher.Building?
    modifies b, b.endpoints
    ensures b.Valid() && b.runs == old(b.runs) && Undisturbed(b, {}, false) && b.waiting == old(b.waiting) && Grows(b)
  {
    hide Inv, Apply, SmartBackend.View;
    var choice: nat, target: Target, key: RouteKey, cancelled: bool := *, *, *, *;
    var c := AnyConnection(b, true);
    var draft, missed := b.refresher.draft, b.refresher.missed;
    if missed.Some? && c.usable {
      var _ := b.CreateNode(c);
    } else if missed.Some? && choice == 0 {
      b.RefuseNode(c);
    } else if missed.None? && choice == 1 && target !in draft.targets {
      b.Lookup(target);
    } else if choice == 2 && target in draft.targets {
      RouteEnabled(b, key, target);
      b.AddRoute(key, target);
    } else if missed.None? && choice == 3 {
      var _ := b.CommitDraft(cancelled);
    } else {
      b.AbortPublish();
    }
  }

  /** A factory result, which is usable unless the factory may fail. */
  method AnyConnection(b: SmartBackend, mayFail: bool) returns (c: Connection)
    ensures c.handle == |b.issued| && (c.usable || mayFail)
  {
    var usable: bool, owned: bool := true, *;
    if mayFail {
      usable := *;
    }
    c := Connection(|b.issued|, usable, owned);
  }

  /** The context of a refresh ends when its caller cancels it, or the client closes. */
  method ContextEnds(b: SmartBackend, risks: Risks) returns (ended: bool)
    ensures ended ==> risks.cancel || b.closed
  {
    ended := false;
    if risks.cancel || b.closed {
      ended := *;
    }
  }

  /** The refresh that holds the gate, if there is one, comes to its end. */
  method LeaveGate(b: SmartBackend)
    requires b.Valid()
    modifies b, b.endpoints
    ensures b.Valid() && b.refresher.Idle? && b.waiting == old(b.waiting) && b.closed == old(b.closed)
    ensures b.runs == old(b.runs) && b.snapshot == old(b.snapshot) && b.finished == old(b.finished) && Grows(b)
  {
    hide Inv, SmartBackend.View;
    if b.refresher.Building? {
      b.AbortPublish();
    }
    if b.refresher.Unpinning? {
      b.UnpinAll();
    }
    if b.refresher.Holding? {
      b.StoreCoordinator();
    }
    if b.refresher.Gated? {
      b.ReleaseGate();
    }
  }

  /** Any number of steps of other threads. */
  method Interfere(b: SmartBackend, mine: set<nat>, gate: bool, reserve: nat)
    requires b.Valid() && reserve <= b.waiting
    modifies b, b.endpoints
    ensures b.Valid() && Undisturbed(b, mine, gate) && reserve <= b.waiting && Grows(b)
  {
    hide Inv;
    var steps: nat := *;
    while steps > 0
      invariant b.Valid() && Undisturbed(b, mine, gate) && reserve <= b.waiting && Grows(b)
    {
      OtherStep(b, mine, gate, reserve);
      steps := steps - 1;
    }
  }

  // ---- publish

  /** Failures of the environment have a cause in the environment. */
  ghost predicate Caused(b: SmartBackend, risks: Risks, failure: Option<Failure>)
    reads b`closed
  {
    && (failure == Some(Cancelled) ==> risks.cancel || b.closed)
    && (failure == Some(FactoryFailed) || failure == Some(NilConnection) ==> risks.factory)
  }

  /** Nothing outside goes wrong. */
  ghost predicate Calm(b: SmartBackend, risks: Risks)
    reads b`closed
  {
    !risks.cancel && !risks.factory && !b.closed
  }

  /** A draft that covers these claims and targets, and no others. */
  ghost predicate Drafted(r: Refresher, shards: nat, rel: set<Claim>, names: set<Target>) {
    r.Building? && r.missed.None? && r.draft.shards == shards && Draws(r.draft, rel, names)
  }

  /** `after` is `before` with an entry for `target`, which `before` may have had already. */
  predicate Extends(before: Topology, after: Topology, target: Target) {
    && target in after.targets
    && after == if target in before.targets then before else AddTarget(before, target, after.targets[target])
  }

  /** The endpoint of one peer's target: already in the draft, reused from the table, or created. */
  method EndpointFor(b: SmartBackend, target: Target, risks: Risks) returns (failure: Option<Failure>)
    requires b.Valid() && b.refresher.Building? && b.refresher.missed.None?
    modifies b, b.endpoints
    ensures b.Valid() && b.refresher.Building? && b.snapshot == old(b.snapshot)
    ensures Grows(b) && SameActive(b)
    ensures failure.None? ==> b.refresher.missed.None? && Extends(old(b.refresher).draft, b.refresher.draft, target)
    ensures failure.Some? ==> (failure.value == FactoryFailed || failure.value == NilConnection) && risks.factory
  {
    hide Inv, SmartBackend.Nodes;
    failure := None;
    if target !in b.refresher.draft.targets {
      b.Lookup(target);
      if b.refresher.missed.Some? {
        Interfere(b, {}, true, 0);
        failure := Create(b, risks);
      }
    }
  }

  /** Ask the factory for the missed target. */
  method Create(b: SmartBackend, risks: Risks) returns (failure: Option<Failure>)
    requires b.Valid() && b.refresher.Building? && b.refresher.missed.Some?
    requires b.refresher.missed.value !in b.refresher.draft.targets
    modifies b, b.endpoints
    ensures b.Valid() && b.refresher.Building? && b.snapshot == old(b.snapshot)
    ensures Grows(b) && SameActive(b)
    ensures failure.None? ==> b.refresher.missed.None?
    ensures failure.None? ==> Extends(old(b.refresher).draft, b.refresher.draft, old(b.refresher).missed.value)
    ensures failure.Some? ==> (failure.value == FactoryFailed || failure.value == NilConnection) && risks.factory
  {
    hide Inv, SmartBackend.Nodes;
    var fails: bool := false;
    if risks.factory {
      fails := *;
    }
    if fails {
      return Some(FactoryFailed);
    }
    var c := AnyConnection(b, risks.factory);
    if c.usable {
      var _ := b.CreateNode(c);
      return None;
    } else {
      b.RefuseNode(c);
      return Some(NilConnection);
    }
  }

  lemma TargetDraws(d: Topology, rel: set<Claim>, names: set<Target>, target: Target, e: Endpoint)
    requires Draws(d, rel, names)
    ensures target !in d.targets ==> Draws(AddTarget(d, target, e), rel, names + {target})
    ensures target in d.targets ==> Draws(d, rel, names + {target})
  {
    if target in d.targets {
      assert names + {target} == names;
    }
  }

  lemma RouteDraws(d: Topology, rel: set<Claim>, names: set<Target>, key: RouteKey, target: Target)
    requires Draws(d, rel, names) && target in names
    requires key in d.routes ==> d.routes[key] == d.targets[target]
    ensures Draws(d.(routes := d.routes[key := d.targets[target]]), rel + {(key, target)}, names)
  {
    var d' := d.(routes := d.routes[key := d.targets[target]]);
    forall k | k in d'.routes
      ensures exists c :: c in rel + {(key, target)} && c.0 == k
    {
      if k == key {
        assert (key, target) in rel + {(key, target)};
      } else {
        var c :| c in rel && c.0 == k;
        assert c in rel + {(key, target)};
      }
    }
  }

  /** Two endpoints for one route mean two targets for it. */
  lemma RouteConflict(d: Topology, rel: set<Claim>, all: set<Claim>, names: set<Target>, key: RouteKey, target: Target)
    requires Draws(d, rel, names) && target in names && rel <= all && (key, target) in all
    requires key in d.routes && d.routes[key] != d.targets[target]
    ensures !Functional(all)
  {
    var c :| c in rel && c.0 == key;
    assert c in all;
  }

  /** The routes of one peer. */
  method AddRoutes(b: SmartBackend, p: Peer, ghost shards: nat, ghost rel: set<Claim>, ghost names: set<Target>)
    returns (conflict: bool)
    requires b.Valid() && Drafted(b.refresher, shards, rel, names) && p.target in names
    modifies b`refresher
    ensures b.Valid() && b.refresher.Building?
    ensures !conflict ==> Drafted(b.refresher, shards, rel + PeerClaims(p, |p.partitions|), names)
    ensures conflict ==> !Functional(rel + PeerClaims(p, |p.partitions|))
  {
    hide Inv, SmartBackend.Valid, PeerClaims, Functional, Draws;
    ghost var all := rel + PeerClaims(p, |p.partitions|);
    PeerClaimsNone(p, rel);
    for i := 0 to |p.partitions|
      invariant b.Valid() && Drafted(b.refresher, shards, rel + PeerClaims(p, i), names)
    {
      var key := RouteKey(p.partitions[i], p.role);
      PeerClaimsNext(p, i, rel);
      conflict := AddOneRoute(b, key, p.target, shards, rel + PeerClaims(p, i), all, names);
      if conflict {
        return;
      }
    }
    return false;
  }

  lemma PeerClaimsNone(p: Peer, rel: set<Claim>)
    ensures rel + PeerClaims(p, 0) == rel
  {
  }

  lemma PeerClaimsNext(p: Peer, i: nat, rel: set<Claim>)
    requires i < |p.partitions|
    ensures rel + PeerClaims(p, i + 1) == rel + PeerClaims(p, i) + {(RouteKey(p.partitions[i], p.role), p.target)}
    ensures rel + PeerClaims(p, i) <= rel + PeerClaims(p, |p.partitions|)
    ensures (RouteKey(p.partitions[i], p.role), p.target) in rel + PeerClaims(p, |p.partitions|)
  {
    assert KeyAt(p, i) == RouteKey(p.partitions[i], p.role);
    assert PeerClaims(p, i + 1) == PeerClaims(p, i) + {(KeyAt(p, i), p.target)};
  }

  method AddOneRoute(b: SmartBackend, key: RouteKey, target: Target,
                     ghost shards: nat, ghost rel: set<Claim>, ghost all: set<Claim>, ghost names: set<Target>)
    returns (conflict: bool)
    requires b.Valid() && Drafted(b.refresher, shards, rel, names) && target in names
    requires rel <= all && (key, target) in all
    modifies b`refresher
    ensures b.Valid() && b.refresher.Building?
    ensures !conflict ==> Drafted(b.refresher, shards, rel + {(key, target)}, names)
    ensures conflict ==> !Functional(all)
  {
    hide Inv, SmartBackend.Nodes, Functional, Retire;
    var d := b.refresher.draft;
    assert target in d.targets;
    hide Draws;
    conflict := key in d.routes && d.routes[key] != d.targets[target];
    if conflict {
      RouteConflict(d, rel, all, names, key, target);
    } else {
      RouteDraws(d, rel, names, key, target);
      b.AddRoute(key, target);
    }
  }

  /** Build the draft from the peers, in order. */
  method BuildDraft(b: SmartBackend, d: Discovered, risks: Risks) returns (failure: Option<Failure>)
    requires b.Valid() && b.refresher.Gated?
    modifies b, b.endpoints
    ensures b.Valid() && b.refresher.Building? && b.snapshot == old(b.snapshot)
    ensures Grows(b) && SameActive(b)
    ensures failure.None? ==> Drafted(b.refresher, d.shards, Relation(d.peers), Names(d.peers))
    ensures failure == Some(Conflict) ==> !Functional(Relation(d.peers))
    ensures failure.Some? ==> failure.value in {Cancelled, FactoryFailed, NilConnection, Conflict}
    ensures Caused(b, risks, failure)
  {
    hide Inv, SmartBackend.Nodes, Functional, Relation, Names, Caused;
    b.StartPublish(d.shards);
    NoPeers(d.peers);
    NotCaused(b, risks);
    hide Draws, Drafted, SmartBackend.Valid;
    for i := 0 to |d.peers|
      invariant b.Valid() && b.snapshot == old(b.snapshot)
      invariant Grows(b) && SameActive(b)
      invariant Drafted(b.refresher, d.shards, Relation(d.peers[..i]), Names(d.peers[..i]))
    {
      PrefixPeers(d.peers, i);
      failure := OnePeer(b, d.peers[i], risks, d.shards, Relation(d.peers[..i]), Names(d.peers[..i]));
      if failure.Some? {
        if failure.value == Conflict {
          ConflictStays(d.peers, i + 1);
        }
        return;
      }
    }
    assert d.peers[..|d.peers|] == d.peers;
    NotCaused(b, risks);
    return None;
  }

  lemma NotCaused(b: SmartBackend, risks: Risks)
    ensures Caused(b, risks, None)
  {
  }

  lemma NoPeers(peers: seq<Peer>)
    ensures Relation(peers[..0]) == {} && Names(peers[..0]) == {}
  {
  }

  lemma PrefixPeers(peers: seq<Peer>, i: nat)
    requires i < |peers|
    ensures Relation(peers[..i + 1]) == Relation(peers[..i]) + PeerClaims(peers[i], |peers[i].partitions|)
    ensures Names(peers[..i + 1]) == Names(peers[..i]) + {peers[i].target}
  {
    assert peers[..i + 1][..i] == peers[..i];
  }

  method OnePeer(b: SmartBackend, p: Peer, risks: Risks, ghost shards: nat, ghost rel: set<Claim>,
                 ghost names: set<Target>)
    returns (failure: Option<Failure>)
    requires b.Valid() && Drafted(b.refresher, shards, rel, names)
    modifies b, b.endpoints
    ensures b.Valid() && b.refresher.Building? && b.snapshot == old(b.snapshot)
    ensures Grows(b) && SameActive(b)
    ensures failure.None? ==> Drafted(b.refresher, shards, rel + PeerClaims(p, |p.partitions|), names + {p.target})
    ensures failure == Some(Conflict) ==> !Functional(rel + PeerClaims(p, |p.partitions|))
    ensures failure.Some? ==> failure.value in {Cancelled, FactoryFailed, NilConnection, Conflict}
    ensures Caused(b, risks, failure)
  {
    hide Inv, SmartBackend.Nodes, Draws, Functional;
    Interfere(b, {}, true, 0);
    var ended := ContextEnds(b, risks);
    if ended {
      return Some(Cancelled);
    }
    ghost var before := b.refresher.draft;
    failure := EndpointFor(b, p.target, risks);
    if failure.None? {
      TargetDraws(before, rel, names, p.target, b.refresher.draft.targets[p.target]);
      var conflict := AddRoutes(b, p, shards, rel, names + {p.target});
      if conflict {
        failure := Some(Conflict);
      }
    }
  }

  lemma ConflictStays(peers: seq<Peer>, i: nat)
    requires i <= |peers| && !Functional(Relation(peers[..i]))
    ensures !Functional(Relation(peers))
  {
    forall c | c in Relation(peers[..i])
      ensures c in Relation(peers)
    {
      RelationMember(peers[..i], c);
      RelationMember(peers, c);
    }
  }

  /** The snapshot has distinct endpoints for distinct targets, and routes exactly these claims. */
  predicate Announces(snapshot: Option<Topology>, shards: nat, rel: set<Claim>, names: set<Target>) {
    && snapshot.Some? && snapshot.value.shards == shards
    && Injective(snapshot.value.targets) && Draws(snapshot.value, rel, names)
  }

  /** There is a route, and all routes are for shards below the count. */
  predicate Usable(snapshot: Option<Topology>) {
    && snapshot.Some? && snapshot.value.routes != map[]
    && forall k :: k in snapshot.value.routes ==> k.shard < snapshot.value.shards
  }

  /** The snapshot is the announced topology. */
  predicate Publishes(snapshot: Option<Topology>, d: Discovered) {
    Announces(snapshot, d.shards, Relation(d.peers), Names(d.peers))
  }

  /**
   Publish a discovered topology. Unless the attempt is cancelled, the client closed, or the factory
   fails, it is accepted exactly when the announced relation is functional and not empty; the new
   snapshot then routes the whole relation. Otherwise the last good snapshot stays.
   */
  method Publish(b: SmartBackend, d: Discovered, risks: Risks) returns (failure: Option<Failure>)
    requires b.Valid() && b.refresher.Gated?
    modifies b, b.endpoints
    ensures b.Valid() && b.refresher.Gated?
    ensures Grows(b) && SameActive(b)
    ensures failure.None? ==> Functional(Relation(d.peers)) && Relation(d.peers) != {} && Publishes(b.snapshot, d)
    ensures failure.Some? ==> b.snapshot == old(b.snapshot)
    ensures failure == Some(Conflict) ==> !Functional(Relation(d.peers))
    ensures failure == Some(NoRoutes) ==> Relation(d.peers) == {}
    ensures failure.Some? ==> failure.value in {Cancelled, FactoryFailed, NilConnection, Conflict, NoRoutes}
    ensures Caused(b, risks, failure)
    ensures Calm(b, risks) ==> (failure.None? <==> Functional(Relation(d.peers)) && Relation(d.peers) != {})
  {
    hide Inv, Apply, SmartBackend.View, Functional, Announces, Draws, Relation, Names;
    failure := BuildDraft(b, d, risks);
    if failure.None? {
      failure := CommitOrNot(b, d.shards, risks, Relation(d.peers), Names(d.peers));
    }
    LeavePublish(b);
  }

  /** The deferred part of `publish`: close what an unfinished publication has created, and unpin. */
  method LeavePublish(b: SmartBackend)
    requires b.Valid() && (b.refresher.Building? || b.refresher.Unpinning?)
    modifies b, b.endpoints
    ensures b.Valid() && b.refresher.Gated? && b.snapshot == old(b.snapshot)
    ensures Grows(b) && SameActive(b)
  {
    hide Inv, Retire, OpenOnes;
    if b.refresher.Building? {
      b.AbortPublish();
    }
    Interfere(b, {}, true, 0);
    b.UnpinAll();
  }

  /** The end of `publish`: refuse an empty topology, commit the draft if nobody has cancelled. */
  method CommitOrNot(b: SmartBackend, shards: nat, risks: Risks, ghost rel: set<Claim>, ghost names: set<Target>)
    returns (failure: Option<Failure>)
    requires b.Valid() && Drafted(b.refresher, shards, rel, names)
    modifies b, b.endpoints
    ensures b.Valid() && Grows(b) && SameActive(b)
    ensures failure.None? ==> b.refresher.Unpinning? && Functional(rel) && rel != {}
    ensures failure.None? ==> Announces(b.snapshot, shards, rel, names)
    ensures failure.Some? ==> b.refresher.Building? && b.snapshot == old(b.snapshot)
    ensures failure.Some? ==> failure.value in {NoRoutes, Cancelled}
    ensures failure == Some(NoRoutes) ==> rel == {}
    ensures failure == Some(Cancelled) ==> risks.cancel || b.closed
  {
    hide Inv, SmartBackend.Nodes, SmartBackend.View, Injective, Functional, Draws;
    var d := b.refresher.draft;
    DraftInjective(b);
    EmptyDraw(d, rel, names);
    DrawnIsFunctional(d, rel, names);
    if d.routes == map[] {
      return Some(NoRoutes);
    }
    failure := CommitUnlessEnded(b, risks);
  }

  lemma DraftInjective(b: SmartBackend)
    requires b.Valid() && b.refresher.Building?
    ensures Injective(b.refresher.draft.targets)
  {
    hide Inv, Injective, SmartBackend.Nodes;
    DraftAccess(b.View());
  }

  /** Commit the draft after any steps of other threads, unless the context has ended or the client is closed. */
  method CommitUnlessEnded(b: SmartBackend, risks: Risks) returns (failure: Option<Failure>)
    requires b.Valid() && b.refresher.Building? && b.refresher.missed.None?
    modifies b, b.endpoints
    ensures b.Valid() && Grows(b) && SameActive(b)
    ensures failure.None? ==> b.refresher.Unpinning? && b.snapshot == Some(old(b.refresher).draft)
    ensures failure.Some? ==> failure.value == Cancelled && b.refresher.Building? && b.snapshot == old(b.snapshot)
    ensures failure.Some? ==> risks.cancel || b.closed
  {
    hide Inv, SmartBackend.Nodes, Retire, Activate;
    Interfere(b, {}, true, 0);
    var ended := ContextEnds(b, risks);
    ghost var s := b.View();
    var ok := b.CommitDraft(ended);
    if ok {
      RetireSnapshot(Published(s));
    }
    failure := if ok then None else Some(Cancelled);
  }

  lemma RetireSnapshot(s: State)
    ensures Retire(s).snapshot == s.snapshot && Retire(s).refresher == s.refresher
  {
  }

  lemma EmptyDraw(d: Topology, rel: set<Claim>, names: set<Target>)
    requires Draws(d, rel, names)
    ensures d.routes == map[] <==> rel == {}
  {
    if d.routes != map[] {
      var k :| k in d.routes;
    }
    if rel != {} {
      var c :| c in rel;
    }
  }

  // ---- discover

  /** Dial the coordinator and keep the connection, or close it when the client was closed meanwhile. */
  method DialCoordinator(b: SmartBackend, target: Target, risks: Risks) returns (failure: Option<Failure>)
    requires b.Valid() && b.refresher.Gated? && target !in b.coordinatorConnections
    modifies b, b.endpoints
    ensures b.Valid() && b.refresher.Gated? && b.snapshot == old(b.snapshot)
    ensures Grows(b) && SameActive(b)
    ensures |b.issued| <= |old(b.issued)| + 1
    ensures failure.None? ==> |b.issued| == |old(b.issued)| + 1
    ensures failure.None? ==>
              b.coordinatorConnections == old(b.coordinatorConnections)[target := b.issued[|old(b.issued)|].connection]
    ensures failure.Some? ==> b.coordinatorConnections == old(b.coordinatorConnections)
    ensures failure.Some? ==> failure.value in {FactoryFailed, NilConnection, Cancelled}
    ensures Caused(b, risks, failure)
  {
    hide Inv, SmartBackend.View;
    Interfere(b, {}, true, 0);
    var fails: bool := false;
    if risks.factory {
      fails := *;
    }
    if fails {
      return Some(FactoryFailed);
    }
    var c := AnyConnection(b, risks.factory);
    b.Dialed(target, c);
    if !c.usable {
      return Some(NilConnection);
    }
    Interfere(b, {}, true, 0);
    var closed := b.closed;
    b.StoreCoordinator();
    failure := if closed then Some(Cancelled) else None;
  }

  /** At most one answer, from this coordinator. */
  predicate HeardFrom(heard: seq<Announcement>, target: Target) {
    |heard| <= 1 && (heard != [] ==> heard[0].target == target)
  }

  /** Ask one coordinator, over a connection that is dialed once and kept, and check its answer. */
  method Discover(b: SmartBackend, world: Coordinators, target: Target, risks: Risks)
    returns (r: Result<Discovered, Failure>, ghost heard: seq<Announcement>)
    requires b.Valid() && b.refresher.Gated?
    modifies b, b.endpoints, world
    ensures b.Valid() && b.refresher.Gated? && b.snapshot == old(b.snapshot)
    ensures Grows(b) && SameActive(b)
    ensures target in old(b.coordinatorConnections) ==>
              b.issued == old(b.issued) && b.coordinatorConnections == old(b.coordinatorConnections)
    ensures target !in old(b.coordinatorConnections) && heard == [] ==>
              |b.issued| <= |old(b.issued)| + 1 && b.coordinatorConnections == old(b.coordinatorConnections)
    ensures target !in old(b.coordinatorConnections) && heard != [] ==>
              |b.issued| == |old(b.issued)| + 1 &&
              b.coordinatorConnections == old(b.coordinatorConnections)[target := b.issued[|old(b.issued)|].connection]
    ensures world.heard == old(world.heard) + heard && HeardFrom(heard, target)
    ensures heard == [] ==>
              r.Err? && r.error in {FactoryFailed, NilConnection, Cancelled} && Caused(b, risks, Some(r.error))
    ensures heard != [] ==> (r.Ok? <==> Sound(heard[0])) && (r.Ok? ==> r.value == Told(heard[0]))
    ensures heard != [] && r.Err? ==> r.error in {DataLoss, Unavailable, StreamBroken}
  {
    hide Inv, Apply, SmartBackend.View, CountsAgree;
    heard := [];
    if target !in b.coordinatorConnections {
      var failure := DialCoordinator(b, target, risks);
      if failure.Some? {
        return Err(failure.value), heard;
      }
    }
    Interfere(b, {}, true, 0);
    var a := world.Listen(target);
    heard := [a];
    r := Consume(a.stream, a.broken);
  }

  // ---- refresh

  /** One discovery and, if it succeeds, one publication: unless something outside goes wrong, the
      coordinator answers, and its answer is published exactly when it is publishable. */
  method Attempt(b: SmartBackend, world: Coordinators, target: Target, risks: Risks)
    returns (failure: Option<Failure>, ghost heard: seq<Announcement>)
    requires b.Valid() && b.refresher.Gated?
    modifies b, b.endpoints, world
    ensures b.Valid() && b.refresher.Gated?
    ensures Grows(b) && SameActive(b)
    ensures world.heard == old(world.heard) + heard && HeardFrom(heard, target)
    ensures failure.None? ==> heard != [] && Publishable(heard[0]) && Publishes(b.snapshot, Told(heard[0]))
    ensures failure.None? ==> b.snapshot.Some? && Usable(b.snapshot) && Mirrors(b.snapshot.value, heard[0].stream)
    ensures failure.Some? ==> b.snapshot == old(b.snapshot)
    ensures Caused(b, risks, failure)
    ensures Calm(b, risks) ==> heard != [] && (failure.None? <==> Publishable(heard[0]))
  {
    hide Inv, SmartBackend.View, Functional, Injective, Relation, Names, StreamOk, Announces, Mirrors;
    var r;
    r, heard := Discover(b, world, target, risks);
    if r.Err? {
      return Some(r.error), heard;
    }
    failure := Publish(b, r.value, risks);
    if failure.None? {
      PublishedIsUsable(b.snapshot, heard[0]);
      PublishedMirrors(b.snapshot, heard[0]);
    }
  }

  lemma PublishedIsUsable(snapshot: Option<Topology>, a: Announcement)
    requires Publishable(a) && Publishes(snapshot, Told(a))
    ensures snapshot.Some? && Usable(snapshot)
  {
    var d := Told(a);
    hide Functional, Injective, Relation, Names;
    EmptyDraw(snapshot.value, Relation(d.peers), Names(d.peers));
    forall k | k in snapshot.value.routes
      ensures k.shard < d.shards
    {
      var c :| c in Relation(d.peers) && c.0 == k;
      ShardsBelowCount(d, c);
    }
  }

  lemma PublishedMirrors(snapshot: Option<Topology>, a: Announcement)
    requires Sound(a) && Publishes(snapshot, Told(a))
    ensures snapshot.Some? && Mirrors(snapshot.value, a.stream)
  {
    hide Draws, Injective, Relation, Names, Mirrors, Sound;
    DrawnMirrors(snapshot.value, a);
  }

  /** What a successful rotation over the coordinators did: the last answer was published. */
  ghost predicate Rotated(b: SmartBackend, tried: seq<nat>, heard: seq<Announcement>, failure: Option<Failure>)
    reads b`snapshot, b`activeCoordinator
  {
    failure.None? ==>
      && b.snapshot.Some? && tried != [] && heard != [] && b.activeCoordinator == tried[|tried| - 1] < |b.coordinators|
      && heard[|heard| - 1].target == b.coordinators[b.activeCoordinator]
      && Publishable(heard[|heard| - 1]) && Publishes(b.snapshot, Told(heard[|heard| - 1])) && Usable(b.snapshot)
      && Mirrors(b.snapshot.value, heard[|heard| - 1].stream)
  }

  /** Every coordinator that was tried has answered, and only the last answer was publishable, if any. */
  predicate AllAnswered(coordinators: seq<Target>, tried: seq<nat>, heard: seq<Announcement>, success: bool) {
    && |heard| == |tried|
    && (forall i :: 0 <= i < |heard| ==> tried[i] < |coordinators| && heard[i].target == coordinators[tried[i]])
    && (forall i :: 0 <= i < |heard| && (!success || i + 1 < |heard|) ==> !Publishable(heard[i]))
  }

  /**
   Try the coordinators in rotation, from the active one, each at most once. The first publishable answer
   becomes the snapshot and its coordinator the active one; when all fail, the last good snapshot and
   the active coordinator stay.
   */
  method RefreshHoldingGate(b: SmartBackend, world: Coordinators, risks: Risks)
    returns (failure: Option<Failure>, tried: seq<nat>, ghost heard: seq<Announcement>)
    requires b.Valid() && b.refresher.Gated?
    modifies b, b.endpoints, world
    ensures b.Valid() && b.refresher.Gated?
    ensures Grows(b)
    ensures |tried| <= |b.coordinators| && world.heard == old(world.heard) + heard
    ensures forall i :: 0 <= i < |tried| ==> tried[i] == (old(b.activeCoordinator) + i) % |b.coordinators|
    ensures Rotated(b, tried, heard, failure) && Caused(b, risks, failure)
    ensures failure.Some? ==> b.snapshot == old(b.snapshot) && b.activeCoordinator == old(b.activeCoordinator)
    ensures failure.Some? && !risks.cancel && !b.closed ==> |tried| == |b.coordinators|
    ensures Calm(b, risks) ==> AllAnswered(b.coordinators, tried, heard, failure.None?)
  {
    hide Inv, SmartBackend.View, Usable, Publishable, Publishes, AllAnswered, Mirrors;
    var start := b.activeCoordinator;
    tried, heard, failure := [], [], None;
    NoAnswer(b.coordinators);
    for n := 0 to |b.coordinators|
      invariant b.Valid() && b.refresher.Gated? && b.snapshot == old(b.snapshot)
      invariant b.activeCoordinator == start && |tried| == n && (n > 0 ==> failure.Some?)
      invariant Grows(b) && world.heard == old(world.heard) + heard
      invariant forall i :: 0 <= i < |tried| ==> tried[i] == (start + i) % |b.coordinators|
      invariant Caused(b, risks, failure)
      invariant Calm(b, risks) ==> AllAnswered(b.coordinators, tried, heard, false)
    {
      var ended := ContextEnds(b, risks);
      if ended {
        failure := Some(Cancelled);
        return;
      }
      var index := (start + n) % |b.coordinators|;
      ghost var more;
      failure, more := Attempt(b, world, b.coordinators[index], risks);
      if Calm(b, risks) {
        OneMoreAnswer(b.coordinators, tried, heard, index, more[0]);
        assert more == [more[0]];
      }
      tried, heard := tried + [index], heard + more;
      if failure.None? {
        assert more == [more[0]];
        b.SetActive(index);
        return;
      }
    }
  }

  lemma NoAnswer(coordinators: seq<Target>)
    ensures AllAnswered(coordinators, [], [], false)
  {
  }

  lemma OneMoreAnswer(coordinators: seq<Target>, tried: seq<nat>, heard: seq<Announcement>, index: nat, a: Announcement)
    requires index < |coordinators| && a.target == coordinators[index] && AllAnswered(coordinators, tried, heard, false)
    ensures AllAnswered(coordinators, tried + [index], heard + [a], Publishable(a))
  {
    hide Publishable;
  }

  lemma NotRotated(b: SmartBackend, risks: Risks)
    requires risks.cancel || b.closed
    ensures Rotated(b, [], [], Some(Cancelled)) && Caused(b, risks, Some(Cancelled))
  {
  }

  lemma RotatedHasSnapshot(b: SmartBackend, tried: seq<nat>, heard: seq<Announcement>, failure: Option<Failure>)
    requires Rotated(b, tried, heard, failure) && failure.None?
    ensures b.snapshot.Some?
  {
  }

  /**
   `Refresh`: enter, wait for the gate, refresh, leave. Success means that a coordinator's answer is the
   snapshot now. When nothing outside goes wrong, failure means that every coordinator was asked and
   none gave a publishable answer.
   */
  method Refresh(b: SmartBackend, world: Coordinators, risks: Risks)
    returns (failure: Option<Failure>, ghost tried: seq<nat>, ghost heard: seq<Announcement>)
    requires b.Valid()
    modifies b, b.endpoints, world
    ensures b.Valid() && Grows(b)
    ensures world.heard == old(world.heard) + heard && |tried| <= |b.coordinators|
    ensures Rotated(b, tried, heard, failure) && Caused(b, risks, failure)
    ensures old(b.snapshot).Some? ==> b.snapshot.Some?
    ensures old(b.closed) ==> failure == Some(Cancelled) && heard == []
    ensures Calm(b, risks) ==> AllAnswered(b.coordinators, tried, heard, failure.None?)
    ensures Calm(b, risks) && failure.Some? ==> |tried| == |b.coordinators|
  {
    hide Inv, SmartBackend.View, AllAnswered, Rotated, Caused;
    tried, heard := [], [];
    var entered := b.Enter();
    if !entered {
      NotRotated(b, risks);
      return Some(Cancelled), tried, heard;
    }
    Interfere(b, {}, false, 1);
    var ended := ContextEnds(b, risks);
    if ended {
      b.GiveUp();
      NotRotated(b, risks);
      return Some(Cancelled), tried, heard;
    }
    LeaveGate(b);
    b.TakeGate();
    failure, tried, heard := RefreshHoldingGate(b, world, risks);
    if failure.None? {
      RotatedHasSnapshot(b, tried, heard, failure);
    }
    b.ReleaseGate();
  }
}
