/**
 The smart backend of smart.go as a class. Each locked section is a method that does to the state
 what the corresponding step of the transition system does; `Publish`, `Discover` and `Refresh`
 are composed of them, with other threads' steps in between (`Interfere`).
 The locals of calls in flight (`runs`, `refresher`, `waiting`) are fields here, so that the state
 of every thread is part of the backend's state.
 */
module SmartBackends {
  import opened Wrappers
  import opened Endpoints
  import opened Lifecycle
  import Rounds

  class SmartBackend {
    const coordinators: seq<Target>
    var coordinatorConnections: map<Target, Connection>
    var activeCoordinator: nat
    var snapshot: Option<Topology>
    var nodes: map<Target, Endpoint>
    var closed: bool
    var finished: bool
    var round: Rounds.Counter

    var runs: map<nat, Topology>
    var waiting: nat
    var refresher: Refresher

    var issued: seq<Issue>
    var closes: multiset<int>

    ghost var endpoints: set<Endpoint>

    ghost function Nodes(): map<Endpoint, Node>
      reads this`endpoints, endpoints
    {
      map e | e in endpoints :: Node(e.refs, e.active, e.closed)
    }

    ghost function View(): State
      reads this, endpoints
    {
      State(nodes, Nodes(), snapshot, coordinatorConnections, closed, finished, runs, waiting, refresher,
            issued, closes)
    }

    ghost predicate Valid()
      reads this, endpoints
    {
      Inv(View()) && activeCoordinator < |coordinators|
    }

    constructor (coordinators: seq<Target>)
      requires coordinators != []
      ensures Valid() && View() == INITIAL && this.coordinators == coordinators
    {
      this.coordinators := coordinators;
      coordinatorConnections, activeCoordinator, snapshot, nodes := map[], 0, None, map[];
      closed, finished, round, runs, waiting, refresher := false, false, 0, map[], 0, Idle;
      issued, closes, endpoints := [], multiset{}, {};
      new;
      InitialInv();
      assert View() == INITIAL;
    }

    // ---- helpers inside the lock

    method Bump(ep: Endpoint, delta: int)
      requires ep in endpoints
      modifies {ep}`refs
      ensures Nodes() == AddRefs(old(Nodes()), {ep}, delta)
    {
      ep.refs := ep.refs + delta;
    }

    /** `ep.refs += delta` for every entry of `m`. */
    method Shift(m: map<Target, Endpoint>, delta: int)
      requires Injective(m) && m.Values <= endpoints
      modifies endpoints
      ensures Nodes() == AddRefs(old(Nodes()), m.Values, delta)
    {
      var todo := m.Keys;
      assert m - todo == map[];
      assert AddRefs(Nodes(), (m - todo).Values, delta) == Nodes();
      hide *;
      while todo != {}
        invariant todo <= m.Keys
        invariant Nodes() == AddRefs(old(Nodes()), (m - todo).Values, delta)
        decreases todo
      {
        var t :| t in todo;
        TodoValues(m, todo, t);
        AddRefsTwice(old(Nodes()), (m - todo).Values, m[t], delta);
        Bump(m[t], delta);
        todo := todo - {t};
      }
      assert m - {} == m;
    }

    /** The body of the `retireLocked` loop. */
    method RetireIfIdle(target: Target)
      requires target in View().nodes && View().nodes[target] in View().info
      modifies this`nodes, this`closes, endpoints
      ensures View() == RetireTurn(old(View()), target)
    {
      var ep := nodes[target];
      if !ep.active && ep.refs == 0 {
        nodes := nodes - {target};
        if !ep.closed {
          closes := CloseOne(closes, ep.connection);
        }
        ep.closed := true;
        assert View().info == MarkClosed(old(View().info), {ep});
      }
    }

    method RetireLocked()
      requires InvBeforeRetire(View())
      modifies this`nodes, this`closes, endpoints
      ensures View() == Retire(old(View()))
    {
      ghost var s := View();
      RetireAccess(s);
      var todo := nodes.Keys;
      RetireNone(s);
      hide *;
      while todo != {}
        invariant todo <= s.nodes.Keys
        invariant View() == RetirePart(s, s.nodes - todo)
        decreases todo
      {
        var target :| target in todo;
        RetireNext(s, todo, target);
        RetireIfIdle(target);
        todo := todo - {target};
      }
      RetireAll(s);
    }

    // ---- run (smart.go:373-395)

    /** The locked section that starts a run: capture the snapshot and pin every endpoint in it. */
    method RunBegin(run: nat) returns (ok: bool)
      requires Valid() && run !in runs
      modifies this`runs, endpoints
      ensures Valid() && ok == (!closed && snapshot.Some?) && (run in runs <==> ok)
      ensures ok ==> Some(runs[run]) == snapshot
      ensures View() == if ok then Apply(old(View()), Step.RunBegin(run)) else old(View())
    {
      hide Inv, InvBeforeRetire;
      ok := !closed && snapshot.Some?;
      if ok {
        ghost var s := View();
        StepKeeps(s, Step.RunBegin(run));
        SnapshotAccess(s);
        Shift(snapshot.value.targets, 1);
        runs := runs[run := snapshot.value];
      }
    }

    /** The atomic counter that calls without a hint share. */
    method Tick() returns (value: Rounds.Counter)
      requires Valid()
      modifies this`round
      ensures Valid() && View() == old(View()) && value == round == Rounds.Next(old(round))
    {
      round := Rounds.Next(round);
      value := round;
    }

    /** The locked section that ends a run: unpin, and close what nobody needs any more. */
    method RunEnd(run: nat)
      requires Valid() && run in runs
      modifies this`runs, this`nodes, this`closes, endpoints
      ensures Valid() && View() == Apply(old(View()), Step.RunEnd(run)) && run !in runs
    {
      hide Inv, InvBeforeRetire, Retire;
      ghost var s := View();
      StepKeeps(s, Step.RunEnd(run));
      RunAccess(s, run);
      RunEndBeforeRetire(s, run);
      Shift(runs[run].targets, -1);
      runs := runs - {run};
      RetireLocked();
    }

    // ---- refresh (smart.go:168-212): the gate

    method Enter() returns (ok: bool)
      requires Valid()
      modifies this`waiting
      ensures Valid() && ok == !closed && (ok ==> waiting == old(waiting) + 1)
      ensures View() == if ok then Apply(old(View()), Step.Enter) else old(View())
    {
      hide Inv;
      ok := !closed;
      if ok {
        StepKeeps(View(), Step.Enter);
        waiting := waiting + 1;
      }
    }

    method GiveUp()
      requires Valid() && waiting > 0
      modifies this`waiting
      ensures Valid() && View() == Apply(old(View()), Step.GiveUp) && waiting == old(waiting) - 1
    {
      hide Inv;
      StepKeeps(View(), Step.GiveUp);
      waiting := waiting - 1;
    }

    method TakeGate()
      requires Valid() && waiting > 0 && refresher.Idle?
      modifies this`waiting, this`refresher
      ensures Valid() && View() == Apply(old(View()), Step.TakeGate) && waiting == old(waiting) - 1 && refresher.Gated?
    {
      hide Inv;
      StepKeeps(View(), Step.TakeGate);
      waiting, refresher := waiting - 1, Gated;
    }

    method ReleaseGate()
      requires Valid() && refresher.Gated?
      modifies this`refresher
      ensures Valid() && View() == Apply(old(View()), Step.ReleaseGate) && refresher.Idle?
    {
      hide Inv;
      StepKeeps(View(), Step.ReleaseGate);
      refresher := Idle;
    }

    method SetActive(index: nat)
      requires Valid() && refresher.Gated? && index < |coordinators|
      modifies this`activeCoordinator
      ensures Valid() && activeCoordinator == index && View() == old(View())
    {
      activeCoordinator := index;
    }

    // ---- discover (smart.go:219-246): the coordinator connection

    method Dialed(target: Target, c: Connection)
      requires Valid() && refresher.Gated? && target !in coordinatorConnections && c.handle == |issued|
      modifies this`refresher, this`issued, this`closes
      ensures Valid() && View() == Apply(old(View()), Step.Dialed(target, c))
      ensures refresher == if c.usable then Holding(target, c) else Gated
      ensures |issued| == |old(issued)| + 1 && issued[|old(issued)|].connection == c
    {
      hide Inv;
      StepKeeps(View(), Step.Dialed(target, c));
      if c.usable {
        issued, refresher := issued + [Issue(c, ForCoordinator(target))], Holding(target, c);
      } else {
        issued, closes := issued + [Issue(c, Unusable)], CloseOne(closes, c);
      }
    }

    method StoreCoordinator()
      requires Valid() && refresher.Holding?
      modifies this`refresher, this`coordinatorConnections, this`closes
      ensures Valid() && View() == Apply(old(View()), Step.Store) && refresher.Gated?
      ensures coordinatorConnections ==
              if closed then old(coordinatorConnections)
              else old(coordinatorConnections)[old(refresher).target := old(refresher).connection]
    {
      hide Inv;
      StepKeeps(View(), Step.Store);
      var c := refresher.connection;
      if closed {
        closes := CloseOne(closes, c);
      } else {
        coordinatorConnections := coordinatorConnections[refresher.target := c];
      }
      refresher := Gated;
    }

    // ---- publish (smart.go:280-361)

    method StartPublish(shards: ShardCount)
      requires Valid() && refresher.Gated?
      modifies this`refresher
      ensures Valid() && View() == Apply(old(View()), Step.StartPublish(shards))
    {
      hide Inv;
      StepKeeps(View(), Step.StartPublish(shards));
      refresher := Building([], map[], Topology(shards, map[], map[]), None);
    }

    /** The locked lookup: reuse and pin the endpoint of a known target. */
    method Lookup(target: Target)
      requires Valid() && refresher.Building? && refresher.missed.None? && target !in refresher.draft.targets
      modifies this`refresher, endpoints
      ensures Valid() && View() == Apply(old(View()), Step.Lookup(target))
    {
      hide Inv, AddRefs, AddTarget, Injective;
      ghost var s := View();
      StepKeeps(s, Step.Lookup(target));
      TableAccess(s);
      if target in nodes {
        var ep := nodes[target];
        assert ep in s.nodes.Values;
        Bump(ep, 1);
        refresher := refresher.(pinned := refresher.pinned + [ep], draft := AddTarget(refresher.draft, target, ep));
      } else {
        refresher := refresher.(missed := Some(target));
      }
    }

    /** The factory has returned a usable connection for the missed target. */
    method CreateNode(c: Connection) returns (ep: Endpoint)
      requires Valid() && refresher.Building? && refresher.missed.Some? && c.handle == |issued| && c.usable
      modifies this`refresher, this`issued, this`endpoints
      ensures fresh(ep) && ep.connection == c && endpoints == old(endpoints) + {ep}
      ensures Enabled(old(View()), Step.Created(ep)) && View() == Apply(old(View()), Step.Created(ep))
      ensures Valid()
    {
      hide Inv, Retire;
      ghost var s := View();
      ep := NewNode(c);
      StepKeeps(s, Step.Created(ep));
      var target := refresher.missed.value;
      issued := issued + [Issue(c, ForNode(ep))];
      refresher := refresher.(created := refresher.created[target := ep],
                              draft := AddTarget(refresher.draft, target, ep), missed := None);
    }

    method NewNode(c: Connection) returns (ep: Endpoint)
      modifies this`endpoints
      ensures fresh(ep) && ep.connection == c && endpoints == old(endpoints) + {ep} && ep !in old(Nodes())
      ensures Nodes() == old(Nodes())[ep := Node(0, false, false)]
    {
      ep := new Endpoint(c);
      endpoints := endpoints + {ep};
    }

    method RefuseNode(c: Connection)
      requires Valid() && refresher.Building? && refresher.missed.Some? && c.handle == |issued| && !c.usable
      modifies this`issued, this`closes
      ensures Valid() && View() == Apply(old(View()), Step.Refused(c))
    {
      hide Inv;
      StepKeeps(View(), Step.Refused(c));
      issued, closes := issued + [Issue(c, Unusable)], CloseOne(closes, c);
    }

    method AddRoute(key: RouteKey, target: Target)
      requires Valid() && Enabled(View(), Step.Route(key, target))
      modifies this`refresher
      ensures Valid() && View() == Apply(old(View()), Step.Route(key, target))
    {
      hide Inv;
      StepKeeps(View(), Step.Route(key, target));
      var d := refresher.draft;
      refresher := refresher.(draft := d.(routes := d.routes[key := d.targets[target]]));
    }

    /** The locked section that publishes the draft, unless the client was closed or the attempt cancelled. */
    method CommitDraft(cancelled: bool) returns (ok: bool)
      requires Valid() && refresher.Building? && refresher.missed.None?
      modifies this`nodes, this`snapshot, this`refresher, this`closes, endpoints
      ensures Valid() && ok == (!old(closed) && !cancelled) && (ok || old(snapshot).Some? ==> snapshot.Some?)
      ensures View() == if ok then Apply(old(View()), Step.Commit) else old(View())
    {
      hide Inv, InvBeforeRetire, Retire, Published, SmartBackend.Nodes;
      ok := !closed && !cancelled;
      if ok {
        ghost var s := View();
        StepKeeps(s, Step.Commit);
        DraftAccess(s);
        CommitBeforeRetire(s);
        InstallDraft();
        RetireLocked();
        RetireOnly(Published(s));
        PublishedDraft(s);
      }
    }

    /** The draft becomes the snapshot: its endpoints active, its targets in the table. */
    method InstallDraft()
      requires refresher.Building? && nodes.Values <= Nodes().Keys && refresher.draft.targets.Values <= Nodes().Keys
      modifies this`nodes, this`snapshot, this`refresher, endpoints
      ensures View() == Published(old(View()))
    {
      var d := refresher.draft;
      hide Activate;
      FlagActive(d.targets);
      nodes, snapshot, refresher := nodes + d.targets, Some(d), Unpinning(refresher.pinned);
    }

    /** The two loops of the commit: every endpoint of the table inactive, then the snapshot's active. */
    method FlagActive(targets: map<Target, Endpoint>)
      requires nodes.Values <= endpoints && targets.Values <= endpoints
      modifies endpoints
      ensures Nodes() == Activate(old(Nodes()), nodes.Values, targets.Values)
    {
      FlagAll(nodes, false);
      FlagAll(targets, true);
    }

    /** One loop: the flag of every endpoint of a table, and nothing else. */
    method FlagAll(targets: map<Target, Endpoint>, flag: bool)
      requires targets.Values <= endpoints
      modifies endpoints
      ensures forall e :: e in endpoints ==> e.active == (if e in targets.Values then flag else old(e.active))
      ensures forall e :: e in endpoints ==> e.refs == old(e.refs) && e.closed == old(e.closed)
    {
      var todo := targets.Keys;
      while todo != {}
        invariant todo <= targets.Keys
        invariant forall t :: t in targets && t !in todo ==> targets[t].active == flag
        invariant forall e :: e in endpoints && e.active != old(e.active) ==> e in targets.Values && e.active == flag
        invariant forall e :: e in endpoints ==> e.refs == old(e.refs) && e.closed == old(e.closed)
        decreases todo
      {
        var t :| t in todo;
        targets[t].active := flag;
        todo := todo - {t};
      }
    }

    /** `cleanup`: close what this publish has created. */
    method AbortPublish()
      requires Valid() && refresher.Building?
      modifies this`refresher, this`closes
      ensures Valid() && View() == Apply(old(View()), Step.Abort) && refresher.Unpinning?
    {
      hide Inv;
      ghost var s := View();
      StepKeeps(s, Step.Abort);
      DraftAccess(s);
      CloseAll(refresher.created);
      refresher := Unpinning(refresher.pinned);
    }

    /** Invoke the Close callbacks of all these endpoints' owned connections. */
    method CloseAll(m: map<Target, Endpoint>)
      requires Injective(m) && DistinctHandles(m.Values)
      modifies this`closes
      ensures closes == old(closes) + multiset(NodeHandles(m.Values))
    {
      var todo := m.Keys;
      ghost var done: set<Endpoint> := {};
      assert NodeHandles({}) == {};
      hide NodeHandles, CloseOne;
      while todo != {}
        invariant todo <= m.Keys && done == (m - todo).Values
        invariant closes == old(closes) + multiset(NodeHandles(done))
        decreases todo
      {
        var t :| t in todo;
        TodoValues(m, todo, t);
        GrowHandles(done, m[t]);
        CloseOneLast(old(closes), multiset(NodeHandles(done)), m[t].connection);
        closes := CloseOne(closes, m[t].connection);
        todo, done := todo - {t}, done + {m[t]};
      }
      assert m - {} == m;
    }

    /** The deferred unpin of `publish`. */
    method UnpinAll()
      requires Valid() && refresher.Unpinning?
      modifies this`refresher, this`nodes, this`closes, endpoints
      ensures Valid() && View() == Apply(old(View()), Step.Unpin) && refresher.Gated?
    {
      hide Inv, InvBeforeRetire, Retire;
      ghost var s := View();
      var pinned := refresher.pinned;
      StepKeeps(s, Step.Unpin);
      PinAccess(s);
      UnpinBeforeRetire(s);
      Release(pinned);
      refresher := Gated;
      RetireLocked();
    }

    /** `ep.refs--` for every pinned endpoint. */
    method Release(pinned: seq<Endpoint>)
      requires Distinct(pinned) && forall e :: e in pinned ==> e in endpoints
      modifies endpoints
      ensures Nodes() == AddRefs(old(Nodes()), Elements(pinned), -1)
    {
      assert AddRefs(Nodes(), Elements(pinned[..0]), -1) == Nodes();
      hide AddRefs, Elements, Nodes;
      for i := 0 to |pinned|
        invariant Nodes() == AddRefs(old(Nodes()), Elements(pinned[..i]), -1)
      {
        PrefixElements(pinned, i);
        AddRefsTwice(old(Nodes()), Elements(pinned[..i]), pinned[i], -1);
        Bump(pinned[i], -1);
      }
      assert pinned[..|pinned|] == pinned;
    }

    // ---- close (smart.go:464-490)

    method CloseBegin()
      requires Valid() && !closed
      modifies this`closed
      ensures Valid() && View() == Apply(old(View()), Step.CloseBegin) && closed
    {
      hide Inv;
      StepKeeps(View(), Step.CloseBegin);
      closed := true;
    }

    method CloseFinish()
      requires Valid() && closed && !finished && waiting == 0 && refresher.Idle?
      modifies this`finished, this`closes, endpoints
      ensures Valid() && View() == Apply(old(View()), Step.CloseFinish) && finished
    {
      hide Inv, Apply, MarkClosed, NodeHandles, ConnectionHandles, Injective, DistinctHandles, DistinctCoordinators,
        OpenOnes;
      ghost var s := View();
      StepKeeps(s, Step.CloseFinish);
      assert !finished;
      hide Enabled;
      CloseAccess(s);
      CloseFinishIs(s);
      CloseNodes();
      CloseCoordinators();
      finished := true;
    }

    /** Close and mark every endpoint of the table, as `close` does. */
    method CloseNodes()
      requires Injective(nodes) && nodes.Values <= endpoints && DistinctHandles(nodes.Values)
      requires OpenOnes(Nodes(), nodes.Values) == nodes.Values
      modifies this`closes, endpoints
      ensures View() == old(View()).(info := MarkClosed(old(Nodes()), nodes.Values),
                                     closes := old(closes) + multiset(NodeHandles(nodes.Values)))
    {
      ghost var s := View();
      var todo := nodes.Keys;
      CloseNone(s);
      assert s.nodes == nodes && s.info == Nodes();
      hide *;
      while todo != {}
        invariant todo <= s.nodes.Keys
        invariant View() == ClosePart(s, s.nodes - todo)
        decreases todo
      {
        var t :| t in todo;
        CloseNext(s, todo, t);
        CloseNode(t);
        todo := todo - {t};
      }
      ClosePartAll(s);
    }

    method CloseNode(t: Target)
      requires t in View().nodes && View().nodes[t] in View().info
      modifies this`closes, endpoints
      ensures View() == CloseTurn(old(View()), t)
    {
      var ep := nodes[t];
      if !ep.closed {
        closes := CloseOne(closes, ep.connection);
      }
      ep.closed := true;
      assert Nodes() == MarkClosed(old(Nodes()), {ep});
    }

    method CloseCoordinators()
      requires DistinctCoordinators(coordinatorConnections)
      modifies this`closes
      ensures closes == old(closes) + multiset(ConnectionHandles(coordinatorConnections))
    {
      var m := coordinatorConnections;
      var todo := m.Keys;
      assert m - todo == map[];
      assert ConnectionHandles(m - todo) == {};
      hide ConnectionHandles, CloseOne, DistinctCoordinators;
      while todo != {}
        invariant todo <= m.Keys
        invariant closes == old(closes) + multiset(ConnectionHandles(m - todo))
        decreases todo
      {
        var t :| t in todo;
        TodoConnections(m, todo, t);
        CloseOneLast(old(closes), multiset(ConnectionHandles(m - todo)), m[t]);
        closes := CloseOne(closes, m[t]);
        todo := todo - {t};
      }
      assert m - {} == m;
    }
  }

  lemma RouteEnabled(b: SmartBackend, key: RouteKey, target: Target)
    requires b.refresher.Building? && target in b.refresher.draft.targets
    ensures Enabled(b.View(), Step.Route(key, target))
  {
  }

  lemma PublishedDraft(s: State)
    requires s.refresher.Building?
    ensures Published(s).snapshot == Some(s.refresher.draft)
  {
  }

  lemma RetireOnly(s: State)
    ensures Retire(s).snapshot == s.snapshot
  {
  }

  lemma CloseFinishIs(s: State)
    requires Enabled(s, CloseFinish) && OpenOnes(s.info, s.nodes.Values) == s.nodes.Values
    ensures Apply(s, CloseFinish) ==
            s.(info := MarkClosed(s.info, s.nodes.Values), finished := true,
               closes := s.closes + multiset(NodeHandles(s.nodes.Values)) + multiset(ConnectionHandles(s.coordinators)))
  {
  }

  function ClosePart(s: State, seen: map<Target, Endpoint>): State {
    s.(info := MarkClosed(s.info, seen.Values), closes := s.closes + multiset(NodeHandles(seen.Values)))
  }

  function CloseTurn(s: State, t: Target): State
    requires t in s.nodes
  {
    var e := s.nodes[t];
    s.(info := MarkClosed(s.info, {e}),
       closes := if At(s.info, e).closed then s.closes else CloseOne(s.closes, e.connection))
  }

  lemma CloseNone(s: State)
    ensures ClosePart(s, s.nodes - s.nodes.Keys) == s
  {
    assert s.nodes - s.nodes.Keys == map[];
    assert NodeHandles({}) == {};
  }

  lemma ClosePartAll(s: State)
    ensures ClosePart(s, s.nodes - {}) ==
            s.(info := MarkClosed(s.info, s.nodes.Values), closes := s.closes + multiset(NodeHandles(s.nodes.Values)))
  {
    assert s.nodes - {} == s.nodes;
  }

  lemma CloseNext(s: State, todo: set<Target>, t: Target)
    requires Injective(s.nodes) && DistinctHandles(s.nodes.Values) && s.nodes.Values <= s.info.Keys
    requires OpenOnes(s.info, s.nodes.Values) == s.nodes.Values
    requires t in todo && todo <= s.nodes.Keys
    ensures var part := ClosePart(s, s.nodes - todo);
            && t in part.nodes && part.nodes[t] in part.info
            && ClosePart(s, s.nodes - (todo - {t})) == CloseTurn(part, t)
  {
    var e, done := s.nodes[t], (s.nodes - todo).Values;
    TodoValues(s.nodes, todo, t);
    GrowHandles(done, e);
    CloseOneLast(s.closes, multiset(NodeHandles(done)), e.connection);
    assert e in OpenOnes(s.info, s.nodes.Values);
    hide NodeHandles, Injective, DistinctHandles;
    MarkClosedTwice(s.info, done, {e});
    assert !At(ClosePart(s, s.nodes - todo).info, e).closed;
  }

  lemma AddRefsTwice(info: map<Endpoint, Node>, done: set<Endpoint>, e: Endpoint, delta: int)
    requires e !in done
    ensures AddRefs(AddRefs(info, done, delta), {e}, delta) == AddRefs(info, done + {e}, delta)
  {
  }

  lemma PrefixElements(es: seq<Endpoint>, i: nat)
    requires Distinct(es) && i < |es|
    ensures es[i] !in Elements(es[..i]) && Elements(es[..i + 1]) == Elements(es[..i]) + {es[i]}
  {
  }

  lemma MarkClosedTwice(info: map<Endpoint, Node>, a: set<Endpoint>, b: set<Endpoint>)
    ensures MarkClosed(MarkClosed(info, a), b) == MarkClosed(info, a + b)
  {
  }

  predicate DistinctCoordinators(m: map<Target, Connection>) {
    forall t, u :: t in m && u in m && m[t].handle == m[u].handle ==> t == u
  }

  lemma TodoConnections(m: map<Target, Connection>, todo: set<Target>, t: Target)
    requires DistinctCoordinators(m) && t in todo && todo <= m.Keys
    ensures multiset(ConnectionHandles(m - (todo - {t}))) == CloseOne(multiset(ConnectionHandles(m - todo)), m[t])
  {
    var small, big := m - todo, m - (todo - {t});
    var a, b := ConnectionHandles(small), ConnectionHandles(big);
    assert forall u :: u in small ==> u in big && big[u] == small[u];
    assert t in big && big[t] == m[t];
    assert forall u :: u in big && u != t ==> u in small;
    assert a <= b;
    if m[t].owned {
      assert b == a + {m[t].handle};
      assert m[t].handle !in a;
      assert multiset(b) == multiset(a) + multiset{m[t].handle};
    } else {
      assert b == a;
    }
  }

  lemma TodoValues(m: map<Target, Endpoint>, todo: set<Target>, t: Target)
    requires Injective(m) && t in todo && todo <= m.Keys
    ensures m[t] !in (m - todo).Values && (m - (todo - {t})).Values == (m - todo).Values + {m[t]}
    ensures (m - todo).Values + {m[t]} <= m.Values
  {
    var bigger := m - (todo - {t});
    KeptValues(m - todo, bigger);
    KeptValues(bigger, m);
    assert bigger[t] == m[t];
  }

  // ---- what the loops above may touch

  lemma SubMap(small: map<Target, Endpoint>, nodes: map<Target, Endpoint>, known: set<Endpoint>)
    requires TableOk(nodes, known) && Within(small, nodes)
    ensures Injective(small) && small.Values <= known
  {
  }

  lemma TableAccess(s: State)
    requires Inv(s)
    ensures s.nodes.Values <= s.info.Keys
  {
    hide RunsHeld, SnapshotHeld, ActiveExact, RefsExact, OpenUntilFinished, PinsOk, CreatedOk, DraftOk, LedgerExact,
      IssuesOk, NoneIdle;
  }

  lemma SnapshotAccess(s: State)
    requires Inv(s) && s.snapshot.Some?
    ensures Injective(s.snapshot.value.targets) && s.snapshot.value.targets.Values <= s.info.Keys
  {
    hide RunsHeld, ActiveExact, RefsExact, OpenUntilFinished, PinsOk, CreatedOk, DraftOk, LedgerExact, IssuesOk,
      NoneIdle, TableOk, Injective, Within;
    SubMap(s.snapshot.value.targets, s.nodes, s.info.Keys);
  }

  lemma RunAccess(s: State, run: nat)
    requires Inv(s) && run in s.runs
    ensures Injective(s.runs[run].targets) && s.runs[run].targets.Values <= s.info.Keys
  {
    hide SnapshotHeld, ActiveExact, RefsExact, OpenUntilFinished, PinsOk, CreatedOk, DraftOk, LedgerExact, IssuesOk,
      NoneIdle, TableOk, Injective, Within;
    SubMap(s.runs[run].targets, s.nodes, s.info.Keys);
  }

  lemma DraftAccess(s: State)
    requires Inv(s) && s.refresher.Building?
    ensures s.nodes.Values <= s.info.Keys && s.refresher.draft.targets.Values <= s.info.Keys
    ensures Injective(s.refresher.draft.targets)
    ensures Injective(s.refresher.created) && DistinctHandles(s.refresher.created.Values)
  {
    hide RunsHeld, SnapshotHeld, ActiveExact, RefsExact, OpenUntilFinished, PinsOk, LedgerExact, NoneIdle;
    CommitTable(s);
    hide IssuesOk, CreatedOk, DraftOk, TableOk, Injective, Within;
    SubMap(s.refresher.draft.targets, s.nodes + s.refresher.draft.targets, s.info.Keys);
  }

  lemma PinAccess(s: State)
    requires Inv(s)
    ensures Distinct(Pinned(s)) && (forall e :: e in Pinned(s) ==> e in s.info)
  {
    hide RunsHeld, SnapshotHeld, ActiveExact, RefsExact, OpenUntilFinished, CreatedOk, DraftOk, LedgerExact, IssuesOk,
      NoneIdle;
  }

  lemma CloseAccess(s: State)
    requires Inv(s)
    ensures Injective(s.nodes) && s.nodes.Values <= s.info.Keys && DistinctHandles(s.nodes.Values)
    ensures !s.finished ==> OpenOnes(s.info, s.nodes.Values) == s.nodes.Values
    ensures DistinctCoordinators(s.coordinators)
  {
    hide RunsHeld, SnapshotHeld, ActiveExact, RefsExact, PinsOk, CreatedOk, DraftOk, LedgerExact, NoneIdle;
  }

  /** `retireLocked` after the entries `seen`. */
  function RetirePart(s: State, seen: map<Target, Endpoint>): (r: State)
    ensures r.info.Keys == s.info.Keys
  {
    var gone := IdleNodes(seen, s.info);
    s.(nodes := s.nodes - IdleTargets(seen, s.info),
       info := MarkClosed(s.info, gone),
       closes := s.closes + multiset(NodeHandles(OpenOnes(s.info, gone))))
  }

  /** One turn of the `retireLocked` loop. */
  function RetireTurn(s: State, target: Target): State
    requires target in s.nodes
  {
    var e := s.nodes[target];
    if IsIdle(s.info, e) then
      s.(nodes := s.nodes - {target}, info := MarkClosed(s.info, {e}),
         closes := if At(s.info, e).closed then s.closes else CloseOne(s.closes, e.connection))
    else s
  }

  lemma TodoStep(nodes: map<Target, Endpoint>, todo: set<Target>, target: Target)
    requires target in todo && todo <= nodes.Keys
    ensures nodes - (todo - {target}) == (nodes - todo)[target := nodes[target]]
  {
  }

  lemma RetireNone(s: State)
    ensures RetirePart(s, s.nodes - s.nodes.Keys) == s
  {
    assert s.nodes - s.nodes.Keys == map[];
    assert NodeHandles({}) == {};
    assert IdleNodes(map[], s.info) == {};
    assert OpenOnes(s.info, {}) == {};
  }

  lemma RetireAll(s: State)
    ensures RetirePart(s, s.nodes - {}) == Retire(s)
  {
    assert s.nodes - {} == s.nodes;
  }

  lemma RetireNext(s: State, todo: set<Target>, target: Target)
    requires Injective(s.nodes) && DistinctHandles(s.nodes.Values) && s.nodes.Values <= s.info.Keys
    requires target in todo && todo <= s.nodes.Keys
    ensures var part := RetirePart(s, s.nodes - todo);
            && target in part.nodes && part.nodes[target] in part.info
            && RetirePart(s, s.nodes - (todo - {target})) == RetireTurn(part, target)
  {
    var e, seen := s.nodes[target], s.nodes - todo;
    hide IdleNodes, IdleTargets, OpenOnes, NodeHandles, DistinctHandles, Injective, IsIdle, MarkClosed, At, CloseOne,
      RetirePart, RetireTurn;
    TodoStep(s.nodes, todo, target);
    PartHas(s, seen, target);
    if IsIdle(s.info, e) {
      RetireIdle(s, seen, target);
    } else {
      RetireBusy(s, seen, target);
    }
  }

  lemma PartHas(s: State, seen: map<Target, Endpoint>, target: Target)
    requires Injective(s.nodes) && DistinctHandles(s.nodes.Values) && Within(seen, s.nodes)
    requires target in s.nodes && target !in seen
    ensures target in RetirePart(s, seen).nodes && RetirePart(s, seen).nodes[target] == s.nodes[target]
    ensures RetirePart(s, seen).info.Keys == s.info.Keys
  {
    hide IdleNodes, OpenOnes, NodeHandles, MarkClosed, At;
    PartNodes(s, seen, target);
  }

  /** A turn at an idle endpoint. */
  lemma RetireIdle(s: State, seen: map<Target, Endpoint>, target: Target)
    requires Injective(s.nodes) && DistinctHandles(s.nodes.Values) && Within(seen, s.nodes)
    requires target in s.nodes && target !in seen && s.nodes[target] in s.info && IsIdle(s.info, s.nodes[target])
    requires target in RetirePart(s, seen).nodes
    ensures RetirePart(s, seen[target := s.nodes[target]]) == RetireTurn(RetirePart(s, seen), target)
  {
    var e := s.nodes[target];
    hide IdleNodes, IdleTargets, OpenOnes, NodeHandles, DistinctHandles, Injective, IsIdle, MarkClosed, At, CloseOne,
      Within;
    RetireOne(s, seen, target);
    PartInfo(s, seen, e);
    PartNodes(s, seen, target);
    CloseOneLast(s.closes, multiset(NodeHandles(OpenOnes(s.info, IdleNodes(seen, s.info)))), e.connection);
  }

  /** A turn at an endpoint that is in use. */
  lemma RetireBusy(s: State, seen: map<Target, Endpoint>, target: Target)
    requires Injective(s.nodes) && DistinctHandles(s.nodes.Values) && Within(seen, s.nodes)
    requires target in s.nodes && target !in seen && s.nodes[target] in s.info && !IsIdle(s.info, s.nodes[target])
    requires target in RetirePart(s, seen).nodes
    ensures RetirePart(s, seen[target := s.nodes[target]]) == RetireTurn(RetirePart(s, seen), target)
  {
    hide IdleNodes, IdleTargets, OpenOnes, NodeHandles, DistinctHandles, Injective, IsIdle, MarkClosed, At, CloseOne,
      Within;
    RetireOne(s, seen, target);
    PartInfo(s, seen, s.nodes[target]);
    PartNodes(s, seen, target);
    assert IdleNodes(seen, s.info) + {} == IdleNodes(seen, s.info);
    assert IdleTargets(seen, s.info) + {} == IdleTargets(seen, s.info);
  }

  lemma CloseOneLast(a: multiset<int>, b: multiset<int>, c: Connection)
    ensures a + CloseOne(b, c) == CloseOne(a + b, c)
  {
  }

  lemma PartNodes(s: State, seen: map<Target, Endpoint>, target: Target)
    requires target in s.nodes && target !in seen
    ensures var part := RetirePart(s, seen);
            && target in part.nodes && part.nodes[target] == s.nodes[target]
            && part.nodes - {target} == s.nodes - (IdleTargets(seen, s.info) + {target})
  {
    hide IdleNodes, OpenOnes, NodeHandles, MarkClosed, At;
  }

  lemma PartInfo(s: State, seen: map<Target, Endpoint>, e: Endpoint)
    requires e in s.info && e !in IdleNodes(seen, s.info)
    ensures var info := RetirePart(s, seen).info;
            && At(info, e) == At(s.info, e) && IsIdle(info, e) == IsIdle(s.info, e)
            && MarkClosed(info, {e}) == MarkClosed(s.info, IdleNodes(seen, s.info) + {e})
  {
  }

  /** What `retireLocked` relies on: its endpoints are distinct objects with distinct callbacks. */
  lemma RetireAccess(s: State)
    requires InvBeforeRetire(s)
    ensures Injective(s.nodes) && s.nodes.Values <= s.info.Keys
    ensures DistinctHandles(s.nodes.Values)
  {
    hide RunsHeld, SnapshotHeld, ActiveExact, RefsExact, OpenUntilFinished, PinsOk, CreatedOk, DraftOk, LedgerExact;
  }

  predicate DistinctHandles(es: set<Endpoint>) {
    forall d, e :: d in es && e in es && d.connection.handle == e.connection.handle ==> d == e
  }

  lemma RetireOne(s: State, seen: map<Target, Endpoint>, target: Target)
    requires Injective(s.nodes) && DistinctHandles(s.nodes.Values)
    requires Within(seen, s.nodes) && target in s.nodes && target !in seen
    ensures var e := s.nodes[target];
            var seen' := seen[target := e];
            && e !in IdleNodes(seen, s.info)
            && IdleNodes(seen', s.info) == IdleNodes(seen, s.info) + (if IsIdle(s.info, e) then {e} else {})
            && IdleTargets(seen', s.info) == IdleTargets(seen, s.info) + (if IsIdle(s.info, e) then {target} else {})
            && multiset(NodeHandles(OpenOnes(s.info, IdleNodes(seen', s.info)))) ==
               if IsIdle(s.info, e) && !At(s.info, e).closed
               then CloseOne(multiset(NodeHandles(OpenOnes(s.info, IdleNodes(seen, s.info)))), e.connection)
               else multiset(NodeHandles(OpenOnes(s.info, IdleNodes(seen, s.info))))
  {
    var e := s.nodes[target];
    var seen' := seen[target := e];
    assert seen'.Values == seen.Values + {e} by {
      KeptValues(seen, seen');
      assert seen'[target] == e;
    }
    KeptValues(seen, s.nodes);
    assert e in s.nodes.Values;
    if IsIdle(s.info, e) {
      var before, after := OpenOnes(s.info, IdleNodes(seen, s.info)), OpenOnes(s.info, IdleNodes(seen', s.info));
      if !At(s.info, e).closed {
        assert after == before + {e};
        GrowHandles(before, e);
      } else {
        assert after == before;
      }
    }
  }

  lemma GrowHandles(es: set<Endpoint>, e: Endpoint)
    requires e !in es && DistinctHandles(es + {e})
    ensures multiset(NodeHandles(es + {e})) == CloseOne(multiset(NodeHandles(es)), e.connection)
  {
    var a, b := NodeHandles(es), NodeHandles(es + {e});
    assert e in es + {e};
    if e.connection.owned {
      assert b == a + {e.connection.handle};
      assert e.connection.handle !in a;
      assert multiset(b) == multiset(a) + multiset{e.connection.handle};
    } else {
      assert b == a;
    }
  }
}
