/**
 The endpoint life cycle of smart.go as a transition system on values: each locked section, and each
 factory result, is one step. `Apply` says what a step does, `Enabled` when a thread can take it.
 `Inv` is inductive, so it holds after every interleaving of any number of calls and refreshes.
 */
module Lifecycle {
  import opened Wrappers
  import opened Endpoints

  /** The mutable fields of an endpoint. */
  datatype Node = Node(refs: int, active: bool, closed: bool)

  /** What a factory result was asked for. */
  datatype Use = ForNode(endpoint: Endpoint) | ForCoordinator(target: Target) | Unusable
  datatype Issue = Issue(connection: Connection, use: Use)

  /** The control state of the one refresh that holds the gate, with the local variables of
      `discover` and `publish`. `missed` is the target whose lookup has just found nothing. */
  datatype Refresher =
    | Idle
    | Gated
    | Holding(target: Target, connection: Connection)
    | Building(pinned: seq<Endpoint>, created: map<Target, Endpoint>, draft: Topology, missed: Option<Target>)
    | Unpinning(pinned: seq<Endpoint>)

  datatype State = State(
    nodes: map<Target, Endpoint>,
    info: map<Endpoint, Node>,
    snapshot: Option<Topology>,
    coordinators: map<Target, Connection>,
    closed: bool,
    finished: bool,
    runs: map<nat, Topology>,
    waiting: nat,
    refresher: Refresher,
    issued: seq<Issue>,
    closes: multiset<int>)

  datatype Step =
    | RunBegin(run: nat)
    | RunEnd(run: nat)
    | Enter
    | GiveUp
    | TakeGate
    | ReleaseGate
    | Dialed(target: Target, connection: Connection)
    | Store
    | StartPublish(shards: ShardCount)
    | Lookup(target: Target)
    | Created(endpoint: Endpoint)
    | Refused(connection: Connection)
    | Route(key: RouteKey, target: Target)
    | Commit
    | Abort
    | Unpin
    | CloseBegin
    | CloseFinish

  function At(info: map<Endpoint, Node>, e: Endpoint): Node {
    if e in info then info[e] else Node(0, false, true)
  }

  /** A coordinator connection that `discover` has dialed and not yet stored. */
  datatype Held = Held(target: Target, connection: Connection)

  function InHand(s: State): Option<Held> {
    if s.refresher.Holding? then Some(Held(s.refresher.target, s.refresher.connection)) else None
  }

  function Pinned(s: State): seq<Endpoint> {
    match s.refresher
    case Building(pinned, _, _, _) => pinned
    case Unpinning(pinned) => pinned
    case _ => []
  }

  function CreatedNodes(s: State): map<Target, Endpoint> {
    if s.refresher.Building? then s.refresher.created else map[]
  }

  function Elements(es: seq<Endpoint>): set<Endpoint> {
    set e | e in es
  }

  /** The Close callbacks that closing these endpoints, or these connections, invokes. */
  function NodeHandles(es: set<Endpoint>): set<int> {
    set e | e in es && e.connection.owned :: e.connection.handle
  }

  function ConnectionHandles(cs: map<Target, Connection>): set<int> {
    set t | t in cs && cs[t].owned :: cs[t].handle
  }

  function CloseOne(closes: multiset<int>, c: Connection): multiset<int> {
    if c.owned then closes + multiset{c.handle} else closes
  }

  function AddRefs(info: map<Endpoint, Node>, es: set<Endpoint>, delta: int): (r: map<Endpoint, Node>)
    ensures r.Keys == info.Keys
  {
    map e | e in info :: if e in es then info[e].(refs := info[e].refs + delta) else info[e]
  }

  function MarkClosed(info: map<Endpoint, Node>, es: set<Endpoint>): (r: map<Endpoint, Node>)
    ensures r.Keys == info.Keys
  {
    map e | e in info :: if e in es then info[e].(closed := true) else info[e]
  }

  /** The endpoints of `es` become active, those in the table `nodes` but not in `es` inactive. */
  function Activate(info: map<Endpoint, Node>, nodes: set<Endpoint>, es: set<Endpoint>): (r: map<Endpoint, Node>)
    ensures r.Keys == info.Keys
  {
    map e | e in info :: if e in es then info[e].(active := true)
                         else if e in nodes then info[e].(active := false) else info[e]
  }

  // ---- retireLocked

  predicate IsIdle(info: map<Endpoint, Node>, e: Endpoint) {
    !At(info, e).active && At(info, e).refs == 0
  }

  function IdleTargets(nodes: map<Target, Endpoint>, info: map<Endpoint, Node>): set<Target> {
    set t | t in nodes && IsIdle(info, nodes[t])
  }

  function IdleNodes(nodes: map<Target, Endpoint>, info: map<Endpoint, Node>): set<Endpoint> {
    set e | e in nodes.Values && IsIdle(info, e)
  }

  function OpenOnes(info: map<Endpoint, Node>, es: set<Endpoint>): set<Endpoint> {
    set e | e in es && !At(info, e).closed
  }

  function Retire(s: State): (r: State)
    ensures r.runs == s.runs && r.snapshot == s.snapshot
  {
    var gone := IdleNodes(s.nodes, s.info);
    s.(nodes := s.nodes - IdleTargets(s.nodes, s.info),
       info := MarkClosed(s.info, gone),
       closes := s.closes + multiset(NodeHandles(OpenOnes(s.info, gone))))
  }

  // ---- steps

  predicate Enabled(s: State, step: Step) {
    match step
    case RunBegin(run) => !s.closed && s.snapshot.Some? && run !in s.runs
    case RunEnd(run) => run in s.runs
    case Enter => !s.closed
    case GiveUp => s.waiting > 0
    case TakeGate => s.waiting > 0 && s.refresher.Idle?
    case ReleaseGate => s.refresher.Gated?
    case Dialed(target, c) => s.refresher.Gated? && target !in s.coordinators && c.handle == |s.issued|
    case Store => s.refresher.Holding?
    case StartPublish(_) => s.refresher.Gated?
    case Lookup(target) =>
      s.refresher.Building? && s.refresher.missed.None? && target !in s.refresher.draft.targets
    case Created(e) =>
      s.refresher.Building? && s.refresher.missed.Some? && e !in s.info &&
      e.connection.handle == |s.issued| && e.connection.usable
    case Refused(c) =>
      s.refresher.Building? && s.refresher.missed.Some? && c.handle == |s.issued| && !c.usable
    case Route(_, target) => s.refresher.Building? && target in s.refresher.draft.targets
    case Commit => s.refresher.Building? && s.refresher.missed.None? && !s.closed
    case Abort => s.refresher.Building?
    case Unpin => s.refresher.Unpinning?
    case CloseBegin => !s.closed
    case CloseFinish => s.closed && !s.finished && s.waiting == 0 && s.refresher.Idle?
  }

  function Apply(s: State, step: Step): State
    requires Enabled(s, step)
  {
    match step
    case RunBegin(run) =>
      s.(info := AddRefs(s.info, s.snapshot.value.targets.Values, 1), runs := s.runs[run := s.snapshot.value])
    case RunEnd(run) => Retire(RunReleased(s, run))
    case Enter => s.(waiting := s.waiting + 1)
    case GiveUp => s.(waiting := s.waiting - 1)
    case TakeGate => s.(waiting := s.waiting - 1, refresher := Gated)
    case ReleaseGate => s.(refresher := Idle)
    case Dialed(target, c) =>
      if c.usable then
        s.(issued := s.issued + [Issue(c, ForCoordinator(target))], refresher := Holding(target, c))
      else
        s.(issued := s.issued + [Issue(c, Unusable)], closes := CloseOne(s.closes, c))
    case Store =>
      var c := s.refresher.connection;
      if s.closed then s.(closes := CloseOne(s.closes, c), refresher := Gated)
      else s.(coordinators := s.coordinators[s.refresher.target := c], refresher := Gated)
    case StartPublish(shards) =>
      s.(refresher := Building([], map[], Topology(shards, map[], map[]), None))
    case Lookup(target) =>
      if target in s.nodes then
        var e := s.nodes[target];
        s.(info := AddRefs(s.info, {e}, 1),
           refresher := s.refresher.(pinned := s.refresher.pinned + [e],
                                     draft := AddTarget(s.refresher.draft, target, e)))
      else s.(refresher := s.refresher.(missed := Some(target)))
    case Created(e) =>
      var target := s.refresher.missed.value;
      s.(info := s.info[e := Node(0, false, false)],
         issued := s.issued + [Issue(e.connection, ForNode(e))],
         refresher := s.refresher.(created := s.refresher.created[target := e],
                                   draft := AddTarget(s.refresher.draft, target, e), missed := None))
    case Refused(c) =>
      s.(issued := s.issued + [Issue(c, Unusable)], closes := CloseOne(s.closes, c))
    case Route(key, target) =>
      var d := s.refresher.draft;
      s.(refresher := s.refresher.(draft := d.(routes := d.routes[key := d.targets[target]])))
    case Commit =>
      Retire(Published(s))
    case Abort =>
      s.(closes := s.closes + multiset(NodeHandles(s.refresher.created.Values)),
         refresher := Unpinning(s.refresher.pinned))
    case Unpin => Retire(Unpinned(s))
    case CloseBegin => s.(closed := true)
    case CloseFinish =>
      s.(info := MarkClosed(s.info, s.nodes.Values), finished := true,
         closes := s.closes + multiset(NodeHandles(OpenOnes(s.info, s.nodes.Values)))
                            + multiset(ConnectionHandles(s.coordinators)))
  }

  function RunReleased(s: State, run: nat): State
    requires run in s.runs
  {
    s.(info := AddRefs(s.info, s.runs[run].targets.Values, -1), runs := s.runs - {run})
  }

  function Published(s: State): State
    requires s.refresher.Building?
  {
    var d := s.refresher.draft;
    s.(nodes := s.nodes + d.targets, info := Activate(s.info, s.nodes.Values, d.targets.Values),
       snapshot := Some(d), refresher := Unpinning(s.refresher.pinned))
  }

  function Unpinned(s: State): State
    requires s.refresher.Unpinning?
  {
    s.(info := AddRefs(s.info, Elements(s.refresher.pinned), -1), refresher := Gated)
  }

  function AddTarget(d: Topology, target: Target, e: Endpoint): Topology {
    d.(targets := d.targets[target := e])
  }

  const INITIAL: State :=
    State(map[], map[], None, map[], false, false, map[], 0, Idle, [], multiset{})

  // ---- the invariant

  /** The in-flight runs whose captured snapshot holds `e`. */
  function Users(runs: map<nat, Topology>, e: Endpoint): set<nat> {
    set r | r in runs && e in runs[r].targets.Values
  }

  predicate TableOk(nodes: map<Target, Endpoint>, known: set<Endpoint>) {
    Injective(nodes) && (forall t :: t in nodes ==> nodes[t] in known)
  }

  /** Every endpoint in an unfinished run's snapshot stays in the table under the same target. */
  predicate RunsHeld(runs: map<nat, Topology>, nodes: map<Target, Endpoint>) {
    forall r :: r in runs ==> Within(runs[r].targets, nodes) && RoutesInTargets(runs[r])
  }

  predicate SnapshotHeld(snapshot: Option<Topology>, nodes: map<Target, Endpoint>) {
    snapshot.Some? ==> Within(snapshot.value.targets, nodes) && RoutesInTargets(snapshot.value)
  }

  /** An endpoint of the table is active exactly when the current snapshot maps its target. */
  predicate ActiveExact(nodes: map<Target, Endpoint>, info: map<Endpoint, Node>, snapshot: Option<Topology>) {
    forall t :: t in nodes ==> (At(info, nodes[t]).active <==> snapshot.Some? && t in snapshot.value.targets)
  }

  /** Reference counts are exact: one for each in-flight run, one for the publisher's pin. */
  predicate RefsExact(info: map<Endpoint, Node>, runs: map<nat, Topology>, pinned: seq<Endpoint>) {
    forall e :: e in info ==> info[e].refs == |Users(runs, e)| + (if e in pinned then 1 else 0)
  }

  /** Nothing stays in the table without a reason. */
  predicate NoneIdle(nodes: map<Target, Endpoint>, info: map<Endpoint, Node>) {
    forall t :: t in nodes ==> !IsIdle(info, nodes[t])
  }

  predicate OpenUntilFinished(nodes: map<Target, Endpoint>, info: map<Endpoint, Node>, finished: bool) {
    forall t :: t in nodes ==> (At(info, nodes[t]).closed <==> finished)
  }

  predicate Distinct(es: seq<Endpoint>) {
    forall i, j :: 0 <= i < j < |es| ==> es[i] != es[j]
  }

  predicate PinsOk(pinned: seq<Endpoint>, nodes: map<Target, Endpoint>) {
    Distinct(pinned) && (forall e :: e in pinned ==> e in nodes.Values)
  }

  /** What a publisher has created is new: it is not in the table yet. */
  predicate CreatedOk(created: map<Target, Endpoint>, nodes: map<Target, Endpoint>, info: map<Endpoint, Node>) {
    && Injective(created)
    && (forall t :: t in created ==>
          t !in nodes && created[t] !in nodes.Values &&
          created[t] in info && !info[created[t]].active && !info[created[t]].closed)
  }

  /** Each target of the draft is created, or pinned and in the table. */
  predicate DraftOk(refresher: Refresher, nodes: map<Target, Endpoint>) {
    refresher.Building? ==>
      var d := refresher.draft;
      && RoutesInTargets(d)
      && Within(refresher.created, d.targets)
      && (forall t :: t in d.targets ==>
            t in refresher.created || (t in nodes && nodes[t] == d.targets[t] && d.targets[t] in refresher.pinned))
      && (refresher.missed.Some? ==> refresher.missed.value !in nodes && refresher.missed.value !in d.targets)
      && (forall e :: e in refresher.pinned ==> e in d.targets.Values)
  }

  /** Each factory result is used for the one thing it was asked for. */
  predicate IssuesOk(issued: seq<Issue>, known: set<Endpoint>,
                     coordinators: map<Target, Connection>, inHand: Option<Held>)
  {
    && (forall h :: 0 <= h < |issued| ==> issued[h].connection.handle == h)
    && (forall e :: e in known ==>
          e.connection.handle < |issued| && issued[e.connection.handle] == Issue(e.connection, ForNode(e)))
    && (forall h :: 0 <= h < |issued| && issued[h].use.ForNode? ==>
          issued[h].use.endpoint in known && issued[h].use.endpoint.connection == issued[h].connection)
    && (forall t :: t in coordinators ==>
          coordinators[t].handle < |issued| &&
          issued[coordinators[t].handle] == Issue(coordinators[t], ForCoordinator(t)))
    && (inHand.Some? ==>
          var c := inHand.value.connection;
          c.handle < |issued| && issued[c.handle] == Issue(c, ForCoordinator(inHand.value.target)) &&
          inHand.value.target !in coordinators)
  }

  /** The connections that are still in use: their Close callbacks are still to come. */
  datatype InUse = InUse(nodes: set<Endpoint>, coordinators: map<Target, Connection>, inHand: Option<Held>)

  predicate Live(use: Use, h: nat, inUse: InUse) {
    match use
    case ForNode(e) => e in inUse.nodes
    case ForCoordinator(t) =>
      || (inUse.inHand.Some? && inUse.inHand.value.connection.handle == h)
      || (t in inUse.coordinators && inUse.coordinators[t].handle == h)
    case Unusable => false
  }

  function InUseOf(s: State): InUse {
    if s.finished then InUse(CreatedNodes(s).Values, map[], InHand(s))
    else InUse(s.nodes.Values + CreatedNodes(s).Values, s.coordinators, InHand(s))
  }

  /** The Close callbacks made so far: one for each owned connection that is no longer in use. */
  ghost predicate LedgerExact(closes: multiset<int>, issued: seq<Issue>, inUse: InUse) {
    forall h: nat :: closes[h] ==
      if h < |issued| && issued[h].connection.owned && !Live(issued[h].use, h, inUse) then 1 else 0
  }

  predicate FinishedOk(s: State) {
    s.finished ==> s.closed && s.waiting == 0 && s.refresher.Idle?
  }

  /** What holds inside a locked section, before `retireLocked`. */
  ghost predicate InvBeforeRetire(s: State) {
    && TableOk(s.nodes, s.info.Keys)
    && RunsHeld(s.runs, s.nodes)
    && SnapshotHeld(s.snapshot, s.nodes)
    && ActiveExact(s.nodes, s.info, s.snapshot)
    && RefsExact(s.info, s.runs, Pinned(s))
    && OpenUntilFinished(s.nodes, s.info, s.finished)
    && PinsOk(Pinned(s), s.nodes)
    && CreatedOk(CreatedNodes(s), s.nodes, s.info)
    && DraftOk(s.refresher, s.nodes)
    && IssuesOk(s.issued, s.info.Keys, s.coordinators, InHand(s))
    && LedgerExact(s.closes, s.issued, InUseOf(s))
    && FinishedOk(s)
  }

  /** What holds whenever the lock is free. */
  ghost predicate Inv(s: State) {
    InvBeforeRetire(s) && NoneIdle(s.nodes, s.info)
  }

  lemma InitialInv()
    ensures Inv(INITIAL)
  {
  }

  lemma UsersGrow(runs: map<nat, Topology>, run: nat, top: Topology, e: Endpoint)
    requires run !in runs
    ensures |Users(runs[run := top], e)| == |Users(runs, e)| + (if e in top.targets.Values then 1 else 0)
  {
    var bigger := runs[run := top];
    if e in top.targets.Values {
      assert Users(bigger, e) == Users(runs, e) + {run};
    } else {
      assert Users(bigger, e) == Users(runs, e);
    }
  }

  lemma UsersShrink(runs: map<nat, Topology>, run: nat, e: Endpoint)
    requires run in runs
    ensures |Users(runs, e)| == |Users(runs - {run}, e)| + (if e in runs[run].targets.Values then 1 else 0)
  {
    UsersGrow(runs - {run}, run, runs[run], e);
    assert (runs - {run})[run := runs[run]] == runs;
  }

  lemma KeptValues(m: map<Target, Endpoint>, m': map<Target, Endpoint>)
    requires Within(m, m')
    ensures m.Values <= m'.Values
  {
    forall e | e in m.Values
      ensures e in m'.Values
    {
      var t :| t in m && m[t] == e;
      assert m'[t] == e;
    }
  }

  // ---- the ledger of Close callbacks

  lemma NodeHandlesMember(issued: seq<Issue>, known: set<Endpoint>, cs: map<Target, Connection>, inHand: Option<Held>,
                          es: set<Endpoint>, h: int)
    requires IssuesOk(issued, known, cs, inHand) && es <= known
    ensures h in NodeHandles(es) <==>
            0 <= h < |issued| && issued[h].connection.owned && issued[h].use.ForNode? && issued[h].use.endpoint in es
  {
  }

  /** Closing the owned connections of the nodes in `gone`, all in use before, keeps the ledger exact. */
  lemma ReleaseNodes(s: State, gone: set<Endpoint>, inUse: InUse)
    requires IssuesOk(s.issued, s.info.Keys, s.coordinators, InHand(s))
    requires LedgerExact(s.closes, s.issued, inUse)
    requires gone <= s.info.Keys && gone <= inUse.nodes
    ensures LedgerExact(s.closes + multiset(NodeHandles(gone)), s.issued, inUse.(nodes := inUse.nodes - gone))
  {
    forall h: nat {
      NodeHandlesMember(s.issued, s.info.Keys, s.coordinators, InHand(s), gone, h);
    }
  }

  lemma ReleaseCoordinators(s: State, closes: multiset<int>, inUse: InUse)
    requires IssuesOk(s.issued, s.info.Keys, s.coordinators, InHand(s)) && InHand(s).None?
    requires LedgerExact(closes, s.issued, inUse)
    requires inUse.coordinators == s.coordinators && inUse.inHand.None?
    ensures LedgerExact(closes + multiset(ConnectionHandles(s.coordinators)), s.issued,
                        inUse.(coordinators := map[]))
  {
    forall h: nat
      ensures h in ConnectionHandles(s.coordinators) <==>
              h < |s.issued| && s.issued[h].connection.owned && s.issued[h].use.ForCoordinator? &&
              Live(s.issued[h].use, h, inUse)
    {
    }
  }

  // ---- retireLocked

  lemma HeldIsCounted(s: State, run: nat, t: Target)
    requires RefsExact(s.info, s.runs, Pinned(s)) && TableOk(s.nodes, s.info.Keys) && RunsHeld(s.runs, s.nodes)
    requires run in s.runs && t in s.runs[run].targets
    ensures At(s.info, s.nodes[t]).refs > 0
  {
    var e := s.runs[run].targets[t];
    assert run in Users(s.runs, e);
  }

  lemma RetireValues(nodes: map<Target, Endpoint>, info: map<Endpoint, Node>)
    ensures (nodes - IdleTargets(nodes, info)).Values == nodes.Values - IdleNodes(nodes, info)
  {
    forall e | e in nodes.Values - IdleNodes(nodes, info)
      ensures e in (nodes - IdleTargets(nodes, info)).Values
    {
      var t :| t in nodes && nodes[t] == e;
      assert t in nodes - IdleTargets(nodes, info);
    }
  }

  lemma RetireTables(s: State)
    requires TableOk(s.nodes, s.info.Keys) && RunsHeld(s.runs, s.nodes) && SnapshotHeld(s.snapshot, s.nodes)
    requires ActiveExact(s.nodes, s.info, s.snapshot) && RefsExact(s.info, s.runs, Pinned(s))
    ensures var n := Retire(s).nodes;
            TableOk(n, s.info.Keys) && RunsHeld(s.runs, n) && SnapshotHeld(s.snapshot, n)
  {
    forall r, t | r in s.runs && t in s.runs[r].targets
      ensures t in Retire(s).nodes
    {
      HeldIsCounted(s, r, t);
    }
  }

  lemma RetireFlags(s: State)
    requires TableOk(s.nodes, s.info.Keys) && ActiveExact(s.nodes, s.info, s.snapshot)
    requires RefsExact(s.info, s.runs, Pinned(s)) && OpenUntilFinished(s.nodes, s.info, s.finished)
    ensures var n, i := Retire(s).nodes, Retire(s).info;
            && ActiveExact(n, i, s.snapshot) && RefsExact(i, s.runs, Pinned(s))
            && OpenUntilFinished(n, i, s.finished) && NoneIdle(n, i)
  {
  }

  lemma RetirePublisher(s: State)
    requires TableOk(s.nodes, s.info.Keys) && RefsExact(s.info, s.runs, Pinned(s)) && PinsOk(Pinned(s), s.nodes)
    requires CreatedOk(CreatedNodes(s), s.nodes, s.info) && DraftOk(s.refresher, s.nodes)
    ensures PinsOk(Pinned(s), Retire(s).nodes) && CreatedOk(CreatedNodes(s), Retire(s).nodes, Retire(s).info)
    ensures DraftOk(s.refresher, Retire(s).nodes)
  {
    assert forall e :: e in Pinned(s) ==> At(s.info, e).refs > 0;
    RetireValues(s.nodes, s.info);
  }

  lemma RetireLedger(s: State)
    requires TableOk(s.nodes, s.info.Keys) && OpenUntilFinished(s.nodes, s.info, s.finished)
    requires CreatedOk(CreatedNodes(s), s.nodes, s.info)
    requires IssuesOk(s.issued, s.info.Keys, s.coordinators, InHand(s)) && LedgerExact(s.closes, s.issued, InUseOf(s))
    ensures LedgerExact(Retire(s).closes, s.issued, InUseOf(Retire(s)))
  {
    var gone := OpenOnes(s.info, IdleNodes(s.nodes, s.info));
    RetireValues(s.nodes, s.info);
    hide LedgerExact, IssuesOk, NodeHandles, Injective;
    ReleaseNodes(s, gone, InUseOf(s));
    assert InUseOf(Retire(s)).nodes == InUseOf(s).nodes - gone;
    assert InUseOf(Retire(s)) == InUseOf(s).(nodes := InUseOf(Retire(s)).nodes);
  }

  lemma RetireRestores(s: State)
    requires InvBeforeRetire(s)
    ensures Inv(Retire(s))
  {
    RetireTables(s);
    RetireFlags(s);
    RetirePublisher(s);
    RetireLedger(s);
  }

  // ---- every step keeps the invariant

  /** Changing reference counts changes no flag. */
  lemma AddRefsFlags(s: State, es: set<Endpoint>, delta: int)
    requires ActiveExact(s.nodes, s.info, s.snapshot) && OpenUntilFinished(s.nodes, s.info, s.finished)
    requires CreatedOk(CreatedNodes(s), s.nodes, s.info)
    ensures var info := AddRefs(s.info, es, delta);
            && ActiveExact(s.nodes, info, s.snapshot) && OpenUntilFinished(s.nodes, info, s.finished)
            && CreatedOk(CreatedNodes(s), s.nodes, info)
  {
    hide Injective;
  }

  lemma PinnedUp(s: State, es: set<Endpoint>)
    requires NoneIdle(s.nodes, s.info) && RefsExact(s.info, s.runs, Pinned(s))
    ensures NoneIdle(s.nodes, AddRefs(s.info, es, 1))
  {
  }

  lemma RunBeginRefs(info: map<Endpoint, Node>, runs: map<nat, Topology>, pinned: seq<Endpoint>, run: nat,
                     top: Topology)
    requires RefsExact(info, runs, pinned) && run !in runs
    ensures RefsExact(AddRefs(info, top.targets.Values, 1), runs[run := top], pinned)
  {
    forall e | e in info {
      UsersGrow(runs, run, top, e);
    }
  }

  lemma RunEndRefs(info: map<Endpoint, Node>, runs: map<nat, Topology>, pinned: seq<Endpoint>, run: nat)
    requires RefsExact(info, runs, pinned) && run in runs
    ensures RefsExact(AddRefs(info, runs[run].targets.Values, -1), runs - {run}, pinned)
  {
    forall e | e in info {
      UsersShrink(runs, run, e);
    }
  }

  lemma RunBeginKeeps(s: State, run: nat)
    requires Inv(s) && Enabled(s, RunBegin(run))
    ensures Inv(Apply(s, RunBegin(run)))
  {
    hide TableOk, DraftOk, PinsOk, IssuesOk, LedgerExact, ActiveExact, RefsExact, OpenUntilFinished, NoneIdle,
      CreatedOk, Within, RoutesInTargets, AddRefs;
    var es := s.snapshot.value.targets.Values;
    AddRefsFlags(s, es, 1);
    PinnedUp(s, es);
    RunBeginRefs(s.info, s.runs, Pinned(s), run, s.snapshot.value);
  }

  lemma RunEndBeforeRetire(s: State, run: nat)
    requires Inv(s) && run in s.runs
    ensures InvBeforeRetire(RunReleased(s, run))
  {
    hide TableOk, DraftOk, PinsOk, IssuesOk, LedgerExact, ActiveExact, RefsExact, OpenUntilFinished, NoneIdle,
      CreatedOk, Within, RoutesInTargets, AddRefs, Retire;
    var es := s.runs[run].targets.Values;
    AddRefsFlags(s, es, -1);
    RunEndRefs(s.info, s.runs, Pinned(s), run);
  }

  lemma RunEndKeeps(s: State, run: nat)
    requires Inv(s) && Enabled(s, RunEnd(run))
    ensures Inv(Apply(s, RunEnd(run)))
  {
    hide Inv, InvBeforeRetire, Retire;
    RunEndBeforeRetire(s, run);
    RetireRestores(RunReleased(s, run));
  }

  /** Recording one more factory result leaves what is in use alone. */
  lemma DialedKeeps(s: State, target: Target, c: Connection)
    requires Inv(s) && Enabled(s, Dialed(target, c))
    ensures Inv(Apply(s, Dialed(target, c)))
  {
    hide TableOk, RunsHeld, SnapshotHeld, ActiveExact, RefsExact, OpenUntilFinished, PinsOk, CreatedOk, NoneIdle,
      IssuesOk, LedgerExact;
    DialedLedger(s, target, c);
  }

  lemma DialedLedger(s: State, target: Target, c: Connection)
    requires IssuesOk(s.issued, s.info.Keys, s.coordinators, InHand(s)) && LedgerExact(s.closes, s.issued, InUseOf(s))
    requires Enabled(s, Dialed(target, c)) && FinishedOk(s)
    ensures var s' := Apply(s, Dialed(target, c));
            && IssuesOk(s'.issued, s'.info.Keys, s'.coordinators, InHand(s'))
            && LedgerExact(s'.closes, s'.issued, InUseOf(s'))
  {
    var inUse := InUseOf(s);
    var use := if c.usable then ForCoordinator(target) else Unusable;
    var held := if c.usable then Some(Held(target, c)) else None;
    DialedIssues(s.issued, s.info.Keys, s.coordinators, c, use, held);
    IssueLedger(s.closes, s.issued, inUse, c, use, inUse.(inHand := held));
    hide IssuesOk, LedgerExact;
  }

  lemma DialedIssues(issued: seq<Issue>, known: set<Endpoint>, cs: map<Target, Connection>,
                     c: Connection, use: Use, held: Option<Held>)
    requires IssuesOk(issued, known, cs, None) && c.handle == |issued| && !use.ForNode?
    requires held.Some? ==>
               held.value.connection == c && use == ForCoordinator(held.value.target) && held.value.target !in cs
    ensures IssuesOk(issued + [Issue(c, use)], known, cs, held)
  {
  }

  /** A new connection is in use at once, or closed at once. */
  lemma IssueLedger(closes: multiset<int>, issued: seq<Issue>, inUse: InUse, c: Connection, use: Use, after: InUse)
    requires LedgerExact(closes, issued, inUse) && c.handle == |issued|
    requires forall h :: 0 <= h < |issued| ==> Live(issued[h].use, h, after) == Live(issued[h].use, h, inUse)
    ensures LedgerExact(if Live(use, c.handle, after) then closes else CloseOne(closes, c),
                        issued + [Issue(c, use)], after)
  {
  }

  lemma StoreKeeps(s: State)
    requires Inv(s) && Enabled(s, Store)
    ensures Inv(Apply(s, Store))
  {
    hide TableOk, RunsHeld, SnapshotHeld, ActiveExact, RefsExact, OpenUntilFinished, PinsOk, CreatedOk, NoneIdle,
      DraftOk;
    var s' := Apply(s, Store);
    assert Pinned(s') == Pinned(s) && CreatedNodes(s') == CreatedNodes(s);
    StoreLedger(s);
    NotBuilding(s'.refresher, s.nodes);
    hide LedgerExact, IssuesOk;
  }

  lemma NotBuilding(r: Refresher, nodes: map<Target, Endpoint>)
    requires !r.Building?
    ensures DraftOk(r, nodes)
  {
  }

  lemma StoreLedger(s: State)
    requires IssuesOk(s.issued, s.info.Keys, s.coordinators, InHand(s)) && LedgerExact(s.closes, s.issued, InUseOf(s))
    requires s.refresher.Holding? && (s.finished ==> s.closed)
    ensures var s' := Apply(s, Store);
            && IssuesOk(s'.issued, s'.info.Keys, s'.coordinators, InHand(s'))
            && LedgerExact(s'.closes, s'.issued, InUseOf(s'))
  {
    hide IssuesOk, LedgerExact;
    var held := Held(s.refresher.target, s.refresher.connection);
    HeldIssue(s.issued, s.info.Keys, s.coordinators, held);
    if s.closed {
      DroppedLedger(s.closes, s.issued, InUseOf(s), held);
    } else {
      KeptLedger(s.closes, s.issued, InUseOf(s), held);
    }
  }

  /** The connection in hand was issued for its coordinator, which has no other. */
  lemma HeldIssue(issued: seq<Issue>, known: set<Endpoint>, cs: map<Target, Connection>, held: Held)
    requires IssuesOk(issued, known, cs, Some(held))
    ensures IssuesOk(issued, known, cs, None)
    ensures IssuesOk(issued, known, cs[held.target := held.connection], None)
    ensures held.target !in cs && held.connection.handle < |issued|
    ensures issued[held.connection.handle] == Issue(held.connection, ForCoordinator(held.target))
  {
  }

  /** Closing it takes it out of use. */
  lemma DroppedLedger(closes: multiset<int>, issued: seq<Issue>, inUse: InUse, held: Held)
    requires LedgerExact(closes, issued, inUse) && inUse.inHand == Some(held) && held.target !in inUse.coordinators
    requires held.connection.handle < |issued|
    requires issued[held.connection.handle] == Issue(held.connection, ForCoordinator(held.target))
    ensures LedgerExact(CloseOne(closes, held.connection), issued, inUse.(inHand := None))
  {
  }

  /** Storing it leaves it in use. */
  lemma KeptLedger(closes: multiset<int>, issued: seq<Issue>, inUse: InUse, held: Held)
    requires LedgerExact(closes, issued, inUse) && inUse.inHand == Some(held) && held.target !in inUse.coordinators
    requires held.connection.handle < |issued|
    requires issued[held.connection.handle] == Issue(held.connection, ForCoordinator(held.target))
    ensures LedgerExact(closes, issued,
                        inUse.(inHand := None, coordinators := inUse.coordinators[held.target := held.connection]))
  {
  }

  lemma PinRefs(info: map<Endpoint, Node>, runs: map<nat, Topology>, pinned: seq<Endpoint>, e: Endpoint)
    requires RefsExact(info, runs, pinned) && e !in pinned
    ensures RefsExact(AddRefs(info, {e}, 1), runs, pinned + [e])
  {
  }

  lemma PinDraft(r: Refresher, nodes: map<Target, Endpoint>, target: Target)
    requires r.Building? && r.missed.None? && target in nodes && target !in r.draft.targets
    requires Injective(nodes) && DraftOk(r, nodes) && PinsOk(r.pinned, nodes) && r.created.Values !! nodes.Values
    ensures var e := nodes[target];
            && e !in r.pinned && PinsOk(r.pinned + [e], nodes)
            && DraftOk(r.(pinned := r.pinned + [e], draft := AddTarget(r.draft, target, e)), nodes)
  {
    var e, d := nodes[target], r.draft;
    assert e !in r.pinned;
    var d' := AddTarget(d, target, e);
    KeptValues(d.targets, d'.targets);
    assert d'.targets[target] == e;
  }

  lemma CreatedApart(created: map<Target, Endpoint>, nodes: map<Target, Endpoint>, info: map<Endpoint, Node>)
    requires CreatedOk(created, nodes, info)
    ensures created.Values !! nodes.Values
  {
  }

  lemma LookupKeeps(s: State, target: Target)
    requires Inv(s) && Enabled(s, Lookup(target))
    ensures Inv(Apply(s, Lookup(target)))
  {
    hide IssuesOk, LedgerExact, ActiveExact, RefsExact, OpenUntilFinished, NoneIdle, CreatedOk, RunsHeld, SnapshotHeld,
      PinsOk, RoutesInTargets, Within;
    if target in s.nodes {
      hide DraftOk, AddRefs, AddTarget;
      CreatedApart(s.refresher.created, s.nodes, s.info);
      var e := s.nodes[target];
      PinDraft(s.refresher, s.nodes, target);
      PinRefs(s.info, s.runs, Pinned(s), e);
      AddRefsFlags(s, {e}, 1);
      PinnedUp(s, {e});
    } else {
      hide TableOk;
    }
  }

  lemma NewNodeTables(s: State, e: Endpoint)
    requires TableOk(s.nodes, s.info.Keys) && RunsHeld(s.runs, s.nodes) && RefsExact(s.info, s.runs, Pinned(s))
    requires ActiveExact(s.nodes, s.info, s.snapshot) && OpenUntilFinished(s.nodes, s.info, s.finished)
    requires NoneIdle(s.nodes, s.info) && PinsOk(Pinned(s), s.nodes) && e !in s.info
    ensures var info := s.info[e := Node(0, false, false)];
            && TableOk(s.nodes, info.Keys) && RefsExact(info, s.runs, Pinned(s))
            && ActiveExact(s.nodes, info, s.snapshot) && OpenUntilFinished(s.nodes, info, s.finished)
            && NoneIdle(s.nodes, info)
  {
    hide Injective, Distinct;
    assert Users(s.runs, e) == {};
  }

  lemma NewNodeCreated(created: map<Target, Endpoint>, nodes: map<Target, Endpoint>, info: map<Endpoint, Node>,
                       target: Target, e: Endpoint)
    requires CreatedOk(created, nodes, info) && TableOk(nodes, info.Keys) && e !in info && target !in nodes
    requires target !in created
    ensures CreatedOk(created[target := e], nodes, info[e := Node(0, false, false)])
    ensures created[target := e].Values == created.Values + {e}
  {
    var created' := created[target := e];
    KeptValues(created, created');
    assert created'[target] == e;
  }

  lemma NewNodeDraft(r: Refresher, nodes: map<Target, Endpoint>, target: Target, e: Endpoint)
    requires DraftOk(r, nodes) && r.Building? && r.missed == Some(target)
    ensures target !in r.created && target !in nodes
    ensures DraftOk(r.(created := r.created[target := e], draft := AddTarget(r.draft, target, e), missed := None),
                    nodes)
  {
    var d' := AddTarget(r.draft, target, e);
    KeptValues(r.draft.targets, d'.targets);
    assert d'.targets[target] == e;
  }

  lemma NewNodeLedger(s: State, e: Endpoint, inUse: InUse)
    requires IssuesOk(s.issued, s.info.Keys, s.coordinators, InHand(s)) && LedgerExact(s.closes, s.issued, InUseOf(s))
    requires e !in s.info && e.connection.handle == |s.issued|
    requires inUse == InUseOf(s).(nodes := InUseOf(s).nodes + {e})
    ensures var issued := s.issued + [Issue(e.connection, ForNode(e))];
            && IssuesOk(issued, s.info.Keys + {e}, s.coordinators, InHand(s))
            && LedgerExact(s.closes, issued, inUse)
  {
  }

  lemma CreatedKeeps(s: State, e: Endpoint)
    requires Inv(s) && Enabled(s, Created(e))
    ensures Inv(Apply(s, Created(e)))
  {
    hide IssuesOk, LedgerExact, ActiveExact, RefsExact, OpenUntilFinished, NoneIdle, CreatedOk, RunsHeld, SnapshotHeld,
      DraftOk, PinsOk, TableOk;
    var s' := Apply(s, Created(e));
    NewNodeTables(s, e);
    NewNodeDraft(s.refresher, s.nodes, s.refresher.missed.value, e);
    NewNodeCreated(s.refresher.created, s.nodes, s.info, s.refresher.missed.value, e);
    NewNodeLedger(s, e, InUseOf(s'));
    assert s'.info.Keys == s.info.Keys + {e};
  }

  lemma RefusedKeeps(s: State, c: Connection)
    requires Inv(s) && Enabled(s, Refused(c))
    ensures Inv(Apply(s, Refused(c)))
  {
    hide TableOk, RunsHeld, SnapshotHeld, ActiveExact, RefsExact, OpenUntilFinished, PinsOk, CreatedOk, NoneIdle,
      DraftOk;
    var s' := Apply(s, Refused(c));
    assert LedgerExact(s'.closes, s'.issued, InUseOf(s'));
  }

  lemma RouteKeeps(s: State, key: RouteKey, target: Target)
    requires Inv(s) && Enabled(s, Route(key, target))
    ensures Inv(Apply(s, Route(key, target)))
  {
    hide TableOk, RunsHeld, SnapshotHeld, ActiveExact, RefsExact, OpenUntilFinished, PinsOk, CreatedOk, NoneIdle,
      LedgerExact, IssuesOk;
  }

  /** The commit never overwrites a different endpoint: the table only grows, by what was created. */
  lemma CommitTable(s: State)
    requires TableOk(s.nodes, s.info.Keys) && CreatedOk(CreatedNodes(s), s.nodes, s.info)
    requires DraftOk(s.refresher, s.nodes)
    requires s.refresher.Building?
    ensures var nodes, d := s.nodes + s.refresher.draft.targets, s.refresher.draft;
            && Within(s.nodes, nodes) && Within(d.targets, nodes)
            && nodes.Values == s.nodes.Values + s.refresher.created.Values
            && TableOk(nodes, s.info.Keys)
  {
    var nodes, d := s.nodes + s.refresher.draft.targets, s.refresher.draft;
    KeptValues(s.nodes, nodes);
    KeptValues(s.refresher.created, nodes);
    forall e | e in nodes.Values
      ensures e in s.nodes.Values + s.refresher.created.Values
    {
      var t :| t in nodes && nodes[t] == e;
    }
  }

  lemma CommitFlags(nodes: map<Target, Endpoint>, old_: set<Endpoint>, info: map<Endpoint, Node>, d: Topology,
                    snapshot: Option<Topology>, created: map<Target, Endpoint>, before: map<Target, Endpoint>)
    requires TableOk(nodes, info.Keys) && Within(d.targets, nodes)
    requires nodes.Values == old_ + created.Values && old_ == before.Values
    requires OpenUntilFinished(before, info, false) && CreatedOk(created, before, info)
    ensures var info' := Activate(info, old_, d.targets.Values);
            ActiveExact(nodes, info', Some(d)) && OpenUntilFinished(nodes, info', false)
  {
    var info' := Activate(info, old_, d.targets.Values);
    forall t | t in nodes
      ensures (At(info', nodes[t]).active <==> t in d.targets) && !At(info', nodes[t]).closed
    {
      var e := nodes[t];
      assert e in nodes.Values;
      if e in d.targets.Values {
        var u :| u in d.targets && d.targets[u] == e;
        assert u == t;
      }
    }
  }

  lemma CommitHeld(runs: map<nat, Topology>, nodes: map<Target, Endpoint>, nodes': map<Target, Endpoint>)
    requires RunsHeld(runs, nodes) && Within(nodes, nodes')
    ensures RunsHeld(runs, nodes')
  {
  }

  lemma CommitBeforeRetire(s: State)
    requires Inv(s) && Enabled(s, Commit)
    ensures InvBeforeRetire(Published(s))
  {
    hide IssuesOk, LedgerExact, ActiveExact, OpenUntilFinished, NoneIdle, CreatedOk, RunsHeld, SnapshotHeld, TableOk,
      RefsExact, Within, RoutesInTargets, Activate, Retire;
    var d, m := s.refresher.draft, Published(s);
    CommitTable(s);
    CommitFlags(m.nodes, s.nodes.Values, s.info, d, s.snapshot, s.refresher.created, s.nodes);
    CommitHeld(s.runs, s.nodes, m.nodes);
    CommitRest(s, m.nodes);
    assert InUseOf(m).nodes == InUseOf(s).nodes;
  }

  lemma CommitKeeps(s: State)
    requires Inv(s) && Enabled(s, Commit)
    ensures Inv(Apply(s, Commit))
  {
    hide Inv, InvBeforeRetire, Retire;
    CommitBeforeRetire(s);
    RetireRestores(Published(s));
  }

  lemma CommitRest(s: State, nodes: map<Target, Endpoint>)
    requires Inv(s) && s.refresher.Building? && Within(s.nodes, nodes) && Within(s.refresher.draft.targets, nodes)
    ensures var d := s.refresher.draft;
            && SnapshotHeld(Some(d), nodes) && PinsOk(s.refresher.pinned, nodes)
            && RefsExact(Activate(s.info, s.nodes.Values, d.targets.Values), s.runs, s.refresher.pinned)
            && CreatedOk(map[], nodes, Activate(s.info, s.nodes.Values, d.targets.Values))
  {
    hide IssuesOk, LedgerExact, ActiveExact, OpenUntilFinished, NoneIdle, RunsHeld, TableOk, RefsExact, CreatedOk,
      Activate;
    var d := s.refresher.draft;
    ActivateRefs(s.info, s.runs, s.refresher.pinned, s.nodes.Values, d.targets.Values);
    NoneCreated(nodes, Activate(s.info, s.nodes.Values, d.targets.Values));
    KeptValues(s.nodes, nodes);
  }

  lemma ActivateRefs(info: map<Endpoint, Node>, runs: map<nat, Topology>, pinned: seq<Endpoint>,
                     nodes: set<Endpoint>, es: set<Endpoint>)
    requires RefsExact(info, runs, pinned)
    ensures RefsExact(Activate(info, nodes, es), runs, pinned)
  {
  }

  lemma AbortLedger(s: State)
    requires CreatedOk(CreatedNodes(s), s.nodes, s.info) && s.refresher.Building?
    requires IssuesOk(s.issued, s.info.Keys, s.coordinators, InHand(s)) && LedgerExact(s.closes, s.issued, InUseOf(s))
    ensures LedgerExact(Apply(s, Abort).closes, s.issued, InUseOf(Apply(s, Abort)))
  {
    hide LedgerExact, IssuesOk, NodeHandles, Injective, Retire;
    var s', gone := Apply(s, Abort), s.refresher.created.Values;
    assert gone <= s.info.Keys && gone !! s.nodes.Values;
    hide CreatedOk;
    ReleaseNodes(s, gone, InUseOf(s));
    assert InUseOf(s').nodes == InUseOf(s).nodes - gone;
    assert InUseOf(s') == InUseOf(s).(nodes := InUseOf(s').nodes);
  }

  lemma AbortKeeps(s: State)
    requires Inv(s) && Enabled(s, Abort)
    ensures Inv(Apply(s, Abort))
  {
    hide TableOk, RunsHeld, SnapshotHeld, ActiveExact, RefsExact, OpenUntilFinished, NoneIdle, LedgerExact, IssuesOk,
      DraftOk, PinsOk, NodeHandles;
    AbortLedger(s);
    NotBuilding(Apply(s, Abort).refresher, s.nodes);
    NoneCreated(s.nodes, s.info);
    hide CreatedOk;
  }

  lemma NoneCreated(nodes: map<Target, Endpoint>, info: map<Endpoint, Node>)
    ensures CreatedOk(map[], nodes, info)
  {
  }

  lemma UnpinRefs(info: map<Endpoint, Node>, runs: map<nat, Topology>, pinned: seq<Endpoint>)
    requires RefsExact(info, runs, pinned)
    ensures RefsExact(AddRefs(info, Elements(pinned), -1), runs, [])
  {
  }

  lemma UnpinBeforeRetire(s: State)
    requires Inv(s) && Enabled(s, Unpin)
    ensures InvBeforeRetire(Unpinned(s))
  {
    hide TableOk, IssuesOk, LedgerExact, ActiveExact, RefsExact, OpenUntilFinished, NoneIdle, CreatedOk, RunsHeld,
      SnapshotHeld, AddRefs, Retire;
    var es := Elements(s.refresher.pinned);
    AddRefsFlags(s, es, -1);
    UnpinRefs(s.info, s.runs, s.refresher.pinned);
  }

  lemma UnpinKeeps(s: State)
    requires Inv(s) && Enabled(s, Unpin)
    ensures Inv(Apply(s, Unpin))
  {
    hide Inv, InvBeforeRetire, Retire;
    UnpinBeforeRetire(s);
    RetireRestores(Unpinned(s));
  }

  lemma CloseFinishFlags(s: State)
    requires TableOk(s.nodes, s.info.Keys) && ActiveExact(s.nodes, s.info, s.snapshot)
    requires RefsExact(s.info, s.runs, Pinned(s)) && NoneIdle(s.nodes, s.info)
    ensures var info := MarkClosed(s.info, s.nodes.Values);
            && ActiveExact(s.nodes, info, s.snapshot) && OpenUntilFinished(s.nodes, info, true)
            && RefsExact(info, s.runs, Pinned(s)) && NoneIdle(s.nodes, info)
  {
    hide Injective;
    forall t | t in s.nodes
      ensures s.nodes[t] in s.nodes.Values
    {
    }
  }

  lemma CloseFinishOpen(s: State)
    requires TableOk(s.nodes, s.info.Keys) && OpenUntilFinished(s.nodes, s.info, false)
    ensures s.nodes.Values <= s.info.Keys && OpenOnes(s.info, s.nodes.Values) == s.nodes.Values
  {
  }

  lemma CloseFinishKeeps(s: State)
    requires Inv(s) && Enabled(s, CloseFinish)
    ensures Inv(Apply(s, CloseFinish))
  {
    hide TableOk, IssuesOk, LedgerExact, ActiveExact, RefsExact, NoneIdle, RunsHeld, SnapshotHeld,
      MarkClosed, NodeHandles, ConnectionHandles, OpenOnes, OpenUntilFinished, DraftOk;
    CloseFinishOpen(s);
    CloseFinishFlags(s);
    CloseFinishLedger(s);
    assert InUseOf(Apply(s, CloseFinish)) == InUse({}, map[], None);
  }

  lemma CloseFinishLedger(s: State)
    requires IssuesOk(s.issued, s.info.Keys, s.coordinators, InHand(s)) && LedgerExact(s.closes, s.issued, InUseOf(s))
    requires s.nodes.Values <= s.info.Keys && s.refresher.Idle? && !s.finished
    ensures LedgerExact(s.closes + multiset(NodeHandles(s.nodes.Values)) + multiset(ConnectionHandles(s.coordinators)),
                        s.issued, InUse({}, map[], None))
  {
    hide LedgerExact, IssuesOk;
    var gone := s.nodes.Values;
    ReleaseNodes(s, gone, InUseOf(s));
    assert InUseOf(s).(nodes := InUseOf(s).nodes - gone) == InUse({}, s.coordinators, None);
    ReleaseCoordinators(s, s.closes + multiset(NodeHandles(gone)), InUse({}, s.coordinators, None));
  }

  /** The remaining steps only move the control state of one thread. */
  lemma ControlKeeps(s: State, step: Step)
    requires Inv(s) && Enabled(s, step)
    requires step.Enter? || step.GiveUp? || step.TakeGate? || step.ReleaseGate? || step.StartPublish? ||
             step.CloseBegin?
    ensures Inv(Apply(s, step))
  {
    hide TableOk, RunsHeld, SnapshotHeld, ActiveExact, RefsExact, OpenUntilFinished, NoneIdle, LedgerExact, IssuesOk,
      CreatedOk, Retire;
    NoneCreated(s.nodes, s.info);
  }

  /** The invariant is inductive. */
  lemma StepKeeps(s: State, step: Step)
    requires Inv(s) && Enabled(s, step)
    ensures Inv(Apply(s, step))
  {
    hide Inv, Enabled, Apply;
    match step
    case RunBegin(run) => RunBeginKeeps(s, run);
    case RunEnd(run) => RunEndKeeps(s, run);
    case Dialed(target, c) => DialedKeeps(s, target, c);
    case Store => StoreKeeps(s);
    case Lookup(target) => LookupKeeps(s, target);
    case Created(e) => CreatedKeeps(s, e);
    case Refused(c) => RefusedKeeps(s, c);
    case Route(key, target) => RouteKeeps(s, key, target);
    case Commit => CommitKeeps(s);
    case Abort => AbortKeeps(s);
    case Unpin => UnpinKeeps(s);
    case CloseFinish => CloseFinishKeeps(s);
    case _ => ControlKeeps(s, step);
  }
}
