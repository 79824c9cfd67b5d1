/**
 Routing a call through a topology snapshot (smart.go:373-462): pin the snapshot, choose the endpoints,
 try at most two of them, unpin. Other threads take any steps in between.
 */
module Routing {
  import opened Wrappers
  import opened Wire
  import opened Messages
  import opened Errors
  import opened Codec
  import opened Endpoints
  import opened Lifecycle
  import opened SmartBackends
  import opened Refreshing
  import opened Networks
  import opened Operations
  import Executions
  import Rounds

  datatype Mode = MasterThenBackup | MasterOnly | BackupOnly | LBSmart

  /** The parts of the call options that routing looks at. */
  datatype Options = Options(weakHash: Option<uint32>, mode: Option<Mode>)

  /** What `perform` prepares for the attempts of one operation. */
  datatype Caller = Caller(key: Key, ttl: Option<uint64>, config: Config, mayEnd: bool)

  function SessionAt(caller: Caller, ep: Endpoint): Session {
    Session(ep.connection.handle, caller.key, caller.ttl, caller.config, caller.mayEnd)
  }

  /** The endpoint is pinned, and its connection is open unless Close has finished. */
  ghost predicate KeptOpen(b: SmartBackend, ep: Endpoint)
    reads b, b.endpoints, ep
  {
    && ep in b.endpoints && ep.refs >= 1
    && (!b.finished ==> !ep.closed && b.closes[ep.connection.handle] == 0)
  }

  lemma OpenNow(b: SmartBackend, run: nat, ep: Endpoint)
    requires b.Valid() && run in b.runs && ep in b.runs[run].targets.Values
    ensures KeptOpen(b, ep)
  {
    hide Inv;
    var t :| t in b.runs[run].targets && b.runs[run].targets[t] == ep;
    Executions.InFlightIsOpen(b.View(), run, t);
  }

  // ---- choosing

  /** The mode that decides when both roles have an endpoint. */
  function EffectiveMode(options: Options, write: bool, configured: Mode): Mode {
    if options.mode.Some? then options.mode.value else if write then MasterThenBackup else configured
  }

  /** The endpoints of one shard, in the order in which the mode tries them. */
  predicate Chosen(mode: Mode, master: Option<Endpoint>, backup: Option<Endpoint>, first: Endpoint,
                   second: Option<Endpoint>) {
    if master.None? || backup.None? then Some(first) == OrElse(master, backup) && second.None?
    else
      match mode
      case MasterOnly => first == master.value && second.None?
      case BackupOnly => first == backup.value && second.None?
      case MasterThenBackup => first == master.value && second == backup
      case LBSmart => (first == master.value && second == backup) || (first == backup.value && second == master)
  }

  method Choose(mode: Mode, master: Option<Endpoint>, backup: Option<Endpoint>)
    returns (first: Endpoint, second: Option<Endpoint>)
    requires master.Some? || backup.Some?
    ensures Chosen(mode, master, backup, first, second)
  {
    var effective := mode;
    if master.None? {
      effective := BackupOnly;
    }
    if backup.None? {
      effective := MasterOnly;
    }
    second := None;
    match effective
    case MasterOnly => first := master.value;
    case BackupOnly => first := backup.value;
    case MasterThenBackup => first, second := master.value, backup;
    case LBSmart =>
      first, second := master.value, backup;
      var swap: bool := *;
      if swap {
        first, second := backup.value, master;
      }
  }

  function RouteOf(snap: Topology, shard: nat, role: Role): Option<Endpoint> {
    if RouteKey(shard, role) in snap.routes then Some(snap.routes[RouteKey(shard, role)]) else None
  }

  // ---- retrying

  /** Where a failed first attempt is tried again: after a refusal by the wrong node, where its route
      trailer points within the snapshot; after unavailability, at the other endpoint. Never after a
      partial failure, and never at the same endpoint. */
  function RetryTarget(snap: Topology, first: Endpoint, second: Option<Endpoint>, e: Error): (r: Option<Endpoint>)
    ensures r.Some? ==> !HasPartial(e) && r.value != first
    ensures r.Some? ==> CodeOf(e) == FailedPrecondition || CodeOf(e) == Unavailable
    ensures r.Some? ==> r.value in snap.targets.Values || second == r
  {
    if HasPartial(e) then None
    else if CodeOf(e) == FailedPrecondition then
      if RoutesOf(e).Some? && RoutesOf(e).value != [] && RoutesOf(e).value[0] in snap.targets &&
         snap.targets[RoutesOf(e).value[0]] != first
      then Some(snap.targets[RoutesOf(e).value[0]]) else None
    else if CodeOf(e) == Unavailable && second != Some(first) then second
    else None
  }

  /** After the first attempt. `late` says that the context has ended. */
  function Retry(snap: Topology, first: Endpoint, second: Option<Endpoint>, err: Option<Error>, late: bool)
    : Option<Endpoint>
  {
    if late || err.None? then None else RetryTarget(snap, first, second, err.value)
  }

  /** The branches of `run` after the first attempt. */
  method Next(snap: Topology, first: Endpoint, second: Option<Endpoint>, err: Option<Error>, late: bool)
    returns (next: Option<Endpoint>)
    ensures next == Retry(snap, first, second, err, late)
  {
    next := None;
    if err.None? || HasPartial(err.value) || late {
      return;
    }
    var e := err.value;
    if CodeOf(e) == FailedPrecondition {
      var routes := RoutesOf(e);
      if routes.Some? && routes.value != [] && routes.value[0] in snap.targets {
        var ep := snap.targets[routes.value[0]];
        if ep != first {
          next := Some(ep);
        }
      }
    } else if CodeOf(e) == Unavailable {
      if second.Some? && second.value != first {
        next := second;
      }
    }
  }

  // ---- run

  /** The shard of the hint, or the next one in turn. */
  method SelectShard(b: SmartBackend, weakHash: Option<uint32>, shards: nat) returns (shard: nat)
    requires b.Valid() && shards > 0
    modifies b`round
    ensures b.Valid() && b.View() == old(b.View()) && b.endpoints == old(b.endpoints)
    ensures shard == ShardFor(weakHash, b.round, shards)
    ensures b.round == if weakHash.Some? then old(b.round) else Rounds.Next(old(b.round))
  {
    if weakHash.Some? {
      shard := weakHash.value % shards;
    } else {
      var value := b.Tick();
      shard := Rounds.Shard(value, shards);
    }
  }

  function ShardFor(weakHash: Option<uint32>, round: nat, shards: nat): nat
    requires shards > 0
  {
    if weakHash.Some? then weakHash.value % shards else Rounds.Shard(round, shards)
  }

  /** One attempt, for the contracts: the endpoint, the answer, the calls, and how the operation went. */
  datatype Visit = Visit(endpoint: Endpoint, answer: Answer, log: seq<Call>, how: Course)

  predicate VisitOk(v: Visit, caller: Caller, op: Operation) {
    && Performed(Session(v.endpoint.connection.handle, caller.key, caller.ttl, caller.config, caller.mayEnd), op,
                 v.answer, v.log, v.how)
    && AllTo(v.endpoint.connection.handle, v.log)
    && (v.answer.outcome.err.Some? && !HasPartial(v.answer.outcome.err.value) ==>
        NoneAcknowledged(v.log, caller.config))
  }

  /** One attempt on a pinned endpoint, which is still pinned and open when the attempt ends. */
  method CallNode(b: SmartBackend, net: Network, run: nat, ep: Endpoint, caller: Caller, op: Operation)
    returns (a: Answer, ghost v: Visit)
    requires b.Valid() && run in b.runs && ep in b.runs[run].targets.Values && KeptOpen(b, ep)
    modifies b, b.endpoints, net
    ensures b.Valid() && Undisturbed(b, {run}, false) && Grows(b) && KeptOpen(b, ep)
    ensures net.calls == old(net.calls) + v.log && v.endpoint == ep && v.answer == a && VisitOk(v, caller, op)
  {
    hide Inv, SmartBackend.View, Performed;
    Interfere(b, {run}, false, 0);
    OpenNow(b, run, ep);
    ghost var log, how;
    a, log, how := Perform(net, SessionAt(caller, ep), op);
    v := Visit(ep, a, log, how);
    Interfere(b, {run}, false, 0);
    OpenNow(b, run, ep);
  }

  /** What happened in a run, for its contract: the captured snapshot, the value of the counter, the
      selected shard, the endpoint to fall back on, whether the context ended, and the attempts. */
  datatype Trip = Trip(snap: Topology, round: nat, shard: nat, fallback: Option<Endpoint>, late: bool,
                       visits: seq<Visit>)

  /** The first attempt goes to the endpoint that the mode prefers for the selected shard. */
  predicate StartsRight(trip: Trip, options: Options, mode: Mode) {
    trip.visits != [] ==>
      && trip.shard == ShardFor(options.weakHash, trip.round, trip.snap.shards)
      && Chosen(mode, RouteOf(trip.snap, trip.shard, MASTER), RouteOf(trip.snap, trip.shard, BACKUP),
                trip.visits[0].endpoint, trip.fallback)
  }

  /** At most two attempts, on endpoints of the snapshot. There is a second one exactly when the error
      of the first calls for it, and it is on another connection. */
  predicate TwoAtMost(trip: Trip, caller: Caller, op: Operation) {
    && |trip.visits| <= 2 && (trip.late ==> caller.mayEnd)
    && (forall i :: 0 <= i < |trip.visits| ==>
          trip.visits[i].endpoint in trip.snap.targets.Values && VisitOk(trip.visits[i], caller, op))
    && (trip.visits != [] ==>
          var first := trip.visits[0];
          var next := Retry(trip.snap, first.endpoint, trip.fallback, first.answer.outcome.err, trip.late);
          && (|trip.visits| == 2 <==> next.Some?)
          && (next.Some? ==>
                next.value == trip.visits[1].endpoint &&
                next.value.connection.handle != first.endpoint.connection.handle))
  }

  // ---- the same, in the terms of the errors and options

  /** There is a second attempt exactly if `there` says where, and it is there. */
  predicate SecondIs(trip: Trip, there: Option<Endpoint>) {
    match there
    case Some(e) => |trip.visits| == 2 && trip.visits[1].endpoint == e
    case None => |trip.visits| == 1
  }

  /** An unavailable endpoint is replaced by the other one of the shard; a wrong node by the one that its first
      route names in the snapshot; and never an endpoint by itself. Every other first attempt is the last. */
  predicate RetriesRight(trip: Trip) {
    trip.visits != [] ==>
      var first, targets := trip.visits[0].endpoint, trip.snap.targets;
      match trip.visits[0].answer.outcome.err
      case Some(Rpc(Unavailable, _)) => OtherEndpoint(trip, first)
      case Some(Local(Unavailable)) => OtherEndpoint(trip, first)
      case Some(Rpc(FailedPrecondition, routes)) =>
        if !trip.late && |routes| > 0 && routes[0] in targets && targets[routes[0]] != first
        then SecondIs(trip, Some(targets[routes[0]])) else SecondIs(trip, None)
      case _ => SecondIs(trip, None)
  }

  predicate OtherEndpoint(trip: Trip, first: Endpoint) {
    match trip.fallback
    case Some(other) => SecondIs(trip, if !trip.late && other != first then Some(other) else None)
    case None => SecondIs(trip, None)
  }

  /** The first attempt retries as the source says. */
  lemma RetriesAsTheErrorSays(trip: Trip, caller: Caller, op: Operation)
    requires TwoAtMost(trip, caller, op)
    ensures RetriesRight(trip)
  {
    hide VisitOk;
    if trip.visits != [] {
      var err := trip.visits[0].answer.outcome.err;
      if err.Some? && err.value.Partial? {
        assert HasPartial(err.value);
      }
    }
  }

  /** A hint selects the shard by its weak hash, and otherwise the low 31 bits of the counter do. */
  predicate SelectedShard(weakHash: Option<uint32>, round: nat, shards: nat, shard: nat)
    requires shards > 0
  {
    match weakHash
    case Some(h) => shard == h % shards
    case None => shard == round % 0x8000_0000 % shards
  }

  /** With both roles there, the mode of the call decides, for a write without one the master is tried first,
      and for a read without one the configured mode decides. */
  predicate InOrder(options: Options, write: bool, configured: Mode, master: Endpoint, backup: Endpoint,
                    first: Endpoint, second: Option<Endpoint>)
  {
    match options.mode
    case Some(mode) => ModeOrder(mode, master, backup, first, second)
    case None =>
      if write then first == master && second == Some(backup)
      else ModeOrder(configured, master, backup, first, second)
  }

  predicate ModeOrder(mode: Mode, master: Endpoint, backup: Endpoint, first: Endpoint, second: Option<Endpoint>) {
    match mode
    case MasterOnly => first == master && second == None
    case BackupOnly => first == backup && second == None
    case MasterThenBackup => first == master && second == Some(backup)
    case LBSmart => (first == master && second == Some(backup)) || (first == backup && second == Some(master))
  }

  /** The first attempt and the fallback, from what the snapshot routes for the roles master (1) and backup (2).
      A missing role leaves the other one, whatever the mode, and nothing to fall back on. */
  predicate ChosenRight(trip: Trip, options: Options, write: bool, configured: Mode) {
    trip.visits != [] ==>
      var first, routes := trip.visits[0].endpoint, trip.snap.routes;
      var master, backup := RouteKey(trip.shard, 1), RouteKey(trip.shard, 2);
      && SelectedShard(options.weakHash, trip.round, trip.snap.shards, trip.shard)
      && if master in routes && backup in routes
         then InOrder(options, write, configured, routes[master], routes[backup], first, trip.fallback)
         else
           && trip.fallback == None
           && (|| (master in routes && first == routes[master])
               || (backup in routes && first == routes[backup]))
  }

  lemma StartsAsTheOptionsSay(trip: Trip, options: Options, write: bool, configured: Mode)
    requires StartsRight(trip, options, EffectiveMode(options, write, configured))
    ensures ChosenRight(trip, options, write, configured)
  {
  }

  /** No attempt is made because no endpoint serves the selected shard. */
  lemma UnroutedMeans(trip: Trip, options: Options)
    ensures Unrouted(trip, options) <==>
            && SelectedShard(options.weakHash, trip.round, trip.snap.shards, trip.shard)
            && RouteKey(trip.shard, 1) !in trip.snap.routes && RouteKey(trip.shard, 2) !in trip.snap.routes
  {
  }

  /** All calls of the attempts. */
  function CallsOf(visits: seq<Visit>): seq<Call> {
    if visits == [] then [] else CallsOf(visits[..|visits| - 1]) + visits[|visits| - 1].log
  }

  /** Nothing is replayed: once any work of the first attempt was acknowledged, there is no second. */
  lemma NoReplayAfterProgress(trip: Trip, caller: Caller, op: Operation, i: nat)
    requires TwoAtMost(trip, caller, op) && trip.visits != [] && i < |trip.visits[0].log|
    requires Acknowledges(trip.visits[0].log[i], caller.config)
    ensures |trip.visits| == 1
  {
    hide Performed, Acknowledges;
    assert VisitOk(trip.visits[0], caller, op);
  }

  /** Routes only name endpoints of the snapshot that the run has pinned, and so does a reroute. */
  lemma RoutesInSnapshot(b: SmartBackend, run: nat, shard: nat, first: Endpoint, second: Option<Endpoint>, mode: Mode)
    requires b.Valid() && run in b.runs
    requires var snap := b.runs[run];
             var master, backup := RouteOf(snap, shard, MASTER), RouteOf(snap, shard, BACKUP);
             (master.Some? || backup.Some?) && Chosen(mode, master, backup, first, second)
    ensures first in b.runs[run].targets.Values
    ensures second.Some? ==> second.value in b.runs[run].targets.Values
  {
    hide TableOk, SnapshotHeld, ActiveExact, RefsExact, NoneIdle, OpenUntilFinished, PinsOk, CreatedOk, DraftOk,
      IssuesOk, LedgerExact;
  }

  /** Different endpoints of a snapshot have different connections. */
  lemma OtherConnection(b: SmartBackend, run: nat, d: Endpoint, e: Endpoint)
    requires b.Valid() && run in b.runs && d != e
    requires d in b.runs[run].targets.Values && e in b.runs[run].targets.Values
    ensures d.connection.handle != e.connection.handle
  {
    hide TableOk, SnapshotHeld, ActiveExact, RefsExact, NoneIdle, OpenUntilFinished, PinsOk, CreatedOk, DraftOk,
      LedgerExact;
    RunAccess(b.View(), run);
  }

  /** Select the shard of a run and the endpoints to try, in its snapshot. */
  method Prepare(b: SmartBackend, run: nat, options: Options, mode: Mode)
    returns (shard: nat, chosen: Option<(Endpoint, Option<Endpoint>)>)
    requires b.Valid() && run in b.runs
    modifies b`round
    ensures b.Valid() && b.View() == old(b.View()) && b.endpoints == old(b.endpoints)
    ensures shard == ShardFor(options.weakHash, b.round, b.runs[run].shards)
    ensures b.round == if options.weakHash.Some? then old(b.round) else Rounds.Next(old(b.round))
    ensures chosen.None? <==> RouteOf(b.runs[run], shard, MASTER).None? && RouteOf(b.runs[run], shard, BACKUP).None?
    ensures chosen.Some? ==>
              var (first, second) := chosen.value;
              && Chosen(mode, RouteOf(b.runs[run], shard, MASTER), RouteOf(b.runs[run], shard, BACKUP), first, second)
              && first in b.runs[run].targets.Values && (second.Some? ==> second.value in b.runs[run].targets.Values)
  {
    hide Inv, SmartBackend.Nodes, ShardFor;
    var snap := b.runs[run];
    shard := SelectShard(b, options.weakHash, snap.shards);
    var master, backup := RouteOf(snap, shard, MASTER), RouteOf(snap, shard, BACKUP);
    hide RouteOf;
    if master.None? && backup.None? {
      return shard, None;
    }
    var first, second := Choose(mode, master, backup);
    RoutesInSnapshot(b, run, shard, first, second, mode);
    chosen := Some((first, second));
  }

  lemma OneVisit(trip: Trip, v: Visit, caller: Caller, op: Operation)
    requires trip.visits == [v] && v.endpoint in trip.snap.targets.Values && VisitOk(v, caller, op)
    requires trip.late ==> caller.mayEnd
    requires Retry(trip.snap, v.endpoint, trip.fallback, v.answer.outcome.err, trip.late).None?
    ensures TwoAtMost(trip, caller, op) && CallsOf(trip.visits) == v.log
  {
    hide VisitOk, Retry;
  }

  lemma TwoVisits(trip: Trip, v: Visit, w: Visit, caller: Caller, op: Operation)
    requires trip.late ==> caller.mayEnd
    requires trip.visits == [v, w] && v.endpoint in trip.snap.targets.Values && w.endpoint in trip.snap.targets.Values
    requires VisitOk(v, caller, op) && VisitOk(w, caller, op)
    requires Retry(trip.snap, v.endpoint, trip.fallback, v.answer.outcome.err, trip.late) == Some(w.endpoint)
    requires w.endpoint.connection.handle != v.endpoint.connection.handle
    ensures TwoAtMost(trip, caller, op) && CallsOf(trip.visits) == v.log + w.log
  {
    hide VisitOk, Retry;
    assert trip.visits[..1] == [v] && [v][..0] == [];
    assert CallsOf([v]) == v.log;
  }

  lemma NoVisit(trip: Trip, caller: Caller, op: Operation, options: Options, mode: Mode)
    requires trip.visits == [] && !trip.late
    ensures TwoAtMost(trip, caller, op) && StartsRight(trip, options, mode) && CallsOf(trip.visits) == []
  {
  }

  /** The first attempt and, where it is allowed, the second. */
  method Visits(b: SmartBackend, net: Network, run: nat, first: Endpoint, second: Option<Endpoint>,
                caller: Caller, op: Operation, ghost before: Trip)
    returns (a: Answer, ghost trip: Trip)
    requires b.Valid() && run in b.runs && b.runs[run] == before.snap
    requires first in before.snap.targets.Values && (second.Some? ==> second.value in before.snap.targets.Values)
    modifies b, b.endpoints, net
    ensures b.Valid() && Grows(b) && run in b.runs && (old(b.snapshot).Some? ==> b.snapshot.Some?)
    ensures net.calls == old(net.calls) + CallsOf(trip.visits)
    ensures trip == before.(fallback := second, late := trip.late, visits := trip.visits)
    ensures trip.visits != [] && trip.visits[0].endpoint == first && trip.visits[|trip.visits| - 1].answer == a
    ensures TwoAtMost(trip, caller, op)
  {
    hide Inv, SmartBackend.View, VisitOk, KeptOpen, TwoAtMost, RetryTarget;
    var snap := b.runs[run];
    OpenNow(b, run, first);
    ghost var v, w;
    a, v := CallNode(b, net, run, first, caller, op);
    var ended := ContextState(caller.mayEnd);
    var late := ended.Some?;
    trip := before.(fallback := second, late := late, visits := [v]);
    var next := Next(snap, first, second, a.outcome.err, late);
    if next.None? {
      OneVisit(trip, v, caller, op);
    } else {
      OtherConnection(b, run, next.value, first);
      OpenNow(b, run, next.value);
      a, w := CallNode(b, net, run, next.value, caller, op);
      trip := trip.(visits := [v, w]);
      TwoVisits(trip, v, w, caller, op);
    }
  }

  /** No endpoint has either role for the selected shard. */
  predicate Unrouted(trip: Trip, options: Options) {
    && trip.shard == ShardFor(options.weakHash, trip.round, trip.snap.shards)
    && RouteOf(trip.snap, trip.shard, MASTER).None? && RouteOf(trip.snap, trip.shard, BACKUP).None?
  }

  /** The attempts of a run, between pinning its snapshot and unpinning it. */
  method Attempts(b: SmartBackend, net: Network, run: nat, options: Options, mode: Mode, caller: Caller, op: Operation)
    returns (r: Result<Answer, Error>, ghost trip: Trip)
    requires b.Valid() && run in b.runs
    modifies b, b.endpoints, net
    ensures b.Valid() && Grows(b) && run in b.runs && trip.snap == old(b.runs)[run]
    ensures net.calls == old(net.calls) + CallsOf(trip.visits)
    ensures TwoAtMost(trip, caller, op) && StartsRight(trip, options, mode)
    ensures if r.Ok? then trip.visits != [] && trip.visits[|trip.visits| - 1].answer == r.value else trip.visits == []
    ensures r.Err? ==> Ended(caller.mayEnd, r.error) || (r.error == Local(Unavailable) && Unrouted(trip, options))
    ensures old(b.snapshot).Some? ==> b.snapshot.Some?
  {
    hide Inv, SmartBackend.View, TwoAtMost;
    Interfere(b, {run}, false, 0);
    var shard, chosen := Prepare(b, run, options, mode);
    ghost var snap := b.runs[run];
    trip := Trip(snap, b.round, shard, None, false, []);
    NoVisit(trip, caller, op, options, mode);
    if chosen.None? {
      return Err(Local(Unavailable)), trip;
    }
    var stopped := ContextState(caller.mayEnd);
    if stopped.Some? {
      return Err(stopped.value), trip;
    }
    assert b.runs[run] == snap;
    hide Chosen, RouteOf, ShardFor;
    var a;
    a, trip := Visits(b, net, run, chosen.value.0, chosen.value.1, caller, op, trip);
    r := Ok(a);
  }

  /** Wait for the first topology, while other threads go on. The context may end the wait, Close may, and so
      may the ready timeout: for a call that finds no topology, and for any call if it is so short that it may
      be over (`hasty`) when the call looks. */
  method WaitReady(b: SmartBackend, run: nat, mayEnd: bool, hasty: bool) returns (e: Option<Error>)
    requires b.Valid() && run !in b.runs
    modifies b, b.endpoints
    ensures b.Valid() && Grows(b) && run !in b.runs && (old(b.snapshot).Some? ==> b.snapshot.Some?)
    ensures e.None? ==> b.snapshot.Some?
    ensures e.Some? ==>
              || Ended(mayEnd, e.value)
              || (b.closed && e.value == Local(Canceled))
              || ((old(b.snapshot).None? || hasty) && e.value == Local(DeadlineExceeded))
  {
    hide Inv;
    var waits, over: bool := b.snapshot.None?, *;
    Interfere(b, {run}, false, 0);
    e := ContextState(mayEnd);
    if e.None? && b.closed {
      var seen: bool := *;
      if seen {
        return Some(Local(Canceled));
      }
    }
    if e.None? && (b.snapshot.None? || (over && (waits || hasty))) {
      e := Some(Local(DeadlineExceeded));
    }
    Interfere(b, {run}, false, 0);
  }

  /** Why a run makes no attempt: its context has ended, the client is closed, there was no topology when
      it was called or the ready timeout was over at once, or the topology has no route for its shard. */
  predicate Refusal(e: Error, caller: Caller, closed: bool, late: bool, trip: Trip, options: Options) {
    || Ended(caller.mayEnd, e)
    || (e == Local(Canceled) && closed)
    || (e == Local(DeadlineExceeded) && late)
    || (e == Local(Unavailable) && Unrouted(trip, options))
  }

  /** What happened before `s` was the state: nothing is undone. */
  predicate Later(before: State, s: State) {
    && before.info.Keys <= s.info.Keys && (before.closed ==> s.closed)
    && (before.snapshot.Some? ==> s.snapshot.Some?)
  }

  twostate lemma LaterHere(b: SmartBackend)
    requires old(b.endpoints) <= b.endpoints && (old(b.closed) ==> b.closed)
    requires old(b.snapshot).Some? ==> b.snapshot.Some?
    ensures Later(old(b.View()), b.View())
  {
  }

  lemma ViewOf(b: SmartBackend)
    ensures b.View().snapshot == b.snapshot && b.View().closed == b.closed
  {
  }

  /**
   Run an operation. `run` names this call among the calls in flight; `begin` is the state in which its
   locked section pins the snapshot, after any steps of other threads. It makes at most two attempts, on
   different pinned endpoints of that snapshot, and leaves nothing pinned. Unless its context or a `hasty`
   ready timeout ends, or the client is closed, a call that finds a topology with a route is attempted.
   */
  method Run(b: SmartBackend, net: Network, run: nat, options: Options, write: bool, configured: Mode,
             caller: Caller, hasty: bool, op: Operation)
    returns (r: Result<Answer, Error>, ghost trip: Trip, ghost begin: Option<State>)
    requires b.Valid() && run !in b.runs
    modifies b, b.endpoints, net
    ensures b.Valid() && Grows(b) && run !in b.runs
    ensures net.calls == old(net.calls) + CallsOf(trip.visits)
    ensures TwoAtMost(trip, caller, op) && StartsRight(trip, options, EffectiveMode(options, write, configured))
    ensures RetriesRight(trip) && ChosenRight(trip, options, write, configured)
    ensures begin.Some? ==> Later(old(b.View()), begin.value) && Later(begin.value, b.View())
    ensures begin.Some? && !begin.value.closed ==> begin.value.snapshot == Some(trip.snap)
    ensures trip.visits != [] ==> begin.Some? && !begin.value.closed
    ensures if r.Ok? then trip.visits != [] && trip.visits[|trip.visits| - 1].answer == r.value else trip.visits == []
    ensures r.Err? ==> Refusal(r.error, caller, b.closed, old(b.snapshot).None? || hasty, trip, options)
    ensures r.Err? && r.error == Local(Unavailable) ==> begin.Some? && !begin.value.closed
  {
    hide Inv, SmartBackend.View, Apply, TwoAtMost, StartsRight, CallsOf, Enabled, Unrouted, Later, RetriesRight,
      ChosenRight;
    trip, begin := Trip(Topology(1, map[], map[]), 0, 0, None, false, []), None;
    NoVisit(trip, caller, op, options, EffectiveMode(options, write, configured));
    RetriesAsTheErrorSays(trip, caller, op);
    StartsAsTheOptionsSay(trip, options, write, configured);
    var stopped := WaitReady(b, run, caller.mayEnd, hasty);
    if stopped.Some? {
      return Err(stopped.value), trip, begin;
    }
    begin := Some(b.View());
    ViewOf(b);
    LaterHere(b);
    label locked:
    var ok := b.RunBegin(run);
    if !ok {
      LaterHere@locked(b);
      return Err(Local(Canceled)), trip, begin;
    }
    r, trip := Attempts(b, net, run, options, EffectiveMode(options, write, configured), caller, op);
    RetriesAsTheErrorSays(trip, caller, op);
    StartsAsTheOptionsSay(trip, options, write, configured);
    b.RunEnd(run);
    LaterHere@locked(b);
  }
}
