/**
 Safety of the smart backend over whole runs: every sequence of steps, by any number of concurrent
 calls and refreshes, that starts from a new backend.
 */
module Executions {
  import opened Wrappers
  import opened Endpoints
  import opened Lifecycle

  /** `states[i]` is the state before `steps[i]`. */
  predicate Execution(states: seq<State>, steps: seq<Step>) {
    && |states| == |steps| + 1
    && states[0] == INITIAL
    && forall i :: 0 <= i < |steps| ==> Enabled(states[i], steps[i]) && states[i + 1] == Apply(states[i], steps[i])
  }

  lemma {:induction false} AlwaysInv(states: seq<State>, steps: seq<Step>, i: nat)
    requires Execution(states, steps) && i < |states|
    ensures Inv(states[i])
  {
    hide Inv, Enabled, Apply;
    if i == 0 {
      InitialInv();
    } else {
      AlwaysInv(states, steps, i - 1);
      StepKeeps(states[i - 1], steps[i - 1]);
    }
  }

  /** A run keeps the snapshot it captured until it ends. */
  lemma {:induction false} RunKeepsItsSnapshot(states: seq<State>, steps: seq<Step>, i: nat, j: nat, run: nat)
    requires Execution(states, steps) && i < j < |states|
    requires steps[i] == RunBegin(run)
    requires forall k :: i < k < j ==> steps[k] != RunEnd(run)
    ensures run in states[j].runs && Some(states[j].runs[run]) == states[i].snapshot
  {
    hide Apply, Enabled;
    if j == i + 1 {
      assert states[j] == Apply(states[i], steps[i]);
      BeginCaptures(states[i], run);
    } else {
      RunKeepsItsSnapshot(states, steps, i, j - 1, run);
      var before, step := states[j - 1], steps[j - 1];
      assert states[j] == Apply(before, step);
      RunsChange(before, step, run);
    }
  }

  lemma BeginCaptures(s: State, run: nat)
    requires Enabled(s, RunBegin(run))
    ensures run in Apply(s, RunBegin(run)).runs && Some(Apply(s, RunBegin(run)).runs[run]) == s.snapshot
  {
  }

  /** The steps of the refresher that use the factory. */
  predicate Factory(step: Step) {
    step.Dialed? || step.Store? || step.Created? || step.Refused? || step.Lookup?
  }

  lemma FactoryFrame(s: State, step: Step)
    requires Enabled(s, step) && Factory(step)
    ensures Apply(s, step).runs == s.runs && Apply(s, step).snapshot == s.snapshot
  {
    hide AddRefs, CloseOne, AddTarget;
    match step
    case Dialed(_, _) =>
    case Store =>
    case Created(_) =>
    case Refused(_) =>
    case _ =>
  }

  lemma OtherFrame(s: State, step: Step)
    requires Enabled(s, step) && !Factory(step)
    ensures Apply(s, step).runs == match step
                                   case RunBegin(run) => s.runs[run := s.snapshot.value]
                                   case RunEnd(run) => s.runs - {run}
                                   case _ => s.runs
    ensures step != Commit ==> Apply(s, step).snapshot == s.snapshot
  {
    hide Retire, AddRefs, MarkClosed, Activate, NodeHandles, ConnectionHandles, OpenOnes, CloseOne, Elements;
    match step
    case RunBegin(_) =>
    case RunEnd(_) =>
    case Commit =>
    case _ =>
  }

  lemma RunsChange(s: State, step: Step, run: nat)
    requires Enabled(s, step) && run in s.runs && step != RunEnd(run)
    ensures run in Apply(s, step).runs && Apply(s, step).runs[run] == s.runs[run]
  {
    hide Apply;
    if Factory(step) {
      FactoryFrame(s, step);
    } else {
      OtherFrame(s, step);
    }
  }

  /**
   While a run is unfinished, every endpoint of the snapshot it captured stays in the table under
   its target. Until Close has finished, its connection is open: neither marked closed nor closed.
   */
  lemma PinnedUntilRunEnds(states: seq<State>, steps: seq<Step>, i: nat, j: nat, run: nat, t: Target)
    requires Execution(states, steps) && i < j < |states|
    requires steps[i] == RunBegin(run)
    requires forall k :: i < k < j ==> steps[k] != RunEnd(run)
    requires states[i].snapshot.Some? && t in states[i].snapshot.value.targets
    ensures var e := states[i].snapshot.value.targets[t];
            && t in states[j].nodes && states[j].nodes[t] == e
            && At(states[j].info, e).refs >= 1
            && (!states[j].finished ==> !At(states[j].info, e).closed && states[j].closes[e.connection.handle] == 0)
  {
    RunKeepsItsSnapshot(states, steps, i, j, run);
    AlwaysInv(states, steps, j);
    InFlightIsOpen(states[j], run, t);
  }

  lemma InFlightIsOpen(s: State, run: nat, t: Target)
    requires Inv(s) && run in s.runs && t in s.runs[run].targets
    ensures var e := s.runs[run].targets[t];
            && t in s.nodes && s.nodes[t] == e && e in s.info && At(s.info, e).refs >= 1
            && (!s.finished ==> !At(s.info, e).closed && s.closes[e.connection.handle] == 0)
  {
    hide ActiveExact, NoneIdle, PinsOk, CreatedOk, DraftOk, SnapshotHeld, Injective, RoutesInTargets;
    HeldIsCounted(s, run, t);
    assert s.nodes[t] in s.nodes.Values;
  }

  /** No Close callback is invoked twice, and none that the client does not own. */
  lemma ClosedAtMostOnce(states: seq<State>, steps: seq<Step>, i: nat, h: nat)
    requires Execution(states, steps) && i < |states|
    ensures states[i].closes[h] <= 1
    ensures states[i].closes[h] == 1 ==> h < |states[i].issued| && states[i].issued[h].connection.owned
  {
    AlwaysInv(states, steps, i);
    hide *;
    LedgerBounds(states[i], h);
  }

  lemma LedgerBounds(s: State, h: nat)
    requires Inv(s)
    ensures s.closes[h] <= 1
    ensures s.closes[h] == 1 ==> h < |s.issued| && s.issued[h].connection.owned
    ensures s.finished && h < |s.issued| ==> s.closes[h] == if s.issued[h].connection.owned then 1 else 0
  {
    hide TableOk, RunsHeld, SnapshotHeld, ActiveExact, RefsExact, NoneIdle, OpenUntilFinished, PinsOk, CreatedOk,
      DraftOk, IssuesOk;
  }

  /** When Close returns, every owned connection the factory ever returned has been closed exactly
      once, through every path that publishing and discovery can fail on. */
  lemma ClosedExactlyOnceAtTheEnd(states: seq<State>, steps: seq<Step>, i: nat, h: nat)
    requires Execution(states, steps) && i < |states|
    requires states[i].finished && h < |states[i].issued|
    ensures states[i].closes[h] == if states[i].issued[h].connection.owned then 1 else 0
  {
    AlwaysInv(states, steps, i);
    hide *;
    LedgerBounds(states[i], h);
  }

  /** A target that was removed and comes back while a call still holds it gets the same endpoint. */
  lemma SameEndpointWhileHeld(states: seq<State>, steps: seq<Step>, i: nat, run: nat, t: Target)
    requires Execution(states, steps) && i < |states|
    requires run in states[i].runs && t in states[i].runs[run].targets
    requires states[i].snapshot.Some? && t in states[i].snapshot.value.targets
    ensures states[i].snapshot.value.targets[t] == states[i].runs[run].targets[t]
  {
    AlwaysInv(states, steps, i);
    hide TableOk, ActiveExact, RefsExact, NoneIdle, OpenUntilFinished, PinsOk, CreatedOk, DraftOk,
      IssuesOk, LedgerExact;
  }

  /** A commit never replaces the endpoint of a target that is in the table. */
  lemma CommitOverwritesNothing(states: seq<State>, steps: seq<Step>, i: nat, t: Target)
    requires Execution(states, steps) && i < |steps| && steps[i] == Commit
    requires t in states[i].nodes && t in states[i].refresher.draft.targets
    ensures states[i].nodes[t] == states[i].refresher.draft.targets[t]
  {
    AlwaysInv(states, steps, i);
    hide RunsHeld, SnapshotHeld, ActiveExact, RefsExact, NoneIdle, OpenUntilFinished, IssuesOk, LedgerExact;
    CommitTable(states[i]);
  }

  /** Reference counts are the number of holders, at every point and so never negative. */
  lemma ReferenceCounts(states: seq<State>, steps: seq<Step>, i: nat, e: Endpoint)
    requires Execution(states, steps) && i < |states| && e in states[i].info
    ensures var s := states[i];
            s.info[e].refs == |set r | r in s.runs && e in s.runs[r].targets.Values|
                              + (if e in Pinned(s) then 1 else 0)
  {
    AlwaysInv(states, steps, i);
    hide TableOk, RunsHeld, SnapshotHeld, ActiveExact, NoneIdle, OpenUntilFinished, PinsOk, CreatedOk, DraftOk,
      IssuesOk, LedgerExact;
    assert Users(states[i].runs, e) == set r | r in states[i].runs && e in states[i].runs[r].targets.Values;
  }

  /** An endpoint is in the table only for a reason: it is active, or somebody holds it; and it is active
      exactly when the current snapshot maps its target to it. */
  lemma TableIsJustified(states: seq<State>, steps: seq<Step>, i: nat, t: Target)
    requires Execution(states, steps) && i < |states| && t in states[i].nodes
    ensures var s, e := states[i], states[i].nodes[t];
            && (At(s.info, e).active || At(s.info, e).refs > 0)
            && (At(s.info, e).active <==>
                  s.snapshot.Some? && t in s.snapshot.value.targets && s.snapshot.value.targets[t] == e)
  {
    AlwaysInv(states, steps, i);
    hide OpenUntilFinished, PinsOk, CreatedOk, DraftOk, IssuesOk, LedgerExact, RunsHeld, RoutesInTargets, Injective,
      Users;
  }

  /** Nothing leaks: with no call and no refresh in flight, the table is the snapshot's target table. */
  lemma QuiescentTable(states: seq<State>, steps: seq<Step>, i: nat)
    requires Execution(states, steps) && i < |states|
    requires states[i].runs == map[] && states[i].refresher.Idle?
    ensures states[i].nodes == if states[i].snapshot.Some? then states[i].snapshot.value.targets else map[]
  {
    AlwaysInv(states, steps, i);
    var s := states[i];
    hide OpenUntilFinished, CreatedOk, DraftOk, IssuesOk, LedgerExact, RunsHeld, RoutesInTargets;
    forall t | t in s.nodes
      ensures s.snapshot.Some? && t in s.snapshot.value.targets
    {
      assert Users(s.runs, s.nodes[t]) == {};
    }
  }

  /** Only a commit changes the snapshot: until the next commit the last good one stays. */
  lemma {:induction false} LastGoodSnapshotStays(states: seq<State>, steps: seq<Step>, i: nat, j: nat)
    requires Execution(states, steps) && i <= j < |states|
    requires forall k :: i <= k < j ==> steps[k] != Commit
    ensures states[j].snapshot == states[i].snapshot
  {
    hide Apply, Enabled;
    if i < j {
      LastGoodSnapshotStays(states, steps, i, j - 1);
      SnapshotChange(states[j - 1], steps[j - 1]);
    }
  }

  lemma SnapshotChange(s: State, step: Step)
    requires Enabled(s, step) && step != Commit
    ensures Apply(s, step).snapshot == s.snapshot
  {
    hide *;
    if Factory(step) {
      FactoryFrame(s, step);
    } else {
      OtherFrame(s, step);
    }
  }
}
