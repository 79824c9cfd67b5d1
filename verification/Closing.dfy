/** `Close` (client.go:188-192, smart.go:464-490). */
module Closing {
  import opened Lifecycle
  import opened SmartBackends
  import opened Refreshing
  import Executions

  /** Every owned connection that the factory ever returned is closed, exactly once, and no other. */
  predicate AllClosedOnce(s: State) {
    forall h :: 0 <= h < |s.issued| ==> s.closes[h] == if s.issued[h].connection.owned then 1 else 0
  }

  lemma FinishedClosedAll(s: State)
    requires Inv(s) && s.finished
    ensures AllClosedOnce(s)
  {
    hide Inv;
    forall h | 0 <= h < |s.issued|
      ensures s.closes[h] == if s.issued[h].connection.owned then 1 else 0
    {
      Executions.LedgerBounds(s, h);
    }
  }

  /** The refreshes in flight end: their context has ended, so those that wait give up, and the one that
      holds the gate leaves it. */
  method Drain(b: SmartBackend)
    requires b.Valid() && b.closed
    modifies b, b.endpoints
    ensures b.Valid() && b.closed && b.waiting == 0 && b.refresher.Idle? && b.finished == old(b.finished) && Grows(b)
  {
    hide Inv, SmartBackend.View;
    LeaveGate(b);
    while b.waiting > 0
      invariant b.Valid() && b.closed && b.refresher.Idle? && b.finished == old(b.finished) && Grows(b)
    {
      b.GiveUp();
    }
  }

  /**
   Close: refuse new work, wait for the refreshes, close what is left: after it, every owned connection
   is closed, exactly once. A second Close changes nothing. Calls may still be in flight; their unpinning
   closes nothing again, because `Valid` keeps the ledger exact.
   */
  method Close(b: SmartBackend)
    requires b.Valid()
    modifies b, b.endpoints
    ensures b.Valid() && Grows(b) && b.finished && b.closed
    ensures old(b.finished) ==> b.View() == old(b.View())
    ensures AllClosedOnce(b.View())
  {
    hide Inv, SmartBackend.View, Apply, AllClosedOnce;
    if !b.finished {
      if !b.closed {
        b.CloseBegin();
      }
      Interfere(b, {}, false, 0);
      Drain(b);
      if !b.finished {
        b.CloseFinish();
      }
    }
    FinishedBackend(b);
  }

  lemma FinishedBackend(b: SmartBackend)
    requires b.Valid() && b.finished
    ensures b.closed && AllClosedOnce(b.View())
  {
    hide Inv, AllClosedOnce;
    FinishedIsClosed(b.View());
    FinishedClosedAll(b.View());
  }

  lemma FinishedIsClosed(s: State)
    requires Inv(s) && s.finished
    ensures s.closed
  {
    hide TableOk, RunsHeld, SnapshotHeld, ActiveExact, RefsExact, NoneIdle, OpenUntilFinished, PinsOk, CreatedOk,
      DraftOk, IssuesOk, LedgerExact;
  }
}
