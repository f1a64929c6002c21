// crossing/ledger.py: the units of work as the code runs them, write by write.
module Ledger {
  import opened Model
  import opened LedgerSpec
  import opened Session
  import Billing

  /** Append-only: the log grows by one event and nothing else changes. */
  method AppendEvent(s: Session, ev: Event)
    modifies s
    ensures s.Tables() == old(s.Tables()).(events := old(s.events) + [ev])
  {
    s.events := s.events + [ev];
  }

  /** `copy` is the caller's copy of the row: only the reason and the balance of a denial are read from it. */
  method Reserve(s: Session, m: MandateId, amount: int, key: Option<string>, nonce: Option<string>, copy: MandateCopy,
                 now: Time, later: Time, recordDeny: bool)
    returns (h: HoldId, denied: Option<Reason>)
    requires m < |s.mandates|
    modifies s
    ensures denied.None? <==> amount >= 0 && Debitable(old(s.mandates)[m], amount, now)
    ensures denied.None? ==> h == |old(s.holds)| && s.Tables() == DebitHold(old(s.Tables()), m, amount, key, nonce, now)
    ensures amount < 0 ==> denied == Some(InvalidAmount) && s.Tables() == old(s.Tables())
    ensures denied.Some? && amount >= 0 ==> denied == Some(DenyReason(Seen(old(s.mandates)[m], copy), amount, later))
    ensures denied.Some? && amount >= 0 ==>
              s.Tables() == if recordDeny
                            then DenyLogged(old(s.Tables()), m, amount, Some(copy.remaining))
                            else old(s.Tables())
  {
    h := |s.holds|;
    if amount < 0 {
      return h, Some(InvalidAmount);
    }
    var row := s.mandates[m];
    if !Debitable(row, amount, now) {
      if recordDeny {
        AppendEvent(s, Event(m, DenyEvent, amount, Some(copy.remaining), None));
      }
      return h, Some(DenyReason(Seen(row, copy), amount, later));
    }
    s.mandates := s.mandates[m := Debited(row, amount)];
    s.holds := s.holds + [Hold(row.principal, m, amount, Held, key, nonce, now)];
    AppendEvent(s, Event(m, ReserveEvent, amount, Some(s.mandates[m].remaining), Some(h)));
    return h, None;
  }

  /** Insert the claim, or say what the existing one means for this caller. */
  method ClaimIdempotency(s: Session, principal: PrincipalId, key: string, hash: Option<string>)
    returns (existing: Option<ReserveOutcome>)
    modifies s
    ensures existing.None? <==> ClaimKey(principal, key) !in old(s.claims)
    ensures existing.None? ==>
              s.Tables() == old(s.Tables()).(claims :=
                old(s.claims)[ClaimKey(principal, key) := Claim(hash, ClaimInProgress, None)])
    ensures existing.Some? ==>
              s.Tables() == old(s.Tables())
              && existing.value == ExistingClaim(old(s.claims)[ClaimKey(principal, key)], hash)
  {
    var ck := ClaimKey(principal, key);
    if ck in s.claims {
      return Some(ExistingClaim(s.claims[ck], hash));
    }
    s.claims := s.claims[ck := Claim(hash, ClaimInProgress, None)];
    return None;
  }

  /** Claim, debit and attempt in one savepoint; a denial is logged after the savepoint is undone. */
  method ReserveAndCommit(s: Session, r: Request, copy: MandateCopy, now: Time, later: Time)
    returns (out: ReserveOutcome)
    requires r.mandate < |s.mandates|
    modifies s
    ensures (s.Tables(), out) == LedgerSpec.ReserveAndCommit(old(s.Tables()), r, copy, now, later)
    ensures !out.Opened? ==>
              && s.Tables() == old(s.Tables()).(events := s.events)
              && (s.events == old(s.events)
                  || s.events == old(s.events)
                                 + [Event(r.mandate, DenyEvent, r.amount, Some(old(s.mandates)[r.mandate].remaining), None)])
  {
    var savepoint := s.Tables();
    var principal := s.mandates[r.mandate].principal;
    if Present(r.key) {
      var existing := ClaimIdempotency(s, principal, r.key.value, r.hash);
      if existing.Some? {
        s.RollbackTo(savepoint);
        return existing.value;
      }
    }
    var h, denied := Reserve(s, r.mandate, r.amount, r.key, r.nonce, copy, now, later, false);
    if denied.Some? {
      s.RollbackTo(savepoint);
      if denied.value in {BudgetExceeded, MaxCallsExceeded, MandateExpired} {
        AppendEvent(s, Event(r.mandate, DenyEvent, r.amount, Some(s.mandates[r.mandate].remaining), None));
      }
      return ReserveDenied(denied.value);
    }
    var i := |s.invocations|;
    s.invocations := s.invocations
                     + [Invocation(principal, r.mandate, Some(h), r.tool, r.server, r.hash, r.key, r.amount, Reserved)];
    return Opened(h, i);
  }

  method CasInvocation(s: Session, i: InvocationId, allowed: set<InvocationStatus>, status: InvocationStatus)
    returns (won: bool)
    requires i < |s.invocations|
    modifies s
    ensures won <==> old(s.invocations)[i].status in allowed
    ensures s.Tables() == if won then WithStatus(old(s.Tables()), i, status) else old(s.Tables())
  {
    won := s.invocations[i].status in allowed;
    if won {
      s.invocations := s.invocations[i := s.invocations[i].(status := status)];
    }
  }

  method CasReservation(s: Session, h: HoldId, status: HoldStatus) returns (won: bool)
    requires h < |s.holds|
    modifies s
    ensures won <==> old(s.holds)[h].status == Held
    ensures s.Tables() == if won
                          then old(s.Tables()).(holds := old(s.holds)[h := old(s.holds)[h].(status := status)])
                          else old(s.Tables())
  {
    won := s.holds[h].status == Held;
    if won {
      s.holds := s.holds[h := s.holds[h].(status := status)];
    }
  }

  datatype MarkResult = Marked | NotMarked(reason: Reason)

  /** The dispatch barrier: reserved to executing, committed before any provider I/O. */
  method MarkExecuting(s: Session, i: InvocationId) returns (result: MarkResult)
    requires i < |s.invocations|
    modifies s
    ensures s.Tables() == MoveStatus(old(s.Tables()), i, {Reserved}, Executing)
    ensures result.Marked? <==> old(s.invocations)[i].status == Reserved
    ensures result.NotMarked? ==>
              result.reason == if old(s.invocations)[i].status in {Executing, ExecutedOk} then InProgress else FinalizeLost
  {
    var won := CasInvocation(s, i, {Reserved}, Executing);
    if won {
      return Marked;
    }
    var status := s.invocations[i].status;
    return NotMarked(if status in TERMINAL then FinalizeLost else InProgress);
  }

  method MarkExecutedFail(s: Session, i: InvocationId)
    requires i < |s.invocations|
    modifies s
    ensures s.Tables() == MoveStatus(old(s.Tables()), i, {Executing}, ExecutedFail)
  {
    var _ := CasInvocation(s, i, {Executing}, ExecutedFail);
  }

  method RefundMandate(s: Session, hold: Hold) returns (remaining: Option<int>)
    modifies s
    ensures s.Tables() == old(s.Tables()).(mandates := RefundedMandates(old(s.mandates), hold))
    ensures remaining == RemainingOf(s.mandates, hold.mandate)
  {
    if hold.mandate >= |s.mandates| {
      return None;
    }
    s.mandates := s.mandates[hold.mandate := Refunded(s.mandates[hold.mandate], hold.amount)];
    return Some(s.mandates[hold.mandate].remaining);
  }

  method ClearLogicalOperation(s: Session, inv: Invocation)
    modifies s
    ensures s.Tables() == old(s.Tables()).(claims := ClearedClaims(old(s.claims), inv))
  {
    if !Present(inv.key) {
      return;
    }
    var ck := ClaimKey(inv.principal, inv.key.value);
    if ck in s.claims {
      s.claims := s.claims - {ck};
    }
  }

  method CompleteLogicalOperation(s: Session, inv: Invocation, result: Option<string>)
    modifies s
    ensures s.Tables() == old(s.Tables()).(claims := CompletedClaims(old(s.claims), inv, result))
  {
    if !Present(inv.key) {
      return;
    }
    var ck := ClaimKey(inv.principal, inv.key.value);
    if ck !in s.claims {
      s.claims := s.claims[ck := Claim(inv.hash, ClaimCompleted, result)];
    } else {
      var claim := s.claims[ck];
      claim := claim.(status := ClaimCompleted);
      if Present(inv.hash) {
        claim := claim.(hash := inv.hash);
      }
      s.claims := s.claims[ck := claim.(result := result)];
    }
  }

  /** Issue a receipt; the unique column on the reservation makes a second one fail. */
  method IssueReceipt(s: Session, inv: Invocation, h: HoldId) returns (receipt: Option<ReceiptId>)
    modifies s
    ensures receipt.None? <==> HasReceipt(old(s.receipts), h)
    ensures receipt.None? ==> s.Tables() == old(s.Tables())
    ensures receipt.Some? ==>
              receipt.value == |old(s.receipts)|
              && s.Tables() == old(s.Tables()).(receipts := old(s.receipts) + [Receipt(inv.principal, inv.mandate, h, inv.amount)])
  {
    if HasReceipt(s.receipts, h) {
      return None;
    }
    receipt := Some(|s.receipts|);
    s.receipts := s.receipts + [Receipt(inv.principal, inv.mandate, h, inv.amount)];
  }

  /** Held to released with its refund and event, shared by every way a hold is released. */
  method RefundHeld(s: Session, h: HoldId) returns (won: bool)
    requires h < |s.holds|
    modifies s
    ensures won <==> IsHeld(old(s.Tables()), h)
    ensures s.Tables() == ReleaseHelper(old(s.Tables()), h)
  {
    won := CasReservation(s, h, Released);
    if won {
      var hold := s.holds[h];
      var remaining := RefundMandate(s, hold);
      AppendEvent(s, Event(hold.mandate, ReleaseEvent, hold.amount, remaining, Some(h)));
    }
  }

  /**
   * One savepoint owns the hold, the event, the attempt, the receipt, the charge and the claim.
   * Losing the second compare and set undoes the first; a duplicate receipt aborts the transaction.
   */
  method FinalizeSuccess(s: Session, h: HoldId, i: InvocationId, x: Ending)
    returns (out: Outcome)
    requires h < |s.holds| && i < |s.invocations|
    modifies s
    ensures (s.Tables(), out) == LedgerSpec.FinalizeSuccess(old(s.Tables()), h, i, x)
    ensures !out.Won? ==> s.Tables() == old(s.Tables())
    ensures out.Won? <==> old(s.holds)[h].status == Held && old(s.invocations)[i].status in {Executing, ExecutedOk}
                          && !HasReceipt(old(s.receipts), h)
    ensures out.Won? ==> s.holds[h].status == Committed && s.invocations[i].status == InvCommitted
    ensures out.Won? && Present(s.invocations[i].key) ==>
              var ck := ClaimKey(s.invocations[i].principal, s.invocations[i].key.value);
              ck in s.claims && s.claims[ck].status == ClaimCompleted && s.claims[ck].result == x.result
  {
    var savepoint := s.Tables();
    var won := CasReservation(s, h, Committed);
    if won {
      won := CasInvocation(s, i, {Executing, ExecutedOk}, InvCommitted);
    }
    if !won {
      s.RollbackTo(savepoint);
      return Lost;
    }
    var hold, inv := s.holds[h], s.invocations[i];
    AppendEvent(s, Event(hold.mandate, CommitEvent, hold.amount, x.seen, Some(h)));
    var receipt := IssueReceipt(s, inv, h);
    if receipt.None? {
      s.RollbackTo(savepoint);
      return Aborted;
    }
    Billing.Enqueue(s, receipt.value, inv.amount, inv.principal, x.bps);
    CompleteLogicalOperation(s, inv, x.result);
    return Won;
  }

  /** The refund is written before the second compare and set; losing that one undoes the refund. */
  method FinalizeRelease(s: Session, i: InvocationId, h: Option<HoldId>, allowed: set<InvocationStatus>)
    returns (out: Outcome)
    requires i < |s.invocations| && (h.Some? ==> h.value < |s.holds|)
    modifies s
    ensures (s.Tables(), out) == LedgerSpec.FinalizeRelease(old(s.Tables()), i, h, allowed)
    ensures !out.Won? ==> s.Tables() == old(s.Tables())
  {
    var savepoint := s.Tables();
    if h.None? {
      return Lost;
    }
    var won := RefundHeld(s, h.value);
    if won {
      won := CasInvocation(s, i, allowed, InvReleased);
    }
    if !won {
      s.RollbackTo(savepoint);
      return Lost;
    }
    ClearLogicalOperation(s, s.invocations[i]);
    return Won;
  }

  /** `snapshot` is the status read by the refresh; another worker may act before the compare and set. */
  method RecoverReserved(s: Session, i: InvocationId, snapshot: InvocationStatus, release: bool)
    requires i < |s.invocations|
    modifies s
    ensures s.Tables() == LedgerSpec.RecoverReserved(old(s.Tables()), i, snapshot, release)
    ensures old(s.invocations)[i].status != Reserved ==>
              s.Tables() == old(s.Tables()).(invocations := s.invocations)
    ensures old(s.invocations)[i].status !in {Reserved, Executing} ==> s.Tables() == old(s.Tables())
  {
    if snapshot in TERMINAL {
      return;
    }
    if release {
      if snapshot == Executing {
        return;
      }
      var h := HoldOf(s.Tables(), i);
      var _ := FinalizeRelease(s, i, h, {Reserved});
      return;
    }
    if snapshot == Reserved {
      var _ := CasInvocation(s, i, {Reserved}, Ambiguous);
    } else if snapshot == Executing {
      var _ := CasInvocation(s, i, {Executing}, Ambiguous);
    }
  }

  /** Low-level held to committed; the loser writes nothing. */
  method Commit(s: Session, h: HoldId, seen: Option<int>)
    requires h < |s.holds|
    modifies s
    ensures s.Tables() == CommitHelper(old(s.Tables()), h, seen)
  {
    var won := CasReservation(s, h, Committed);
    if won {
      AppendEvent(s, Event(s.holds[h].mandate, CommitEvent, s.holds[h].amount, seen, Some(h)));
    }
  }

  /** Low-level held to released; only the winner refunds. */
  method Release(s: Session, h: HoldId)
    requires h < |s.holds|
    modifies s
    ensures s.Tables() == ReleaseHelper(old(s.Tables()), h)
  {
    var _ := RefundHeld(s, h);
  }

  /** Commit the hold with receipt, charge and claim exactly once; a committed hold is not billed again. */
  method ApplySuccessEconomics(s: Session, h: HoldId, i: InvocationId, x: Ending)
    returns (lost: bool)
    requires h < |s.holds| && i < |s.invocations|
    modifies s
    ensures lost <==> old(s.holds)[h].status == Released
    ensures lost ==> s.Tables() == old(s.Tables())
    ensures !lost ==> s.Tables() == Economics(old(s.Tables()), h, old(s.invocations)[i], x)
  {
    var inv := s.invocations[i];
    var existing := if HasReceipt(s.receipts, h) then Some(FirstReceipt(s.receipts, h)) else None;
    if s.holds[h].status == Committed {
      if existing.None? {
        var receipt := IssueReceipt(s, inv, h);
        Billing.Enqueue(s, receipt.value, inv.amount, inv.principal, x.bps);
      }
      CompleteLogicalOperation(s, inv, x.result);
      return false;
    }
    if s.holds[h].status != Held {
      return true;
    }
    var won := CasReservation(s, h, Committed);
    AppendEvent(s, Event(s.holds[h].mandate, CommitEvent, s.holds[h].amount, x.seen, Some(h)));
    if existing.None? {
      existing := IssueReceipt(s, inv, h);
    }
    Billing.Enqueue(s, existing.value, inv.amount, inv.principal, x.bps);
    CompleteLogicalOperation(s, inv, x.result);
    return false;
  }

  method AppendReconciliation(s: Session, i: InvocationId, to: InvocationStatus, e: Evidence)
    modifies s
    ensures s.Tables() == Recorded(old(s.Tables()), i, to, e)
  {
    s.recons := s.recons + [ReconciliationEvent(i, to, e.kind, Strip(e.reference))];
  }

  /** The operator's compare and set and the fresh look at the hold; losing either undoes the first. */
  method CasForReconciliation(s: Session, i: InvocationId, h: Option<HoldId>, to: InvocationStatus, ended: HoldStatus)
    returns (won: bool)
    requires i < |s.invocations| && (h.Some? ==> h.value < |s.holds|)
    modifies s
    ensures won <==> old(s.invocations)[i].status in RECONCILABLE && h.Some? && old(s.holds)[h.value].status != ended
    ensures s.Tables() == if won then WithStatus(old(s.Tables()), i, to) else old(s.Tables())
  {
    var savepoint := s.Tables();
    won := CasInvocation(s, i, RECONCILABLE, to);
    if won && (h.None? || s.holds[h.value].status == ended) {
      s.RollbackTo(savepoint);
      won := false;
    }
  }

  method ReconcileCommit(s: Session, i: InvocationId, copy: HoldStatus, e: Evidence, x: Ending)
    returns (out: Outcome)
    requires i < |s.invocations|
    modifies s
    ensures (s.Tables(), out) == LedgerSpec.ReconcileCommit(old(s.Tables()), i, copy, e, x)
    ensures !out.Won? ==> s.Tables() == old(s.Tables())
    ensures out.Refused? <==> e.kind != DidExecute || Strip(e.reference) == ""
    ensures out.Won? <==> !out.Refused? && copy != Released
                          && old(s.invocations)[i].status in {Ambiguous, ExecutedFail}
                          && HoldOf(old(s.Tables()), i).Some?
                          && old(s.holds)[HoldOf(old(s.Tables()), i).value].status != Released
    ensures out.Won? ==> s.invocations[i] == old(s.invocations)[i].(status := ReconciledCommitted)
  {
    if !EvidenceAccepted(e) || e.kind != DidExecute {
      return Refused(Unauthorized);
    }
    var h := HoldOf(s.Tables(), i);
    if h.Some? && copy == Released {
      return Lost;
    }
    var won := CasForReconciliation(s, i, h, ReconciledCommitted, Released);
    if !won {
      return Lost;
    }
    EconomicsIgnoreStatus(s.Tables(), h.value, old(s.invocations)[i], s.invocations[i], x);
    var lost := ApplySuccessEconomics(s, h.value, i, x);
    assert !lost;
    AppendReconciliation(s, i, ReconciledCommitted, e);
    return Won;
  }

  /** Billing and the claim read an attempt's terms, not its status. */
  lemma EconomicsIgnoreStatus(db: Db, h: HoldId, a: Invocation, b: Invocation, x: Ending)
    requires h < |db.holds| && b == a.(status := b.status)
    ensures Economics(db, h, a, x) == Economics(db, h, b, x)
  {
  }

  method ReconcileRelease(s: Session, i: InvocationId, copy: HoldStatus, e: Evidence) returns (out: Outcome)
    requires i < |s.invocations|
    modifies s
    ensures (s.Tables(), out) == LedgerSpec.ReconcileRelease(old(s.Tables()), i, copy, e)
    ensures !out.Won? ==> s.Tables() == old(s.Tables())
    ensures out.Refused? <==> e.kind != DidNotExecute || Strip(e.reference) == ""
    ensures out.Won? <==> !out.Refused? && copy != Committed
                          && old(s.invocations)[i].status in {Ambiguous, ExecutedFail}
                          && HoldOf(old(s.Tables()), i).Some?
                          && old(s.holds)[HoldOf(old(s.Tables()), i).value].status == Held
    ensures out.Won? ==> s.invocations[i] == old(s.invocations)[i].(status := ReconciledReleased)
  {
    if !EvidenceAccepted(e) || e.kind == DidExecute {
      return Refused(Unauthorized);
    }
    var h := HoldOf(s.Tables(), i);
    var savepoint := s.Tables();
    if h.Some? && copy == Committed {
      return Lost;
    }
    var won := CasForReconciliation(s, i, h, ReconciledReleased, Committed);
    if !won {
      return Lost;
    }
    won := RefundHeld(s, h.value);
    if !won {
      s.RollbackTo(savepoint);
      return Lost;
    }
    if e.kind == DidNotExecute {
      ClearLogicalOperation(s, s.invocations[i]);
    }
    AppendReconciliation(s, i, ReconciledReleased, e);
    return Won;
  }
}
