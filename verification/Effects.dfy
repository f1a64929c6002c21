// What each unit of work achieves, written out: in a state that a helper-free run reaches, when exactly
// it does something, and every table it then leaves.
module Effects {
  import opened Model
  import opened LedgerSpec
  import opened Lifecycle
  import opened Invariants
  import Universe
  import Keys
  import Money

  /** What holds of the tables in every state a helper-free run reaches. */
  ghost predicate Sane(db: Db)
  {
    Universe.OneUniverse(db) && Books(db)
  }

  function WithInvocationStatus(db: Db, i: InvocationId, to: InvocationStatus): seq<Invocation>
    requires i < |db.invocations|
  {
    var was := db.invocations[i];
    db.invocations[i := Invocation(was.principal, was.mandate, was.hold, was.tool, was.server, was.hash, was.key,
                                   was.amount, to)]
  }

  // ----- committing -----

  predicate Billable(db: Db, inv: Invocation)
  {
    inv.principal < |db.principals| && db.principals[inv.principal].account < |db.accounts|
  }

  /** The platform fee in microcents, a millionth of a cent each; a basis point is a ten-thousandth. */
  function FeeOn(amount: int, bps: int): int
  {
    if amount <= 0 || bps <= 0 then 0 else amount * bps * 1_000_000 / 10_000
  }

  lemma FeeIsTheRate(amount: int, bps: int)
    ensures FeeMicrocents(amount, bps) == FeeOn(amount, bps)
  {
    if amount > 0 && bps > 0 {
      assert amount * bps * 1_000_000 == (amount * bps * 100) * 10_000;
    } else if amount == 0 || bps == 0 {
      assert amount * bps == 0;
    }
  }

  /**
   * The attempt and its hold committed, one event, one receipt, one pending charge with its fee on the
   * payer's account, and the key completed with the result.
   */
  function CommittedAs(db: Db, i: InvocationId, to: InvocationStatus, x: Ending): Db
    requires i < |db.invocations| && i < |db.holds| && Billable(db, db.invocations[i])
  {
    var inv, n := db.invocations[i], |db.receipts|;
    var payer := db.principals[inv.principal].account;
    db.(invocations := WithInvocationStatus(db, i, to),
        holds := db.holds[i := db.holds[i].(status := Committed)],
        events := db.events + [Event(inv.mandate, CommitEvent, inv.amount, x.seen, Some(i))],
        receipts := db.receipts + [Receipt(inv.principal, inv.mandate, i, inv.amount)],
        outbox := db.outbox + [OutboxRow(n, inv.amount, x.bps, Some(payer), Pending, 0, None, None)],
        accounts := db.accounts[payer := Account(db.accounts[payer].fees + FeeOn(inv.amount, x.bps))],
        claims := if !Present(inv.key) then db.claims
                  else db.claims[ClaimKey(inv.principal, inv.key.value) := Claim(inv.hash, ClaimCompleted, x.result)])
  }

  /** The rows an attempt refers to are there and are its own; while it is open nothing is billed and its key is claimed. */
  predicate Intact(db: Db, i: InvocationId)
  {
    && i < |db.invocations| && i < |db.holds|
    && var inv, hold := db.invocations[i], db.holds[i];
    && inv.hold == Some(i) && inv.status != ExecutedOk && hold.status == Universe.HoldStatusOf(inv.status)
    && hold.mandate == inv.mandate < |db.mandates| && hold.amount == inv.amount >= 0
    && Billable(db, inv)
    && (Universe.IsOpen(inv.status) ==>
          && db.mandates[inv.mandate].callsUsed > 0
          && !HasReceipt(db.receipts, i) && !HasOutboxRow(db.outbox, |db.receipts|)
          && (Present(inv.key) ==> HasOpenClaim(db.claims, inv)))
  }

  predicate HasOpenClaim(claims: map<ClaimKey, Claim>, inv: Invocation)
    requires Present(inv.key)
  {
    var ck := ClaimKeyOf(inv.principal, inv.key);
    ck in claims && claims[ck].status == ClaimInProgress && claims[ck].hash == inv.hash
  }

  lemma SaneAttemptIsIntact(db: Db, i: InvocationId)
    requires Sane(db) && i < |db.invocations|
    ensures Intact(db, i)
  {
    assert Universe.Paired(db, i);
    Universe.NothingBilledYet(db, i);
    if Universe.IsOpen(db.invocations[i].status) {
      Money.RefundNeverClamps(db.mandates, db.holds, db.events, i);
      if Present(db.invocations[i].key) {
        Keys.CompletionFindsItsClaim(db, i);
      }
    }
  }

  lemma BilledAs(db: Db, i: InvocationId, to: InvocationStatus, x: Ending)
    requires Intact(db, i) && Universe.IsOpen(db.invocations[i].status)
    ensures Settle(WithStatus(db, i, to), i, db.invocations[i], x) == CommittedAs(db, i, to, x)
  {
    FeeIsTheRate(db.invocations[i].amount, x.bps);
  }

  /** finalize_success: exactly an executing attempt is committed; any other is left alone. */
  lemma SuccessExactly(db: Db, i: InvocationId, x: Ending)
    requires Intact(db, i)
    ensures Perform(db, Succeed(i, x))
            == if db.invocations[i].status == Executing then CommittedAs(db, i, InvCommitted, x) else db
  {
    if db.invocations[i].status == Executing {
      BilledAs(db, i, InvCommitted, x);
    }
  }

  // ----- evidence -----

  /** A reference with something in it besides white space. */
  predicate NotBlank(text: string)
  {
    exists k :: 0 <= k < |text| && !IsSpace(text[k])
  }

  predicate AllSpace(text: string)
  {
    forall k :: 0 <= k < |text| ==> IsSpace(text[k])
  }

  lemma {:induction false} StripLeftCuts(text: string) returns (left: string)
    ensures text == left + StripLeft(text) && AllSpace(left)
    ensures StripLeft(text) != "" ==> !IsSpace(StripLeft(text)[0])
    decreases |text|
  {
    left := "";
    if text != "" && IsSpace(text[0]) {
      var rest := StripLeftCuts(text[1..]);
      left := [text[0]] + rest;
      assert text == [text[0]] + text[1..];
    }
  }

  lemma {:induction false} StripRightCuts(text: string) returns (right: string)
    ensures text == StripRight(text) + right && AllSpace(right)
    ensures StripRight(text) != "" ==> !IsSpace(StripRight(text)[|StripRight(text)| - 1])
    decreases |text|
  {
    right := "";
    if text != "" && IsSpace(text[|text| - 1]) {
      var rest := StripRightCuts(text[..|text| - 1]);
      right := rest + [text[|text| - 1]];
      assert text == text[..|text| - 1] + [text[|text| - 1]];
    }
  }

  /** `strip` cuts white space off both ends and nothing else; what is left is empty only of a blank text. */
  lemma StripExactly(text: string) returns (left: string, right: string)
    ensures text == left + Strip(text) + right && AllSpace(left) && AllSpace(right)
    ensures Strip(text) != "" ==> !IsSpace(Strip(text)[0]) && !IsSpace(Strip(text)[|Strip(text)| - 1])
    ensures Strip(text) != "" <==> NotBlank(text)
  {
    left := StripLeftCuts(text);
    right := StripRightCuts(StripLeft(text));
    if Strip(text) != "" {
      assert StripLeft(text)[0] == Strip(text)[0];
      assert text[|left|] == Strip(text)[0];
    } else {
      assert text == left + right;
    }
  }

  /** The evidence names the ending asked for, and has a reference. */
  predicate Proves(e: Evidence, kind: EvidenceKind)
  {
    e.kind == kind && NotBlank(e.reference)
  }

  lemma AcceptedProves(e: Evidence)
    ensures EvidenceAccepted(e) <==> Proves(e, DidExecute) || Proves(e, DidNotExecute)
  {
    var _, _ := StripExactly(e.reference);
  }

  predicate Reconcilable(db: Db, i: InvocationId)
    requires i < |db.invocations|
  {
    db.invocations[i].status == Ambiguous || db.invocations[i].status == ExecutedFail
  }

  function EvidencedAs(db: Db, i: InvocationId, to: InvocationStatus, e: Evidence): Db
  {
    db.(recons := db.recons + [ReconciliationEvent(i, to, e.kind, Strip(e.reference))])
  }

  lemma EvidenceCommitWins(db: Db, i: InvocationId, copy: HoldStatus, e: Evidence, x: Ending)
    requires Intact(db, i) && Reconcilable(db, i) && EvidenceAccepted(e) && e.kind == DidExecute && copy != Released
    ensures ReconcileCommit(db, i, copy, e, x).0
            == EvidencedAs(CommittedAs(db, i, ReconciledCommitted, x), i, ReconciledCommitted, e)
  {
    BilledAs(db, i, ReconciledCommitted, x);
  }

  /** reconcile_commit: exactly on proof of execution, and of an ambiguous or failed attempt. */
  lemma EvidenceCommitExactly(db: Db, i: InvocationId, copy: HoldStatus, e: Evidence, x: Ending)
    requires Intact(db, i)
    ensures Perform(db, EvidenceCommit(i, copy, e, x))
            == if Reconcilable(db, i) && Proves(e, DidExecute) && copy != Released
               then EvidencedAs(CommittedAs(db, i, ReconciledCommitted, x), i, ReconciledCommitted, e)
               else db
  {
    AcceptedProves(e);
    if Reconcilable(db, i) && Proves(e, DidExecute) && copy != Released {
      EvidenceCommitWins(db, i, copy, e, x);
    }
  }

  // ----- releasing -----

  /** The attempt and its hold released, the money and the call given back, one event, and the key free again. */
  function ReleasedAs(db: Db, i: InvocationId, to: InvocationStatus): Db
    requires i < |db.invocations| && i < |db.holds| && db.invocations[i].mandate < |db.mandates|
  {
    var inv := db.invocations[i];
    var row := db.mandates[inv.mandate];
    db.(invocations := WithInvocationStatus(db, i, to),
        holds := db.holds[i := db.holds[i].(status := Released)],
        mandates := db.mandates[inv.mandate :=
          row.(remaining := row.remaining + inv.amount, callsUsed := row.callsUsed - 1)],
        events := db.events + [Event(inv.mandate, ReleaseEvent, inv.amount, Some(row.remaining + inv.amount), Some(i))],
        claims := if !Present(inv.key) then db.claims else db.claims - {ClaimKey(inv.principal, inv.key.value)})
  }

  lemma UnwoundAs(db: Db, i: InvocationId, to: InvocationStatus)
    requires Intact(db, i) && Universe.IsOpen(db.invocations[i].status)
    ensures Unwind(WithStatus(db, i, to), i, db.invocations[i]) == ReleasedAs(db, i, to)
  {
  }

  lemma EvidenceReleaseWins(db: Db, i: InvocationId, copy: HoldStatus, e: Evidence)
    requires Intact(db, i) && Reconcilable(db, i) && EvidenceAccepted(e) && e.kind == DidNotExecute && copy != Committed
    ensures ReconcileRelease(db, i, copy, e).0
            == EvidencedAs(ReleasedAs(db, i, ReconciledReleased), i, ReconciledReleased, e)
  {
    UnwoundAs(db, i, ReconciledReleased);
  }

  /** reconcile_release: exactly on proof of no execution, and of an ambiguous or failed attempt. */
  lemma EvidenceReleaseExactly(db: Db, i: InvocationId, copy: HoldStatus, e: Evidence)
    requires Intact(db, i)
    ensures Perform(db, EvidenceRelease(i, copy, e))
            == if Reconcilable(db, i) && Proves(e, DidNotExecute) && copy != Committed
               then EvidencedAs(ReleasedAs(db, i, ReconciledReleased), i, ReconciledReleased, e)
               else db
  {
    AcceptedProves(e);
    if Reconcilable(db, i) && Proves(e, DidNotExecute) && copy != Committed {
      EvidenceReleaseWins(db, i, copy, e);
    }
  }

  // ----- recovery and dispatch -----

  /**
   * recover_reserved. Release mode releases exactly an attempt that is still reserved and was not seen
   * dispatched; the default mode makes exactly what was and still is reserved or executing ambiguous.
   */
  function RecoveredAs(db: Db, i: InvocationId, snapshot: InvocationStatus, release: bool): Db
    requires i < |db.invocations| && i < |db.holds| && db.invocations[i].mandate < |db.mandates|
  {
    var status := db.invocations[i].status;
    if release && status == Reserved && (snapshot == Reserved || snapshot == ExecutedOk)
    then ReleasedAs(db, i, InvReleased)
    else if !release && status == snapshot && (status == Reserved || status == Executing)
    then db.(invocations := WithInvocationStatus(db, i, Ambiguous))
    else db
  }

  lemma ReservedIsReleased(db: Db, i: InvocationId)
    requires Intact(db, i)
    ensures FinalizeRelease(db, i, HoldOf(db, i), {Reserved}).0
            == if db.invocations[i].status == Reserved then ReleasedAs(db, i, InvReleased) else db
  {
    if db.invocations[i].status == Reserved {
      UnwoundAs(db, i, InvReleased);
    }
  }

  lemma ReleasingRecovery(db: Db, i: InvocationId, snapshot: InvocationStatus)
    requires Intact(db, i)
    ensures RecoverReserved(db, i, snapshot, true) == RecoveredAs(db, i, snapshot, true)
  {
    ReservedIsReleased(db, i);
  }

  lemma MarkingRecovery(db: Db, i: InvocationId, snapshot: InvocationStatus)
    requires Intact(db, i)
    ensures RecoverReserved(db, i, snapshot, false) == RecoveredAs(db, i, snapshot, false)
  {
  }

  lemma RecoveryExactly(db: Db, i: InvocationId, snapshot: InvocationStatus, release: bool)
    requires Intact(db, i)
    ensures Perform(db, Recovery(i, snapshot, release)) == RecoveredAs(db, i, snapshot, release)
  {
    if release {
      ReleasingRecovery(db, i, snapshot);
    } else {
      MarkingRecovery(db, i, snapshot);
    }
  }

  /** mark_executing and mark_executed_fail. */
  lemma DispatchExactly(db: Db, i: InvocationId)
    requires i < |db.invocations|
    ensures Perform(db, Enter(i))
            == if db.invocations[i].status == Reserved
               then db.(invocations := WithInvocationStatus(db, i, Executing)) else db
    ensures Perform(db, Fail(i))
            == if db.invocations[i].status == Executing
               then db.(invocations := WithInvocationStatus(db, i, ExecutedFail)) else db
  {
  }

  // ----- the low-level helpers, and billing what one of them committed -----

  lemma HelpersExactly(db: Db, h: HoldId, seen: Option<int>)
    requires MoneyConserved(db) && h < |db.holds|
    ensures var hold := db.holds[h];
            Perform(db, LowCommit(h, seen))
            == if hold.status != Held then db
               else db.(holds := db.holds[h := hold.(status := Committed)],
                        events := db.events + [Event(hold.mandate, CommitEvent, hold.amount, seen, Some(h))])
    ensures db.holds[h].status != Held ==> Perform(db, LowRelease(h)) == db
    ensures db.holds[h].status == Held ==>
              && db.holds[h].mandate < |db.mandates|
              && var hold, row := db.holds[h], db.mandates[db.holds[h].mandate];
              Perform(db, LowRelease(h))
              == db.(holds := db.holds[h := hold.(status := Released)],
                     mandates := db.mandates[hold.mandate :=
                       row.(remaining := row.remaining + hold.amount, callsUsed := row.callsUsed - 1)],
                     events := db.events
                             + [Event(hold.mandate, ReleaseEvent, hold.amount, Some(row.remaining + hold.amount), Some(h))])
  {
    if db.holds[h].status == Held {
      Money.RefundNeverClamps(db.mandates, db.holds, db.events, h);
    }
  }

  /** Billing the same attempt again, whatever was done to its hold before, bills nothing more. */
  lemma EconomicsOnce(db: Db, h: HoldId, inv: Invocation, x: Ending)
    requires h < |db.holds| && db.holds[h].status != Released
    ensures var after := Economics(db, h, inv, x);
            h < |after.holds| && HasReceipt(after.receipts, h) && Economics(after, h, inv, x) == after
  {
    var after := Economics(db, h, inv, x);
    EconomicsLeavesReceipt(db, h, inv, x);
    assert after.holds[h].status == Committed;
    assert CompletedClaims(after.claims, inv, x.result) == after.claims;
  }

  lemma EconomicsLeavesReceipt(db: Db, h: HoldId, inv: Invocation, x: Ending)
    requires h < |db.holds|
    ensures HasReceipt(Economics(db, h, inv, x).receipts, h)
  {
    var after := Economics(db, h, inv, x);
    if !HasReceipt(db.receipts, h) {
      assert after.receipts[|db.receipts|].hold == h;
    }
  }

  /** A hold that a helper committed without a receipt is billed and logged no second time, with its whole charge. */
  lemma CommittedByHelperIsBilled(db: Db, h: HoldId, inv: Invocation, x: Ending)
    requires h < |db.holds| && db.holds[h].status == Committed && !HasReceipt(db.receipts, h)
    requires Billable(db, inv) && !HasOutboxRow(db.outbox, |db.receipts|)
    ensures var payer := db.principals[inv.principal].account;
            var after := Economics(db, h, inv, x);
            && after == db.(receipts := after.receipts, outbox := after.outbox, accounts := after.accounts, claims := after.claims)
            && after.receipts == db.receipts + [Receipt(inv.principal, inv.mandate, h, inv.amount)]
            && after.outbox == db.outbox + [OutboxRow(|db.receipts|, inv.amount, x.bps, Some(payer), Pending, 0, None, None)]
            && after.accounts == db.accounts[payer := Account(db.accounts[payer].fees + FeeOn(inv.amount, x.bps))]
  {
    FeeIsTheRate(inv.amount, x.bps);
  }
}
