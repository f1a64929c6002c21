// The books: what every unit of work keeps, the low-level helpers included.
module Invariants {
  import opened Model
  import opened LedgerSpec
  import opened Lifecycle
  import Identity
  import Mandates
  import Money
  import Universe
  import Keys
  import Fees
  import Nonces
  import History

  ghost predicate MoneyConserved(db: Db)
  {
    Money.Conserved(db.mandates, db.holds, db.events)
  }

  ghost predicate KeysHeld(db: Db)
  {
    Keys.OneChargePerKey(db.invocations, db.claims)
  }

  ghost predicate NoncesUsedOnce(db: Db)
  {
    Nonces.UsedOnce(db.mandates, db.holds, db.nonces)
  }

  predicate Delegated(db: Db)
  {
    && Identity.Wellformed(db.agents)
    && Mandates.WellDelegated(db.agents, db.mandates)
    && Mandates.KeysBound(db.principals, db.mandates)
  }

  ghost predicate Books(db: Db)
  {
    Delegated(db) && MoneyConserved(db) && KeysHeld(db) && Fees.Accounted(db) && NoncesUsedOnce(db)
  }

  // ----- agents and delegation -----

  lemma AgentsKeepDelegation(db: Db, agents: seq<Agent>)
    requires Delegated(db) && Identity.Wellformed(agents) && History.AgentsKept(db.agents, agents)
    ensures Delegated(db.(agents := agents))
  {
    Mandates.AgentsKeepWellDelegated(db.agents, agents, db.mandates);
  }

  lemma NewAgentKeepsDelegation(db: Db, principal: PrincipalId, parent: Option<AgentId>)
    requires Delegated(db)
    ensures Delegated(Identity.CreateAgent(db, principal, parent).0)
  {
    Identity.CreateKeepsWellformed(db, principal, parent);
    History.NewAgentFollows(db, principal, parent);
    AgentsKeepDelegation(db, Identity.CreateAgent(db, principal, parent).0.agents);
  }

  lemma RevokeAgentKeepsDelegation(db: Db, a: AgentId)
    requires Delegated(db)
    ensures Delegated(db.(agents := Identity.RevokeAgent(db.agents, a)))
  {
    Identity.RevokeKeepsWellformed(db.agents, a);
    History.RevokeAgentFollows(db, a);
    AgentsKeepDelegation(db, Identity.RevokeAgent(db.agents, a));
  }

  lemma IssueKeepsDelegation(db: Db, q: Mandates.Issue, copy: MandateCopy, now: Time, later: Time)
    requires Delegated(db)
    ensures Delegated(Mandates.IssueMandate(db, q, copy, now, later).0)
  {
    Mandates.IssueKeepsWellDelegated(db, q, copy, now, later);
    Mandates.IssueKeepsKeysBound(db, q, copy, now, later);
  }

  lemma OtherUnitKeepsDelegation(db: Db, u: Unit)
    requires Delegated(db) && !u.Issue? && !u.NewAgent? && !u.RevokeAgent?
    ensures Delegated(Perform(db, u))
  {
    History.UnitFollows(db, u);
    History.RowsAreAdded(db, u);
    Mandates.ColumnsKeepWellDelegated(db.agents, db.mandates, Perform(db, u).mandates);
    Mandates.KeysStayBound(db, Perform(db, u));
  }

  lemma UnitKeepsDelegation(db: Db, u: Unit)
    requires Delegated(db)
    ensures Delegated(Perform(db, u))
  {
    if u.Issue? {
      IssueKeepsDelegation(db, u.q, u.copy, u.now, u.later);
    } else if u.NewAgent? {
      NewAgentKeepsDelegation(db, u.principal, u.parent);
    } else if u.RevokeAgent? {
      RevokeAgentKeepsDelegation(db, u.a);
    } else {
      OtherUnitKeepsDelegation(db, u);
    }
  }

  // ----- money -----

  lemma ReserveConserves(db: Db, r: Request, copy: MandateCopy, now: Time, later: Time)
    requires MoneyConserved(db) && Reservable(db, r)
    ensures MoneyConserved(ReserveCall(db, r, copy, now, later).0)
  {
    if ReserveCall(db, r, copy, now, later).1.Opened? {
      Money.DebitConserves(db, r.mandate, r.amount, r.key, r.nonce, now);
    } else {
      Money.DenyConserves(db, r.mandate, r.amount, Some(db.mandates[r.mandate].remaining));
    }
  }

  lemma FinalizeSuccessConserves(db: Db, h: HoldId, i: InvocationId, x: Ending)
    requires MoneyConserved(db)
    ensures MoneyConserved(FinalizeSuccess(db, h, i, x).0)
  {
    if FinalizeSuccess(db, h, i, x).1.Won? {
      Money.CommitConserves(db, h, x.seen);
    }
  }

  lemma RecoverConserves(db: Db, i: InvocationId, snapshot: InvocationStatus, release: bool)
    requires MoneyConserved(db) && i < |db.invocations|
    ensures MoneyConserved(RecoverReserved(db, i, snapshot, release))
  {
    if FinalizeRelease(db, i, HoldOf(db, i), {Reserved}).1.Won? {
      Money.ReleaseConserves(db, HoldOf(db, i).value);
    }
  }

  lemma EconomicsConserves(db: Db, h: HoldId, inv: Invocation, x: Ending)
    requires MoneyConserved(db) && h < |db.holds| && db.holds[h].status != Released
    ensures MoneyConserved(Economics(db, h, inv, x))
  {
    if IsHeld(db, h) {
      Money.CommitConserves(db, h, x.seen);
    }
  }

  lemma ReconcileCommitConserves(db: Db, i: InvocationId, copy: HoldStatus, e: Evidence, x: Ending)
    requires MoneyConserved(db) && i < |db.invocations|
    ensures MoneyConserved(ReconcileCommit(db, i, copy, e, x).0)
  {
    if ReconcileCommit(db, i, copy, e, x).1.Won? {
      EconomicsConserves(WithStatus(db, i, ReconciledCommitted), HoldOf(db, i).value, db.invocations[i], x);
    }
  }

  lemma ReconcileReleaseConserves(db: Db, i: InvocationId, copy: HoldStatus, e: Evidence)
    requires MoneyConserved(db) && i < |db.invocations|
    ensures MoneyConserved(ReconcileRelease(db, i, copy, e).0)
  {
    if ReconcileRelease(db, i, copy, e).1.Won? {
      Money.ReleaseConserves(db, HoldOf(db, i).value);
    }
  }

  /** Units on the mandates themselves, and the low-level helpers. */
  predicate OnMandates(u: Unit)
  {
    u.LogDeny? || u.Issue? || u.RevokeMandate? || u.LowCommit? || u.LowRelease?
  }

  lemma LowLevelConserves(db: Db, u: Unit)
    requires MoneyConserved(db) && (u.LowCommit? || u.LowRelease?)
    ensures MoneyConserved(Perform(db, u))
  {
    if IsHeld(db, u.h) {
      if u.LowCommit? {
        Money.CommitConserves(db, u.h, u.seen);
      } else {
        Money.ReleaseConserves(db, u.h);
      }
    }
  }

  lemma IssueUnitConserves(db: Db, u: Unit)
    requires MoneyConserved(db) && u.Issue?
    ensures MoneyConserved(Perform(db, u))
  {
    Money.IssueConserves(db, u.q, u.copy, u.now, u.later);
  }

  lemma RevokeUnitConserves(db: Db, u: Unit)
    requires MoneyConserved(db) && u.RevokeMandate?
    ensures MoneyConserved(Perform(db, u))
  {
    Money.RevokeConserves(db, u.m);
  }

  lemma MandateUnitConserves(db: Db, u: Unit)
    requires MoneyConserved(db) && OnMandates(u)
    ensures MoneyConserved(Perform(db, u))
  {
    if u.LogDeny? {
      Money.DenyConserves(db, u.m, 0, Some(u.remaining));
    } else if u.Issue? {
      IssueUnitConserves(db, u);
    } else if u.RevokeMandate? {
      RevokeUnitConserves(db, u);
    } else {
      LowLevelConserves(db, u);
    }
  }

  lemma SucceedConserves(db: Db, u: Unit)
    requires MoneyConserved(db) && u.Succeed?
    ensures MoneyConserved(Perform(db, u))
  {
    if HasHold(db, u.i) {
      FinalizeSuccessConserves(db, HoldOf(db, u.i).value, u.i, u.x);
    }
  }

  lemma EvidenceConserves(db: Db, u: Unit)
    requires MoneyConserved(db) && (u.EvidenceCommit? || u.EvidenceRelease?)
    ensures MoneyConserved(Perform(db, u))
  {
    if u.i < |db.invocations| {
      if u.EvidenceCommit? {
        ReconcileCommitConserves(db, u.i, u.holdCopy, u.e, u.x);
      } else {
        ReconcileReleaseConserves(db, u.i, u.holdCopy, u.e);
      }
    }
  }

  lemma RecoveryConserves(db: Db, u: Unit)
    requires MoneyConserved(db) && u.Recovery?
    ensures MoneyConserved(Perform(db, u))
  {
    if u.i < |db.invocations| {
      RecoverConserves(db, u.i, u.snapshot, u.release);
    }
  }

  lemma SettlingConserves(db: Db, u: Unit)
    requires MoneyConserved(db) && History.Settles(u)
    ensures MoneyConserved(Perform(db, u))
  {
    if u.Succeed? {
      SucceedConserves(db, u);
    } else if u.Recovery? {
      RecoveryConserves(db, u);
    } else {
      EvidenceConserves(db, u);
    }
  }

  lemma UnitConserves(db: Db, u: Unit)
    requires MoneyConserved(db)
    ensures MoneyConserved(Perform(db, u))
  {
    if OnMandates(u) {
      MandateUnitConserves(db, u);
    } else if History.Settles(u) {
      SettlingConserves(db, u);
    } else if u.Reserve? && Reservable(db, u.r) {
      ReserveConserves(db, u.r, u.copy, u.now, u.later);
    }
  }

  // ----- claims -----

  ghost predicate KeysKept(before: Db, after: Db)
  {
    KeysHeld(after) && Keys.CompletedKept(before.claims, after.claims)
  }

  lemma MoveKeepsKeys(db: Db, i: InvocationId, allowed: set<InvocationStatus>, to: InvocationStatus)
    requires KeysHeld(db)
    requires Universe.IsOpen(to) && forall s :: s in allowed ==> Universe.IsOpen(s)
    ensures KeysKept(db, MoveStatus(db, i, allowed, to))
  {
    if HasStatus(db, i, allowed) {
      Keys.OpenMoveKeepsKeys(db, i, to);
    }
  }

  lemma ReserveKeepsKeys(db: Db, r: Request, copy: MandateCopy, now: Time, later: Time)
    requires KeysHeld(db) && Reservable(db, r)
    ensures KeysKept(db, ReserveCall(db, r, copy, now, later).0)
  {
    if ReserveCall(db, r, copy, now, later).1.Opened? {
      Keys.OpenKeepsKeys(db, r, now);
    }
  }

  lemma FinalizeKeepsKeys(db: Db, h: HoldId, i: InvocationId, x: Ending)
    requires KeysHeld(db)
    ensures KeysKept(db, FinalizeSuccess(db, h, i, x).0)
  {
    if FinalizeSuccess(db, h, i, x).1.Won? {
      Keys.SettleKeepsKeys(db, i, InvCommitted, x.result);
    }
  }

  lemma RecoverKeepsKeys(db: Db, i: InvocationId, snapshot: InvocationStatus, release: bool)
    requires KeysHeld(db) && i < |db.invocations|
    ensures KeysKept(db, RecoverReserved(db, i, snapshot, release))
  {
    if release {
      ReleaseKeepsKeys(db, i);
    } else if snapshot == Reserved {
      MoveKeepsKeys(db, i, {Reserved}, Ambiguous);
    } else {
      MoveKeepsKeys(db, i, {Executing}, Ambiguous);
    }
  }

  lemma ReleaseKeepsKeys(db: Db, i: InvocationId)
    requires KeysHeld(db) && i < |db.invocations|
    ensures KeysKept(db, FinalizeRelease(db, i, HoldOf(db, i), {Reserved}).0)
  {
    if FinalizeRelease(db, i, HoldOf(db, i), {Reserved}).1.Won? {
      Keys.UnwindKeepsKeys(db, i, InvReleased);
    }
  }

  /** However a hold is billed, the attempts stay and the claim is completed. */
  lemma EconomicsComplete(db: Db, h: HoldId, inv: Invocation, x: Ending)
    requires h < |db.holds|
    ensures Economics(db, h, inv, x).invocations == db.invocations
    ensures Economics(db, h, inv, x).claims == CompletedClaims(db.claims, inv, x.result)
  {
  }

  lemma ReconcileCommitKeepsKeys(db: Db, i: InvocationId, copy: HoldStatus, e: Evidence, x: Ending)
    requires KeysHeld(db) && i < |db.invocations|
    ensures KeysKept(db, ReconcileCommit(db, i, copy, e, x).0)
  {
    if ReconcileCommit(db, i, copy, e, x).1.Won? {
      EconomicsComplete(WithStatus(db, i, ReconciledCommitted), HoldOf(db, i).value, db.invocations[i], x);
      Keys.SettleKeepsKeys(db, i, ReconciledCommitted, x.result);
    }
  }

  lemma ReconcileReleaseKeepsKeys(db: Db, i: InvocationId, copy: HoldStatus, e: Evidence)
    requires KeysHeld(db) && i < |db.invocations|
    ensures KeysKept(db, ReconcileRelease(db, i, copy, e).0)
  {
    if ReconcileRelease(db, i, copy, e).1.Won? {
      Keys.UnwindKeepsKeys(db, i, ReconciledReleased);
    }
  }

  lemma SucceedKeepsKeys(db: Db, u: Unit)
    requires KeysHeld(db) && u.Succeed?
    ensures KeysKept(db, Perform(db, u))
  {
    if HasHold(db, u.i) {
      FinalizeKeepsKeys(db, HoldOf(db, u.i).value, u.i, u.x);
    }
  }

  lemma EvidenceKeepsKeys(db: Db, u: Unit)
    requires KeysHeld(db) && (u.EvidenceCommit? || u.EvidenceRelease?)
    ensures KeysKept(db, Perform(db, u))
  {
    if u.i < |db.invocations| {
      if u.EvidenceCommit? {
        ReconcileCommitKeepsKeys(db, u.i, u.holdCopy, u.e, u.x);
      } else {
        ReconcileReleaseKeepsKeys(db, u.i, u.holdCopy, u.e);
      }
    }
  }

  lemma RecoveryKeepsKeys(db: Db, u: Unit)
    requires KeysHeld(db) && u.Recovery?
    ensures KeysKept(db, Perform(db, u))
  {
    if u.i < |db.invocations| {
      RecoverKeepsKeys(db, u.i, u.snapshot, u.release);
    }
  }

  lemma SettlingKeepsKeys(db: Db, u: Unit)
    requires KeysHeld(db) && History.Settles(u)
    ensures KeysKept(db, Perform(db, u))
  {
    if u.Succeed? {
      SucceedKeepsKeys(db, u);
    } else if u.Recovery? {
      RecoveryKeepsKeys(db, u);
    } else {
      EvidenceKeepsKeys(db, u);
    }
  }

  /** Steps on attempts. */
  predicate OnAttempts(u: Unit)
  {
    u.Reserve? || u.Enter? || u.Fail? || History.Settles(u)
  }

  /** Every other unit leaves attempts and claims alone. */
  lemma OtherUnitsLeaveAttempts(db: Db, u: Unit)
    requires !OnAttempts(u)
    ensures Perform(db, u).invocations == db.invocations && Perform(db, u).claims == db.claims
  {
  }

  lemma UnitKeepsKeys(db: Db, u: Unit)
    requires KeysHeld(db)
    ensures KeysKept(db, Perform(db, u))
  {
    if !OnAttempts(u) {
      OtherUnitsLeaveAttempts(db, u);
    } else if History.Settles(u) {
      SettlingKeepsKeys(db, u);
    } else if u.Reserve? {
      if Reservable(db, u.r) {
        ReserveKeepsKeys(db, u.r, u.copy, u.now, u.later);
      }
    } else if u.Enter? {
      MoveKeepsKeys(db, u.i, {Reserved}, Executing);
    } else {
      MoveKeepsKeys(db, u.i, {Executing}, ExecutedFail);
    }
  }

  // ----- all of them -----

  lemma UnitKeepsBooks(db: Db, u: Unit)
    requires Books(db)
    ensures Books(Perform(db, u))
    ensures Keys.CompletedKept(db.claims, Perform(db, u).claims)
  {
    UnitKeepsDelegation(db, u);
    UnitConserves(db, u);
    UnitKeepsKeys(db, u);
    Fees.UnitIsAccounted(db, u);
    Nonces.UnitKeepsUses(db, u);
  }

  lemma StepKeepsBooks(w: World, l: Label)
    requires Books(w.db)
    ensures Books(Apply(w, l).db)
    ensures Keys.CompletedKept(w.db.claims, Apply(w, l).db.claims)
  {
    UnitKeepsBooks(w.db, UnitOf(w, l));
  }

  lemma EmptyHasBooks()
    ensures Books(EMPTY_DB)
  {
  }
}
