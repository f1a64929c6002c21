// What every unit of work keeps, whatever state it meets: rows stay, with their immutable columns;
// logs only grow; a hold is settled once; revocation is for good and stops all spending.
module History {
  import opened Model
  import opened LedgerSpec
  import opened Lifecycle
  import Identity
  import Mandates
  import Outbox

  // ----- the life of an attempt -----

  /** The status graph. `executed_ok` is accepted by one guard but never written. */
  predicate CanBecome(a: InvocationStatus, b: InvocationStatus)
  {
    match a
    case Reserved => b in {Executing, Ambiguous, InvReleased}
    case Executing => b in {ExecutedFail, Ambiguous, InvCommitted}
    case ExecutedOk => b == InvCommitted
    case ExecutedFail => b in {ReconciledCommitted, ReconciledReleased}
    case Ambiguous => b in {ReconciledCommitted, ReconciledReleased}
    case _ => false
  }

  /** How far along its life an attempt is; every change moves it further. */
  function Rank(a: InvocationStatus): nat
  {
    match a
    case Reserved => 0
    case Executing => 1
    case ExecutedOk => 2
    case ExecutedFail => 2
    case Ambiguous => 2
    case _ => 3
  }

  /** An attempt keeps its terms; its status stays or moves along the graph. */
  predicate Continues(a: Invocation, b: Invocation)
  {
    b == a.(status := b.status) && (b.status == a.status || CanBecome(a.status, b.status))
  }

  predicate AttemptsContinue(before: seq<Invocation>, after: seq<Invocation>)
  {
    |before| <= |after| && forall i :: 0 <= i < |before| ==> Continues(before[i], after[i])
  }

  // ----- the other tables -----

  predicate HoldContinues(a: Hold, b: Hold)
  {
    b == a.(status := b.status) && (b.status == a.status || a.status == Held)
  }

  predicate HoldsContinue(before: seq<Hold>, after: seq<Hold>)
  {
    |before| <= |after| && forall h :: 0 <= h < |before| ==> HoldContinues(before[h], after[h])
  }

  predicate AgentsKept(before: seq<Agent>, after: seq<Agent>)
  {
    && |before| <= |after|
    && forall a :: 0 <= a < |before| ==>
         after[a] == before[a].(revoked := after[a].revoked) && (before[a].revoked ==> after[a].revoked)
  }

  predicate FeesKept(before: seq<Account>, after: seq<Account>)
  {
    |before| <= |after| && forall a :: 0 <= a < |before| ==> before[a].fees <= after[a].fees
  }

  predicate ChargesKept(before: seq<OutboxRow>, after: seq<OutboxRow>)
  {
    |before| <= |after| && forall j :: 0 <= j < |before| ==> Outbox.SamePayload(before[j], after[j])
  }

  predicate IsRevoked(mandates: seq<Mandate>, m: MandateId)
  {
    m < |mandates| && mandates[m].revoked
  }

  predicate MandatesKept(before: seq<Mandate>, after: seq<Mandate>)
  {
    && Mandates.Extends(before, after)
    && forall m :: 0 <= m < |before| && IsRevoked(before, m) ==> IsRevoked(after, m)
  }

  predicate Takes(kind: EventKind)
  {
    kind.ReserveEvent? || kind.EscrowEvent?
  }

  // No new hold, debit or child is charged to a mandate that was revoked before.

  predicate NoHoldOnRevoked(mandates: seq<Mandate>, before: seq<Hold>, after: seq<Hold>)
  {
    forall h :: |before| <= h < |after| ==> !IsRevoked(mandates, after[h].mandate)
  }

  predicate NoDebitOnRevoked(mandates: seq<Mandate>, before: seq<Event>, after: seq<Event>)
  {
    forall e :: |before| <= e < |after| && Takes(after[e].kind) ==> !IsRevoked(mandates, after[e].mandate)
  }

  predicate NoChildOfRevoked(before: seq<Mandate>, after: seq<Mandate>)
  {
    forall c :: |before| <= c < |after| && after[c].parent.Some? ==> !IsRevoked(before, after[c].parent.value)
  }

  /** The logs only grow, and a hold changes only its status, and only once. */
  predicate Appended(a: Db, b: Db)
  {
    && a.events <= b.events && a.recons <= b.recons && a.receipts <= b.receipts && a.tasks <= b.tasks
    && a.principals <= b.principals && a.nonces <= b.nonces
    && HoldsContinue(a.holds, b.holds)
  }

  predicate Kept(a: Db, b: Db)
  {
    && AgentsKept(a.agents, b.agents)
    && MandatesKept(a.mandates, b.mandates)
    && FeesKept(a.accounts, b.accounts)
    && ChargesKept(a.outbox, b.outbox)
    && Appended(a, b)
    && NoHoldOnRevoked(a.mandates, a.holds, b.holds)
    && NoDebitOnRevoked(a.mandates, a.events, b.events)
    && NoChildOfRevoked(a.mandates, b.mandates)
  }

  /** One unit of work. */
  predicate Follows(a: Db, b: Db)
  {
    Kept(a, b) && AttemptsContinue(a.invocations, b.invocations)
  }

  lemma KeptTransitively(a: Db, b: Db, c: Db)
    requires Kept(a, b) && Kept(b, c)
    ensures Kept(a, c)
  {
    forall h | |a.holds| <= h < |c.holds|
      ensures !IsRevoked(a.mandates, c.holds[h].mandate)
    {
      assert h < |b.holds| ==> HoldContinues(b.holds[h], c.holds[h]);
    }
    forall k | |a.mandates| <= k < |c.mandates| && c.mandates[k].parent.Some?
      ensures !IsRevoked(a.mandates, c.mandates[k].parent.value)
    {
      if k < |b.mandates| {
        assert Mandates.Columns(c.mandates[k]) == Mandates.Columns(b.mandates[k]);
      }
    }
  }

  // ----- one lemma per unit -----

  /** Units that end an attempt or leave it ambiguous. */
  predicate Settles(u: Unit)
  {
    u.Succeed? || u.Recovery? || u.EvidenceCommit? || u.EvidenceRelease?
  }

  /** Units that write who there is and what they may do. */
  predicate Admits(u: Unit)
  {
    u.Issue? || u.RevokeMandate? || u.NewPrincipal? || u.NewAgent? || u.RevokeAgent?
  }

  /** Tables a unit does not write are kept. */
  lemma UnwrittenIsKept(db: Db)
    ensures Follows(db, db)
  {
  }

  lemma MoveFollows(db: Db, i: InvocationId, allowed: set<InvocationStatus>, to: InvocationStatus)
    requires forall s :: s in allowed ==> CanBecome(s, to)
    ensures Follows(db, MoveStatus(db, i, allowed, to))
  {
    UnwrittenIsKept(db);
  }

  lemma OpenFollows(db: Db, r: Request, now: Time)
    requires r.mandate < |db.mandates| && !db.mandates[r.mandate].revoked
    ensures Follows(db, Open(Prepared(db, r), r, now))
  {
    UnwrittenIsKept(db);
  }

  lemma ReserveFollows(db: Db, r: Request, copy: MandateCopy, now: Time, later: Time)
    requires Reservable(db, r)
    ensures Follows(db, ReserveCall(db, r, copy, now, later).0)
  {
    UnwrittenIsKept(db);
    if ReserveCall(db, r, copy, now, later).1.Opened? {
      OpenFollows(db, r, now);
    }
  }

  lemma SettleFollows(db: Db, h: HoldId, i: InvocationId, to: InvocationStatus, x: Ending)
    requires IsHeld(db, h) && i < |db.invocations| && CanBecome(db.invocations[i].status, to)
    ensures Follows(db, Settle(WithStatus(db, i, to), h, db.invocations[i], x))
  {
    UnwrittenIsKept(db);
  }

  lemma UnwindFollows(db: Db, h: HoldId, i: InvocationId, to: InvocationStatus)
    requires IsHeld(db, h) && i < |db.invocations| && CanBecome(db.invocations[i].status, to)
    ensures Follows(db, Unwind(WithStatus(db, i, to), h, db.invocations[i]))
  {
    UnwrittenIsKept(db);
  }

  lemma SettleAgainFollows(db: Db, h: HoldId, i: InvocationId, x: Ending)
    requires h < |db.holds| && HasStatus(db, i, RECONCILABLE)
    ensures Follows(db, SettleAgain(WithStatus(db, i, ReconciledCommitted), h, db.invocations[i], x))
  {
    UnwrittenIsKept(db);
  }

  lemma ReceiptedFollows(db: Db, h: HoldId, i: InvocationId, x: Ending)
    requires IsHeld(db, h) && HasReceipt(db.receipts, h) && HasStatus(db, i, RECONCILABLE)
    ensures Follows(db, SettleOnce(WithStatus(db, i, ReconciledCommitted), h, db.invocations[i], x))
  {
    UnwrittenIsKept(db);
  }

  lemma EconomicsFollow(db: Db, h: HoldId, i: InvocationId, x: Ending)
    requires h < |db.holds| && db.holds[h].status != Released && HasStatus(db, i, RECONCILABLE)
    ensures Follows(db, Economics(WithStatus(db, i, ReconciledCommitted), h, db.invocations[i], x))
  {
    if db.holds[h].status == Committed {
      SettleAgainFollows(db, h, i, x);
    } else if HasReceipt(db.receipts, h) {
      ReceiptedFollows(db, h, i, x);
    } else {
      SettleFollows(db, h, i, ReconciledCommitted, x);
    }
  }

  lemma FinalizeSuccessFollows(db: Db, h: HoldId, i: InvocationId, x: Ending)
    ensures Follows(db, FinalizeSuccess(db, h, i, x).0)
  {
    UnwrittenIsKept(db);
    if FinalizeSuccess(db, h, i, x).1.Won? {
      SettleFollows(db, h, i, InvCommitted, x);
    }
  }

  lemma RecoverFollows(db: Db, i: InvocationId, snapshot: InvocationStatus, release: bool)
    requires i < |db.invocations|
    ensures Follows(db, RecoverReserved(db, i, snapshot, release))
  {
    UnwrittenIsKept(db);
    if release {
      ReleaseFollows(db, i);
    } else if snapshot == Reserved {
      MoveFollows(db, i, {Reserved}, Ambiguous);
    } else {
      MoveFollows(db, i, {Executing}, Ambiguous);
    }
  }

  lemma ReleaseFollows(db: Db, i: InvocationId)
    requires i < |db.invocations|
    ensures Follows(db, FinalizeRelease(db, i, HoldOf(db, i), {Reserved}).0)
  {
    UnwrittenIsKept(db);
    if FinalizeRelease(db, i, HoldOf(db, i), {Reserved}).1.Won? {
      UnwindFollows(db, HoldOf(db, i).value, i, InvReleased);
    }
  }

  lemma ReconcileCommitFollows(db: Db, i: InvocationId, copy: HoldStatus, e: Evidence, x: Ending)
    requires i < |db.invocations|
    ensures Follows(db, ReconcileCommit(db, i, copy, e, x).0)
  {
    UnwrittenIsKept(db);
    if ReconcileCommit(db, i, copy, e, x).1.Won? {
      EconomicsFollow(db, HoldOf(db, i).value, i, x);
    }
  }

  lemma ReconcileReleaseFollows(db: Db, i: InvocationId, copy: HoldStatus, e: Evidence)
    requires i < |db.invocations|
    ensures Follows(db, ReconcileRelease(db, i, copy, e).0)
  {
    UnwrittenIsKept(db);
    if ReconcileRelease(db, i, copy, e).1.Won? {
      UnwindFollows(db, HoldOf(db, i).value, i, ReconciledReleased);
    }
  }

  lemma InsertFollows(db: Db, q: Mandates.Issue)
    requires q.parent.Some? ==> !IsRevoked(db.mandates, q.parent.value)
    ensures Follows(db, Mandates.Inserted(db, q))
  {
    UnwrittenIsKept(db);
  }

  lemma EscrowFollows(db: Db, q: Mandates.Issue, p: MandateId)
    requires p < |db.mandates| && !db.mandates[p].revoked && q.parent == Some(p)
    ensures Follows(db, Mandates.Escrowed(Mandates.Inserted(db, q), p, q.limit))
  {
    UnwrittenIsKept(db);
  }

  lemma IssueFollows(db: Db, q: Mandates.Issue, copy: MandateCopy, now: Time, later: Time)
    ensures Follows(db, Mandates.IssueMandate(db, q, copy, now, later).0)
  {
    if !Mandates.IssueMandate(db, q, copy, now, later).1.Issued? {
      UnwrittenIsKept(db);
    } else if q.parent.None? {
      InsertFollows(db, q);
    } else {
      EscrowFollows(db, q, q.parent.value);
    }
  }

  lemma LogFollows(db: Db, m: MandateId, amount: int, remaining: Option<int>)
    ensures Follows(db, DenyLogged(db, m, amount, remaining))
  {
    UnwrittenIsKept(db);
  }

  lemma RevokeMandateFollows(db: Db, m: MandateId)
    ensures Follows(db, Mandates.RevokeMandate(db, m))
  {
    UnwrittenIsKept(db);
  }

  lemma NewPrincipalFollows(db: Db, account: Option<AccountId>, key: Option<string>)
    ensures Follows(db, Identity.InsertPrincipal(db, account, key).0)
  {
    UnwrittenIsKept(db);
  }

  lemma NewAgentFollows(db: Db, principal: PrincipalId, parent: Option<AgentId>)
    ensures Follows(db, Identity.CreateAgent(db, principal, parent).0)
  {
    UnwrittenIsKept(db);
  }

  lemma RevokeAgentFollows(db: Db, a: AgentId)
    ensures Follows(db, db.(agents := Identity.RevokeAgent(db.agents, a)))
  {
    UnwrittenIsKept(db);
  }

  lemma DeliveryFollows(db: Db, tickets: seq<Outbox.Ticket>, stripe: map<ReceiptId, int>, l: Outbox.Label)
    ensures Follows(db, Delivered(db, tickets, stripe, l))
  {
    UnwrittenIsKept(db);
    if !l.Charge? {
      Outbox.DeliveryKeepsPayloads(Outbox.Desk(db.outbox, tickets, stripe), l);
    }
  }

  lemma LowCommitFollows(db: Db, h: HoldId, seen: Option<int>)
    ensures Follows(db, CommitHelper(db, h, seen))
  {
    UnwrittenIsKept(db);
  }

  lemma LowReleaseFollows(db: Db, h: HoldId)
    ensures Follows(db, ReleaseHelper(db, h))
  {
    UnwrittenIsKept(db);
  }

  lemma SucceedFollows(db: Db, u: Unit)
    requires u.Succeed?
    ensures Follows(db, Perform(db, u))
  {
    UnwrittenIsKept(db);
    if HasHold(db, u.i) {
      FinalizeSuccessFollows(db, HoldOf(db, u.i).value, u.i, u.x);
    }
  }

  lemma RecoveryFollows(db: Db, u: Unit)
    requires u.Recovery?
    ensures Follows(db, Perform(db, u))
  {
    UnwrittenIsKept(db);
    if u.i < |db.invocations| {
      RecoverFollows(db, u.i, u.snapshot, u.release);
    }
  }

  lemma EvidenceFollows(db: Db, u: Unit)
    requires u.EvidenceCommit? || u.EvidenceRelease?
    ensures Follows(db, Perform(db, u))
  {
    UnwrittenIsKept(db);
    if u.i < |db.invocations| {
      if u.EvidenceCommit? {
        ReconcileCommitFollows(db, u.i, u.holdCopy, u.e, u.x);
      } else {
        ReconcileReleaseFollows(db, u.i, u.holdCopy, u.e);
      }
    }
  }

  lemma SettlingFollows(db: Db, u: Unit)
    requires Settles(u)
    ensures Follows(db, Perform(db, u))
  {
    if u.Succeed? {
      SucceedFollows(db, u);
    } else if u.Recovery? {
      RecoveryFollows(db, u);
    } else {
      EvidenceFollows(db, u);
    }
  }

  lemma IssueUnitFollows(db: Db, u: Unit)
    requires u.Issue?
    ensures Follows(db, Perform(db, u))
  {
    IssueFollows(db, u.q, u.copy, u.now, u.later);
  }

  lemma RevokeUnitFollows(db: Db, u: Unit)
    requires u.RevokeMandate?
    ensures Follows(db, Perform(db, u))
  {
    RevokeMandateFollows(db, u.m);
  }

  lemma PartyFollows(db: Db, u: Unit)
    requires u.NewPrincipal? || u.NewAgent? || u.RevokeAgent?
    ensures Follows(db, Perform(db, u))
  {
    if u.NewPrincipal? {
      NewPrincipalFollows(db, u.account, u.key);
    } else if u.NewAgent? {
      NewAgentFollows(db, u.principal, u.parent);
    } else {
      RevokeAgentFollows(db, u.a);
    }
  }

  lemma AdmittingFollows(db: Db, u: Unit)
    requires Admits(u)
    ensures Follows(db, Perform(db, u))
  {
    if u.Issue? {
      IssueUnitFollows(db, u);
    } else if u.RevokeMandate? {
      RevokeUnitFollows(db, u);
    } else {
      PartyFollows(db, u);
    }
  }

  lemma ReserveUnitFollows(db: Db, u: Unit)
    requires u.Reserve?
    ensures Follows(db, Perform(db, u))
  {
    UnwrittenIsKept(db);
    if Reservable(db, u.r) {
      ReserveFollows(db, u.r, u.copy, u.now, u.later);
    }
  }

  lemma DispatchFollows(db: Db, u: Unit)
    requires u.Enter? || u.Fail?
    ensures Follows(db, Perform(db, u))
  {
    MoveFollows(db, u.i, {Reserved}, Executing);
    MoveFollows(db, u.i, {Executing}, ExecutedFail);
  }

  lemma LowLevelFollows(db: Db, u: Unit)
    requires u.LowCommit? || u.LowRelease?
    ensures Follows(db, Perform(db, u))
  {
    LowCommitFollows(db, u.h, if u.LowCommit? then u.seen else None);
    LowReleaseFollows(db, u.h);
  }

  lemma OthersFollow(db: Db, u: Unit)
    requires !Settles(u) && !Admits(u)
    ensures Follows(db, Perform(db, u))
  {
    if u.Reserve? {
      ReserveUnitFollows(db, u);
    } else if u.Enter? || u.Fail? {
      DispatchFollows(db, u);
    } else if u.LowCommit? || u.LowRelease? {
      LowLevelFollows(db, u);
    } else if u.Deliver? {
      DeliveryFollows(db, u.tickets, u.stripe, u.l);
    } else if u.LogDeny? {
      LogFollows(db, u.m, 0, Some(u.remaining));
    } else {
      UnwrittenIsKept(db);
    }
  }

  lemma UnitFollows(db: Db, u: Unit)
    ensures Follows(db, Perform(db, u))
  {
    if Settles(u) {
      SettlingFollows(db, u);
    } else if Admits(u) {
      AdmittingFollows(db, u);
    } else {
      OthersFollow(db, u);
    }
  }

  // ----- which units add rows -----

  /** Only an issue adds mandates, only a reservation attempts and holds; few units touch agents. */
  predicate RowsAdded(u: Unit, a: Db, b: Db)
  {
    && (!u.Issue? ==> |b.mandates| == |a.mandates|)
    && (!u.Reserve? ==> |b.holds| == |a.holds| && |b.invocations| == |a.invocations|)
    && (!u.NewAgent? && !u.RevokeAgent? ==> b.agents == a.agents)
  }

  predicate SameRows(a: Db, b: Db)
  {
    && |b.mandates| == |a.mandates| && |b.holds| == |a.holds| && |b.invocations| == |a.invocations|
    && b.agents == a.agents
  }

  lemma EconomicsAddsNoRows(db: Db, h: HoldId, inv: Invocation, x: Ending)
    requires h < |db.holds|
    ensures SameRows(db, Economics(db, h, inv, x))
  {
  }

  lemma EvidenceAddsNoRows(db: Db, i: InvocationId, copy: HoldStatus, e: Evidence, x: Ending)
    requires i < |db.invocations|
    ensures SameRows(db, ReconcileCommit(db, i, copy, e, x).0)
  {
    if ReconcileCommit(db, i, copy, e, x).1.Won? {
      EconomicsAddsNoRows(WithStatus(db, i, ReconciledCommitted), HoldOf(db, i).value, db.invocations[i], x);
    }
  }

  lemma SettlingAddsNoRows(db: Db, u: Unit)
    requires Settles(u)
    ensures RowsAdded(u, db, Perform(db, u))
  {
    if u.EvidenceCommit? && u.i < |db.invocations| {
      EvidenceAddsNoRows(db, u.i, u.holdCopy, u.e, u.x);
    }
  }

  lemma AdmittingAddsRows(db: Db, u: Unit)
    requires Admits(u)
    ensures RowsAdded(u, db, Perform(db, u))
  {
  }

  lemma OthersAddRows(db: Db, u: Unit)
    requires !Settles(u) && !Admits(u)
    ensures RowsAdded(u, db, Perform(db, u))
  {
  }

  lemma RowsAreAdded(db: Db, u: Unit)
    ensures RowsAdded(u, db, Perform(db, u))
  {
    if Settles(u) {
      SettlingAddsNoRows(db, u);
    } else if Admits(u) {
      AdmittingAddsRows(db, u);
    } else {
      OthersAddRows(db, u);
    }
  }

  // ----- steps and runs -----

  lemma StepFollows(w: World, l: Label)
    ensures Follows(w.db, Apply(w, l).db)
  {
    UnitFollows(w.db, UnitOf(w, l));
  }

  /** Over any run: rows and logs are kept, no hold is settled twice, nothing is spent on a revoked mandate. */
  lemma {:induction false} RunKeeps(w: World, labels: seq<Label>)
    ensures Kept(w.db, Run(w, labels).db)
    decreases labels
  {
    if labels != [] {
      var next := Apply(w, labels[0]);
      StepFollows(w, labels[0]);
      RunKeeps(next, labels[1..]);
      KeptTransitively(w.db, next.db, Run(next, labels[1..]).db);
    }
  }
}
