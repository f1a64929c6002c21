// crossing/billing.py: the platform fee. It is accumulated on the paying tenant when a charge is
// enqueued, in integer microcents, once per receipt.
module Fees {
  import opened Model
  import opened Sums
  import opened LedgerSpec
  import opened Lifecycle
  import History
  import Identity
  import Mandates
  import Outbox

  /** What a charge adds to an account's fees. */
  function FeeFor(a: AccountId): OutboxRow -> int
  {
    (row: OutboxRow) => if row.account == Some(a) then FeeMicrocents(row.amount, row.feeBps) else 0
  }

  /** Foreign keys: whatever names a principal names one that exists, and a principal has its account. */
  predicate Housed(db: Db)
  {
    && (forall p :: 0 <= p < |db.principals| ==> db.principals[p].account < |db.accounts|)
    && (forall a :: 0 <= a < |db.agents| ==> db.agents[a].principal < |db.principals|)
    && (forall m :: 0 <= m < |db.mandates| ==> db.mandates[m].principal < |db.principals|)
    && (forall i :: 0 <= i < |db.invocations| ==> db.invocations[i].principal < |db.principals|)
  }

  /** A receipt has one charge of its own, on the account of the principal that pays. */
  predicate Billed(principals: seq<Principal>, receipts: seq<Receipt>, outbox: seq<OutboxRow>)
  {
    && |outbox| == |receipts|
    && forall j :: 0 <= j < |receipts| ==>
         && receipts[j].principal < |principals|
         && outbox[j].receipt == j && outbox[j].amount == receipts[j].amount
         && outbox[j].account == Some(principals[receipts[j].principal].account)
  }

  predicate Accumulated(accounts: seq<Account>, outbox: seq<OutboxRow>)
  {
    forall a :: 0 <= a < |accounts| ==> accounts[a].fees == SumBy(outbox, FeeFor(a))
  }

  predicate Accounted(db: Db)
  {
    Housed(db) && Billed(db.principals, db.receipts, db.outbox) && Accumulated(db.accounts, db.outbox)
  }

  /** The tables the fees are read from, and the number of rows that name a principal. */
  predicate SameAccounts(a: Db, b: Db)
  {
    && a.accounts == b.accounts && a.principals == b.principals && a.agents == b.agents
    && a.receipts == b.receipts && a.outbox == b.outbox
    && |a.mandates| == |b.mandates| && |a.invocations| == |b.invocations|
  }

  lemma SameAccountsAccounted(a: Db, b: Db)
    requires Accounted(a) && SameAccounts(a, b) && History.Follows(a, b)
    ensures Accounted(b)
  {
    forall m | 0 <= m < |b.mandates|
      ensures b.mandates[m].principal < |b.principals|
    {
      assert Mandates.Columns(b.mandates[m]) == Mandates.Columns(a.mandates[m]);
    }
    forall i | 0 <= i < |b.invocations|
      ensures b.invocations[i].principal < |b.principals|
    {
      assert History.Continues(a.invocations[i], b.invocations[i]);
    }
  }

  /** A new charge adds its fee to its account and to no other. */
  lemma ChargeAccumulates(accounts: seq<Account>, outbox: seq<OutboxRow>, row: OutboxRow)
    requires Accumulated(accounts, outbox)
    requires row.account.Some? && row.account.value < |accounts|
    ensures Accumulated(FeeApplied(accounts, row.account, row.amount, row.feeBps), outbox + [row])
  {
    forall a | 0 <= a < |accounts|
      ensures FeeApplied(accounts, row.account, row.amount, row.feeBps)[a].fees == SumBy(outbox + [row], FeeFor(a))
    {
      SumAppend(outbox, row, FeeFor(a));
    }
  }

  /** Issuing a receipt and enqueuing its charge, whatever else the unit writes. */
  lemma BilledIsAccounted(db: Db, inv: Invocation, h: HoldId, bps: int)
    requires Accounted(db) && inv.principal < |db.principals|
    ensures Accounted(LedgerSpec.Billed(db, inv, h, bps))
  {
    var account := Some(db.principals[inv.principal].account);
    ChargeAccumulates(db.accounts, db.outbox, FreshRow(|db.receipts|, inv.amount, bps, account));
  }

  /** A receipt that exists has its charge already. */
  lemma ReceiptIsCharged(db: Db, h: HoldId)
    requires Accounted(db) && HasReceipt(db.receipts, h)
    ensures HasOutboxRow(db.outbox, FirstReceipt(db.receipts, h))
  {
    assert db.outbox[FirstReceipt(db.receipts, h)].receipt == FirstReceipt(db.receipts, h);
  }

  /** Success bills as Billed does, and the rest of what it writes is no part of the accounts. */
  lemma SettleIsAccounted(db: Db, h: HoldId, i: InvocationId, to: InvocationStatus, x: Ending)
    requires Accounted(db) && h < |db.holds| && i < |db.invocations|
    ensures Accounted(Settle(WithStatus(db, i, to), h, db.invocations[i], x))
  {
    BilledIsAccounted(db, db.invocations[i], h, x.bps);
  }

  lemma FinalizeIsAccounted(db: Db, h: HoldId, i: InvocationId, x: Ending)
    requires Accounted(db)
    ensures Accounted(FinalizeSuccess(db, h, i, x).0)
  {
    if FinalizeSuccess(db, h, i, x).1.Won? {
      SettleIsAccounted(db, h, i, InvCommitted, x);
    }
  }

  lemma SettleAgainIsAccounted(db: Db, h: HoldId, i: InvocationId, to: InvocationStatus, x: Ending)
    requires Accounted(db) && h < |db.holds| && i < |db.invocations|
    ensures Accounted(SettleAgain(WithStatus(db, i, to), h, db.invocations[i], x))
  {
    BilledIsAccounted(db, db.invocations[i], h, x.bps);
  }

  lemma ReceiptedIsAccounted(db: Db, h: HoldId, i: InvocationId, to: InvocationStatus, x: Ending)
    requires Accounted(db) && h < |db.holds| && i < |db.invocations| && HasReceipt(db.receipts, h)
    ensures Accounted(SettleOnce(WithStatus(db, i, to), h, db.invocations[i], x))
  {
    ReceiptIsCharged(db, h);
  }

  lemma EconomicsIsAccounted(db: Db, h: HoldId, i: InvocationId, to: InvocationStatus, x: Ending)
    requires Accounted(db) && h < |db.holds| && i < |db.invocations|
    ensures Accounted(Economics(WithStatus(db, i, to), h, db.invocations[i], x))
  {
    if db.holds[h].status == Committed {
      SettleAgainIsAccounted(db, h, i, to, x);
    } else if HasReceipt(db.receipts, h) {
      ReceiptedIsAccounted(db, h, i, to, x);
    } else {
      SettleIsAccounted(db, h, i, to, x);
    }
  }

  lemma ReconcileCommitIsAccounted(db: Db, i: InvocationId, copy: HoldStatus, e: Evidence, x: Ending)
    requires Accounted(db) && i < |db.invocations|
    ensures Accounted(ReconcileCommit(db, i, copy, e, x).0)
  {
    if ReconcileCommit(db, i, copy, e, x).1.Won? {
      EconomicsIsAccounted(db, HoldOf(db, i).value, i, ReconciledCommitted, x);
    }
  }

  lemma ReserveIsAccounted(db: Db, r: Request, copy: MandateCopy, now: Time, later: Time)
    requires Accounted(db) && Reservable(db, r)
    ensures Accounted(ReserveCall(db, r, copy, now, later).0)
  {
    var after := ReserveCall(db, r, copy, now, later).0;
    History.ReserveFollows(db, r, copy, now, later);
    if ReserveCall(db, r, copy, now, later).1.Opened? {
      assert after.invocations == db.invocations + [NewInvocation(db, r)];
    }
    SameAccountsAccounted(db, after.(invocations := db.invocations));
  }

  lemma IssueIsAccounted(db: Db, q: Mandates.Issue, copy: MandateCopy, now: Time, later: Time)
    requires Accounted(db)
    ensures Accounted(Mandates.IssueMandate(db, q, copy, now, later).0)
  {
    var after := Mandates.IssueMandate(db, q, copy, now, later).0;
    History.IssueFollows(db, q, copy, now, later);
    forall m | 0 <= m < |after.mandates|
      ensures after.mandates[m].principal < |db.principals|
    {
      if m < |db.mandates| {
        assert Mandates.Columns(after.mandates[m]) == Mandates.Columns(db.mandates[m]);
      }
    }
  }

  /** A new account has no charges yet. */
  lemma NewPrincipalIsAccounted(db: Db, account: Option<AccountId>, key: Option<string>)
    requires Accounted(db)
    ensures Accounted(Identity.InsertPrincipal(db, account, key).0)
  {
    forall j | 0 <= j < |db.outbox|
      ensures FeeFor(|db.accounts|)(db.outbox[j]) == 0
    {
      assert db.principals[db.receipts[j].principal].account < |db.accounts|;
    }
    SumZero(db.outbox, FeeFor(|db.accounts|));
  }

  lemma NewAgentIsAccounted(db: Db, principal: PrincipalId, parent: Option<AgentId>)
    requires Accounted(db)
    ensures Accounted(Identity.CreateAgent(db, principal, parent).0)
  {
  }

  lemma RevokeAgentIsAccounted(db: Db, a: AgentId)
    requires Accounted(db)
    ensures Accounted(db.(agents := Identity.RevokeAgent(db.agents, a)))
  {
  }

  lemma DeliveryIsAccounted(db: Db, tickets: seq<Outbox.Ticket>, stripe: map<ReceiptId, int>, l: Outbox.Label)
    requires Accounted(db)
    ensures Accounted(Delivered(db, tickets, stripe, l))
  {
    if !l.Charge? {
      var rows := Delivered(db, tickets, stripe, l).outbox;
      Outbox.DeliveryKeepsPayloads(Outbox.Desk(db.outbox, tickets, stripe), l);
      forall a: AccountId
        ensures SumBy(rows, FeeFor(a)) == SumBy(db.outbox, FeeFor(a))
      {
        SumEqual(rows, db.outbox, FeeFor(a), FeeFor(a));
      }
    }
  }

  /** Units that write attempts or charges. */
  predicate Bills(u: Unit)
  {
    u.Reserve? || u.Succeed? || u.EvidenceCommit? || u.Deliver?
  }

  lemma SettlingLeavesAccounts(db: Db, u: Unit)
    requires History.Settles(u) && !Bills(u)
    ensures SameAccounts(db, Perform(db, u))
  {
    if u.Recovery? {
      RecoveryLeavesAccounts(db, u);
    }
  }

  lemma RecoveryLeavesAccounts(db: Db, u: Unit)
    requires u.Recovery?
    ensures SameAccounts(db, Perform(db, u))
  {
  }

  lemma OtherUnitsLeaveAccounts(db: Db, u: Unit)
    requires !Bills(u) && !History.Admits(u)
    ensures SameAccounts(db, Perform(db, u))
  {
    if History.Settles(u) {
      SettlingLeavesAccounts(db, u);
    }
  }

  lemma OtherUnitIsAccounted(db: Db, u: Unit)
    requires Accounted(db) && !Bills(u) && !History.Admits(u)
    ensures Accounted(Perform(db, u))
  {
    OtherUnitsLeaveAccounts(db, u);
    History.UnitFollows(db, u);
    SameAccountsAccounted(db, Perform(db, u));
  }

  lemma UnitIsAccounted(db: Db, u: Unit)
    requires Accounted(db)
    ensures Accounted(Perform(db, u))
  {
    if Bills(u) {
      BillingIsAccounted(db, u);
    } else if History.Admits(u) {
      AdmissionIsAccounted(db, u);
    } else {
      OtherUnitIsAccounted(db, u);
    }
  }

  lemma ReserveUnitIsAccounted(db: Db, u: Unit)
    requires Accounted(db) && u.Reserve?
    ensures Accounted(Perform(db, u))
  {
    if Reservable(db, u.r) {
      ReserveIsAccounted(db, u.r, u.copy, u.now, u.later);
    }
  }

  lemma SuccessIsAccounted(db: Db, u: Unit)
    requires Accounted(db) && (u.Succeed? || u.EvidenceCommit?)
    ensures Accounted(Perform(db, u))
  {
    if u.Succeed? {
      if HasHold(db, u.i) {
        FinalizeIsAccounted(db, HoldOf(db, u.i).value, u.i, u.x);
      }
    } else if u.i < |db.invocations| {
      ReconcileCommitIsAccounted(db, u.i, u.holdCopy, u.e, u.x);
    }
  }

  lemma BillingIsAccounted(db: Db, u: Unit)
    requires Accounted(db) && Bills(u)
    ensures Accounted(Perform(db, u))
  {
    if u.Reserve? {
      ReserveUnitIsAccounted(db, u);
    } else if u.Deliver? {
      DeliveryIsAccounted(db, u.tickets, u.stripe, u.l);
    } else {
      SuccessIsAccounted(db, u);
    }
  }

  lemma RevokeMandateIsAccounted(db: Db, m: MandateId)
    requires Accounted(db)
    ensures Accounted(Mandates.RevokeMandate(db, m))
  {
    History.RevokeMandateFollows(db, m);
    SameAccountsAccounted(db, Mandates.RevokeMandate(db, m));
  }

  lemma AdmissionIsAccounted(db: Db, u: Unit)
    requires Accounted(db) && History.Admits(u)
    ensures Accounted(Perform(db, u))
  {
    if u.Issue? {
      IssueIsAccounted(db, u.q, u.copy, u.now, u.later);
    } else if u.RevokeMandate? {
      RevokeMandateIsAccounted(db, u.m);
    } else {
      PartyIsAccounted(db, u);
    }
  }

  lemma PartyIsAccounted(db: Db, u: Unit)
    requires Accounted(db) && (u.NewPrincipal? || u.NewAgent? || u.RevokeAgent?)
    ensures Accounted(Perform(db, u))
  {
    match u
    case NewPrincipal(account, key) => NewPrincipalIsAccounted(db, account, key);
    case NewAgent(principal, parent) => NewAgentIsAccounted(db, principal, parent);
    case RevokeAgent(a) => RevokeAgentIsAccounted(db, a);
  }
}
