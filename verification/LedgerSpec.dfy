// crossing/ledger.py: what each committed unit of work does to the tables. A unit whose guard fails
// leaves the tables as they were. The methods in Ledger.dfy, which write step by step and undo
// partial writes by savepoint, are proved to do exactly this.
module LedgerSpec {
  import opened Model
  import Policy

  // ----- reserve -----

  /** The WHERE clause of the conditional debit. */
  predicate Debitable(m: Mandate, amount: int, now: Time)
  {
    && m.remaining >= amount
    && !m.revoked
    && (m.maxCalls.None? || m.callsUsed < m.maxCalls.value)
    && (m.expires.None? || Policy.Instant(m.expires.value) > now)
  }

  /** Why a debit failed, read off the caller's copy `m` of the row; `later` is a second clock reading. */
  function DenyReason(m: Mandate, amount: int, later: Time): Reason
  {
    if m.revoked then BudgetExceeded
    else if m.expires.Some? && later > Policy.Instant(m.expires.value) then MandateExpired
    else if m.remaining < amount then BudgetExceeded
    else if m.maxCalls.Some? && m.callsUsed >= m.maxCalls.value then MaxCallsExceeded
    else BudgetExceeded
  }

  function Debited(m: Mandate, amount: int): Mandate
  {
    m.(remaining := m.remaining - amount, callsUsed := m.callsUsed + 1)
  }

  /** Debit, hold and reserve event, as one unit. */
  function DebitHold(db: Db, m: MandateId, amount: int, key: Option<string>, nonce: Option<string>, now: Time): Db
    requires m < |db.mandates|
  {
    var row := Debited(db.mandates[m], amount);
    db.(mandates := db.mandates[m := row],
        holds := db.holds + [Hold(row.principal, m, amount, Held, key, nonce, now)],
        events := db.events + [Event(m, ReserveEvent, amount, Some(row.remaining), Some(|db.holds|))])
  }

  /** A priced call. `newTask` says that the caller named no task, so one is created for it. */
  datatype Request = Request(
    mandate: MandateId,
    tool: string,
    server: string,
    amount: int,
    key: Option<string>,
    hash: Option<string>,
    nonce: Option<string>,
    newTask: bool)

  datatype ReserveOutcome =
    | Opened(hold: HoldId, invocation: InvocationId)
    | ReserveDenied(reason: Reason)
    | Replay(result: string)

  function ClaimKeyOf(principal: PrincipalId, key: Option<string>): ClaimKey
    requires key.Some?
  {
    ClaimKey(principal, key.value)
  }

  /** What a caller that finds the key already claimed is told. */
  function ExistingClaim(claim: Claim, hash: Option<string>): ReserveOutcome
  {
    if Present(claim.hash) && Present(hash) && claim.hash != hash then ReserveDenied(IdempotencyConflict)
    else if claim.status.ClaimCompleted? && Present(claim.result) then Replay(claim.result.value)
    else ReserveDenied(InProgress)
  }

  function DenyLogged(db: Db, m: MandateId, amount: int, remaining: Option<int>): Db
  {
    db.(events := db.events + [Event(m, DenyEvent, amount, remaining, None)])
  }

  /** The row inserted for a new attempt. */
  function NewInvocation(db: Db, r: Request): Invocation
    requires r.mandate < |db.mandates|
  {
    Invocation(db.mandates[r.mandate].principal, r.mandate, Some(|db.holds|), r.tool, r.server, r.hash,
               r.key, r.amount, Reserved)
  }

  /** Claim, debit, hold and attempt, as one unit. */
  function Open(db: Db, r: Request, now: Time): Db
    requires r.mandate < |db.mandates|
  {
    var held := DebitHold(db, r.mandate, r.amount, r.key, r.nonce, now);
    held.(invocations := db.invocations + [NewInvocation(db, r)],
          claims := if Present(r.key)
                    then db.claims[ClaimKeyOf(db.mandates[r.mandate].principal, r.key)
                                   := Claim(r.hash, ClaimInProgress, None)]
                    else db.claims)
  }

  predicate Claimed(db: Db, r: Request)
    requires r.mandate < |db.mandates|
  {
    Present(r.key) && ClaimKeyOf(db.mandates[r.mandate].principal, r.key) in db.claims
  }

  /** The debit's own condition decides; `copy` is where the reason for a denial is read. */
  function ReserveAndCommit(db: Db, r: Request, copy: MandateCopy, now: Time, later: Time): (Db, ReserveOutcome)
    requires r.mandate < |db.mandates|
  {
    var m := db.mandates[r.mandate];
    if Claimed(db, r) then
      (db, ExistingClaim(db.claims[ClaimKeyOf(m.principal, r.key)], r.hash))
    else if r.amount < 0 then
      (db, ReserveDenied(InvalidAmount))
    else if !Debitable(m, r.amount, now) then
      (DenyLogged(db, r.mandate, r.amount, Some(m.remaining)),
       ReserveDenied(DenyReason(Seen(m, copy), r.amount, later)))
    else
      (Open(db, r, now), Opened(|db.holds|, |db.invocations|))
  }

  // ----- status of an attempt -----

  predicate HasStatus(db: Db, i: InvocationId, allowed: set<InvocationStatus>)
  {
    i < |db.invocations| && db.invocations[i].status in allowed
  }

  function WithStatus(db: Db, i: InvocationId, status: InvocationStatus): Db
    requires i < |db.invocations|
  {
    db.(invocations := db.invocations[i := db.invocations[i].(status := status)])
  }

  /** Compare and set of an attempt's status. */
  function MoveStatus(db: Db, i: InvocationId, allowed: set<InvocationStatus>, status: InvocationStatus): Db
  {
    if HasStatus(db, i, allowed) then WithStatus(db, i, status) else db
  }

  const TERMINAL := {InvCommitted, InvReleased, ExecutedFail, Ambiguous, ReconciledCommitted, ReconciledReleased}

  // ----- settling a hold -----

  /** Held to committed, with its event; `seen` is the balance on the caller's copy of the mandate. */
  function CommitHold(db: Db, h: HoldId, seen: Option<int>): Db
    requires h < |db.holds|
  {
    var hold := db.holds[h];
    db.(holds := db.holds[h := hold.(status := Committed)],
        events := db.events + [Event(hold.mandate, CommitEvent, hold.amount, seen, Some(h))])
  }

  function Refunded(m: Mandate, amount: int): Mandate
  {
    m.(remaining := m.remaining + amount, callsUsed := if m.callsUsed > 0 then m.callsUsed - 1 else 0)
  }

  function RefundedMandates(mandates: seq<Mandate>, hold: Hold): seq<Mandate>
  {
    if hold.mandate < |mandates|
    then mandates[hold.mandate := Refunded(mandates[hold.mandate], hold.amount)]
    else mandates
  }

  function RemainingOf(mandates: seq<Mandate>, m: MandateId): Option<int>
  {
    if m < |mandates| then Some(mandates[m].remaining) else None
  }

  /** Held to released, with the refund and its event. */
  function ReleaseHold(db: Db, h: HoldId): Db
    requires h < |db.holds|
  {
    var hold := db.holds[h];
    var mandates := RefundedMandates(db.mandates, hold);
    db.(holds := db.holds[h := hold.(status := Released)],
        mandates := mandates,
        events := db.events
                  + [Event(hold.mandate, ReleaseEvent, hold.amount, RemainingOf(mandates, hold.mandate), Some(h))])
  }

  predicate IsHeld(db: Db, h: HoldId)
  {
    h < |db.holds| && db.holds[h].status == Held
  }

  /** The low-level helpers `commit` and `release`: a lost compare and set does nothing. */
  function CommitHelper(db: Db, h: HoldId, seen: Option<int>): Db
  {
    if IsHeld(db, h) then CommitHold(db, h, seen) else db
  }

  function ReleaseHelper(db: Db, h: HoldId): Db
  {
    if IsHeld(db, h) then ReleaseHold(db, h) else db
  }

  // ----- claims -----

  predicate ClaimIn(claims: map<ClaimKey, Claim>, inv: Invocation)
  {
    Present(inv.key) && ClaimKeyOf(inv.principal, inv.key) in claims
  }

  function ClearedClaims(claims: map<ClaimKey, Claim>, inv: Invocation): map<ClaimKey, Claim>
  {
    if ClaimIn(claims, inv) then claims - {ClaimKeyOf(inv.principal, inv.key)} else claims
  }

  /** Completion inserts the claim when it is missing. */
  function CompletedClaims(claims: map<ClaimKey, Claim>, inv: Invocation, result: Option<string>): map<ClaimKey, Claim>
  {
    if !Present(inv.key) then claims
    else
      var key := ClaimKeyOf(inv.principal, inv.key);
      var hash := if key !in claims || Present(inv.hash) then inv.hash else claims[key].hash;
      claims[key := Claim(hash, ClaimCompleted, result)]
  }

  // ----- receipts and the billing outbox -----

  predicate HasReceipt(receipts: seq<Receipt>, h: HoldId)
  {
    exists j :: 0 <= j < |receipts| && receipts[j].hold == h
  }

  predicate HasOutboxRow(outbox: seq<OutboxRow>, r: ReceiptId)
  {
    exists j :: 0 <= j < |outbox| && outbox[j].receipt == r
  }

  /** The platform fee on an amount: cents times basis points, in microcents. */
  function FeeMicrocents(amount: int, bps: int): (fee: int)
    ensures fee >= 0
  {
    if amount < 0 || bps < 0 then 0 else amount * bps * 100
  }

  function AccountOf(db: Db, principal: PrincipalId): Option<AccountId>
  {
    if principal < |db.principals| && db.principals[principal].account < |db.accounts|
    then Some(db.principals[principal].account)
    else None
  }

  function FreshRow(r: ReceiptId, amount: int, bps: int, account: Option<AccountId>): OutboxRow
  {
    OutboxRow(r, amount, bps, account, Pending, 0, None, None)
  }

  function FeeApplied(accounts: seq<Account>, account: Option<AccountId>, amount: int, bps: int): seq<Account>
  {
    if account.Some? && account.value < |accounts|
    then accounts[account.value := Account(accounts[account.value].fees + FeeMicrocents(amount, bps))]
    else accounts
  }

  /** One outbox row per receipt, its fee accumulated once: an existing row is kept, and adds no fee. */
  function Enqueued(db: Db, r: ReceiptId, amount: int, principal: PrincipalId, bps: int): Db
  {
    if HasOutboxRow(db.outbox, r) then db
    else
      var account := AccountOf(db, principal);
      db.(outbox := db.outbox + [FreshRow(r, amount, bps, account)],
          accounts := FeeApplied(db.accounts, account, amount, bps))
  }

  /** Issue the receipt for a hold and enqueue its charge. */
  function Billed(db: Db, inv: Invocation, h: HoldId, bps: int): Db
  {
    Enqueued(db.(receipts := db.receipts + [Receipt(inv.principal, inv.mandate, h, inv.amount)]),
             |db.receipts|, inv.amount, inv.principal, bps)
  }

  // ----- finalize -----

  /**
   * What the caller brings to a success: the balance on its copy of the mandate, the result to store
   * with the claim, and the fee rate in force.
   */
  datatype Ending = Ending(seen: Option<int>, result: Option<string>, bps: int)

  datatype Outcome = Won | Lost | Aborted | Refused(reason: Reason)

  /** Commit the hold, bill the attempt once and complete its claim. */
  function Settle(db: Db, h: HoldId, inv: Invocation, x: Ending): Db
    requires h < |db.holds|
  {
    Billed(CommitHold(db, h, x.seen), inv, h, x.bps).(claims := CompletedClaims(db.claims, inv, x.result))
  }

  /** Release the hold and free the attempt's key. */
  function Unwind(db: Db, h: HoldId, inv: Invocation): Db
    requires h < |db.holds|
  {
    ReleaseHold(db, h).(claims := ClearedClaims(db.claims, inv))
  }

  /** A receipt that already exists violates the unique column and aborts the transaction. */
  function FinalizeSuccess(db: Db, h: HoldId, i: InvocationId, x: Ending): (Db, Outcome)
  {
    if !IsHeld(db, h) || !HasStatus(db, i, {Executing, ExecutedOk}) then (db, Lost)
    else if HasReceipt(db.receipts, h) then (db, Aborted)
    else (Settle(WithStatus(db, i, InvCommitted), h, db.invocations[i], x), Won)
  }

  function FinalizeRelease(db: Db, i: InvocationId, h: Option<HoldId>, allowed: set<InvocationStatus>): (Db, Outcome)
  {
    if h.None? || !IsHeld(db, h.value) || !HasStatus(db, i, allowed) then (db, Lost)
    else (Unwind(WithStatus(db, i, InvReleased), h.value, db.invocations[i]), Won)
  }

  /** The reservation row an attempt points at, if there is one. */
  function HoldOf(db: Db, i: InvocationId): Option<HoldId>
    requires i < |db.invocations|
  {
    var h := db.invocations[i].hold;
    if h.Some? && h.value < |db.holds| then h else None
  }

  /** `snapshot` is the status the caller refreshed before its compare and set. */
  function RecoverReserved(db: Db, i: InvocationId, snapshot: InvocationStatus, release: bool): Db
    requires i < |db.invocations|
  {
    if snapshot in TERMINAL then db
    else if release then
      if snapshot == Executing then db
      else FinalizeRelease(db, i, HoldOf(db, i), {Reserved}).0
    else if snapshot == Reserved then MoveStatus(db, i, {Reserved}, Ambiguous)
    else if snapshot == Executing then MoveStatus(db, i, {Executing}, Ambiguous)
    else db
  }

  // ----- reconciliation -----

  /** The characters Python's `str.strip` removes. */
  predicate IsSpace(c: char)
  {
    || '\t' <= c <= '\r' || '\U{1C}' <= c <= ' ' || c in {'\U{85}', '\U{A0}', '\U{1680}'}
    || '\U{2000}' <= c <= '\U{200A}' || c in {'\U{2028}', '\U{2029}', '\U{202F}', '\U{205F}', '\U{3000}'}
  }

  function StripLeft(text: string): string
  {
    if text != "" && IsSpace(text[0]) then StripLeft(text[1..]) else text
  }

  function StripRight(text: string): string
  {
    if text != "" && IsSpace(text[|text| - 1]) then StripRight(text[..|text| - 1]) else text
  }

  function Strip(text: string): string
  {
    StripRight(StripLeft(text))
  }

  /** Evidence as an operator presents it. */
  datatype Evidence = Evidence(kind: EvidenceKind, reference: string)

  predicate EvidenceAccepted(e: Evidence)
  {
    Strip(e.reference) != "" && !e.kind.OtherEvidence?
  }

  function Recorded(db: Db, i: InvocationId, to: InvocationStatus, e: Evidence): Db
  {
    db.(recons := db.recons + [ReconciliationEvent(i, to, e.kind, Strip(e.reference))])
  }

  const RECONCILABLE := {Ambiguous, ExecutedFail}

  /** The hold is committed already: bill the attempt if it was not billed, and no more. */
  function SettleAgain(db: Db, h: HoldId, inv: Invocation, x: Ending): Db
    requires h < |db.holds|
  {
    var billed := if HasReceipt(db.receipts, h) then db else Billed(db, inv, h, x.bps);
    billed.(claims := CompletedClaims(db.claims, inv, x.result))
  }

  /** As Settle, but a receipt that exists is kept, and enqueued if it is not already. */
  function SettleOnce(db: Db, h: HoldId, inv: Invocation, x: Ending): Db
    requires h < |db.holds|
  {
    if !HasReceipt(db.receipts, h) then Settle(db, h, inv, x)
    else
      Enqueued(CommitHold(db, h, x.seen), FirstReceipt(db.receipts, h), inv.amount, inv.principal, x.bps)
        .(claims := CompletedClaims(db.claims, inv, x.result))
  }

  /** The same economics as a success, once, whatever a helper did to the hold before. */
  function Economics(db: Db, h: HoldId, inv: Invocation, x: Ending): Db
    requires h < |db.holds|
  {
    if db.holds[h].status == Committed then SettleAgain(db, h, inv, x) else SettleOnce(db, h, inv, x)
  }

  function FirstReceipt(receipts: seq<Receipt>, h: HoldId): (j: ReceiptId)
    requires HasReceipt(receipts, h)
    ensures j < |receipts| && receipts[j].hold == h
  {
    if receipts[0].hold == h then 0
    else
      assert forall j :: 0 < j < |receipts| ==> receipts[j] == receipts[1..][j - 1];
      FirstReceipt(receipts[1..], h) + 1
  }

  /** `copy` is the hold status on the operator's possibly stale copy of the row. */
  function ReconcileCommit(db: Db, i: InvocationId, copy: HoldStatus, e: Evidence, x: Ending): (Db, Outcome)
    requires i < |db.invocations|
  {
    if !EvidenceAccepted(e) || e.kind != DidExecute then (db, Refused(Unauthorized))
    else
      var h := HoldOf(db, i);
      if h.None? || copy == Released || db.holds[h.value].status == Released || !HasStatus(db, i, RECONCILABLE)
      then (db, Lost)
      else
        var inv, moved := db.invocations[i], WithStatus(db, i, ReconciledCommitted);
        (Recorded(Economics(moved, h.value, inv, x), i, ReconciledCommitted, e), Won)
  }

  function ReconcileRelease(db: Db, i: InvocationId, copy: HoldStatus, e: Evidence): (Db, Outcome)
    requires i < |db.invocations|
  {
    if !EvidenceAccepted(e) || e.kind == DidExecute then (db, Refused(Unauthorized))
    else
      var h := HoldOf(db, i);
      if h.None? || copy == Committed || !IsHeld(db, h.value) || !HasStatus(db, i, RECONCILABLE)
      then (db, Lost)
      else
        var moved := WithStatus(db, i, ReconciledReleased);
        (Recorded(Unwind(moved, h.value, db.invocations[i]), i, ReconciledReleased, e), Won)
  }
}
