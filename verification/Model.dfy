// The rows of the runtime's tables. Every table is the sequence of its rows in insertion order and
// a row's id is its position: ids are fresh, rows are never deleted (claims excepted), and a lookup
// by id finds nothing exactly when the id is past the end.
module Model {

  datatype Option<+T> = None | Some(value: T)

  type PrincipalId = nat
  type AgentId = nat
  type MandateId = nat
  type HoldId = nat
  type InvocationId = nat
  type ReceiptId = nat
  type OutboxId = nat
  type AccountId = nat

  /** Microseconds since the epoch, UTC. */
  type Time = int

  /** A datetime as the callers write it: a wall-clock reading, with a UTC offset or naive. */
  datatype DateTime = DateTime(wall: int, offset: Option<int>)

  datatype Reason =
    | MandateForged | MandateExpired | MandateRevoked | NonceReplay
    | ToolNotAllowed | ServerNotAllowed | CallOverMax | BudgetExceeded
    | AgentRevoked | PrincipalMissing | ChildSpendEscalation | ChildExpiryEscalation
    | ChildToolsEscalation | ChildServersEscalation | ChildMaxCallEscalation
    | ChildBudgetEscalation | MaxCallsExceeded | UnknownTool | IdempotencyConflict
    | SignedStateDiverged | InvalidAmount | AgentPrincipalMismatch
    | ChildAgentNotDescendant | Unauthorized | InProgress | InvalidArguments | PayloadTooLarge
    | BillingRequired | FinalizeLost | RateLimited

  /** A tenant; `fees` is the platform fee accumulated so far, in microcents. */
  datatype Account = Account(fees: int)

  /** The mutable columns of a mandate as the caller's possibly stale copy of the row has them. */
  datatype MandateCopy = MandateCopy(remaining: int, callsUsed: int, revoked: bool)

  /** `key` is the public key the principal registered, if any. */
  datatype Principal = Principal(account: AccountId, key: Option<string>)

  /** The issuer's public key; any string does. */
  const ISSUER := "issuer"

  datatype Task = Task(principal: PrincipalId, agent: AgentId)

  datatype Agent = Agent(principal: PrincipalId, parent: Option<AgentId>, revoked: bool)

  /** The immutable fields a mandate's signature covers. */
  datatype Payload = Payload(
    principal: PrincipalId,
    agent: AgentId,
    parent: Option<MandateId>,
    limit: int,
    maxCall: int,
    maxCalls: Option<int>,
    tools: Option<seq<string>>,
    servers: Option<seq<string>>,
    expires: Option<Time>,
    maxSub: Option<int>,
    nonce: string)

  /** `key` is the public key under which the signature of `signed` is to verify. */
  datatype Mandate = Mandate(
    principal: PrincipalId,
    agent: AgentId,
    parent: Option<MandateId>,
    limit: int,
    remaining: int,
    maxCall: int,
    maxCalls: Option<int>,
    callsUsed: int,
    tools: Option<seq<string>>,
    servers: Option<seq<string>>,
    expires: Option<DateTime>,
    maxSub: Option<int>,
    nonce: string,
    key: string,
    signed: Payload,
    revoked: bool)

  datatype HoldStatus = Held | Committed | Released

  /** A reservation. `at` is the clock reading the debit compared with the mandate's expiry. */
  datatype Hold = Hold(
    principal: PrincipalId,
    mandate: MandateId,
    amount: int,
    status: HoldStatus,
    key: Option<string>,
    nonce: Option<string>,
    at: Time)

  datatype InvocationStatus =
    | Reserved | Executing | ExecutedOk | ExecutedFail | Ambiguous
    | InvCommitted | InvReleased | ReconciledCommitted | ReconciledReleased

  datatype Invocation = Invocation(
    principal: PrincipalId,
    mandate: MandateId,
    hold: Option<HoldId>,
    tool: string,
    server: string,
    hash: Option<string>,
    key: Option<string>,
    amount: int,
    status: InvocationStatus)

  datatype ClaimStatus = ClaimInProgress | ClaimCompleted

  /** Claims are unique per principal and idempotency key, hence a map. */
  datatype ClaimKey = ClaimKey(principal: PrincipalId, key: string)
  datatype Claim = Claim(hash: Option<string>, status: ClaimStatus, result: Option<string>)

  datatype Receipt = Receipt(principal: PrincipalId, mandate: MandateId, hold: HoldId, amount: int)

  datatype OutboxStatus = Pending | Sending | Sent | Failed | Noop | Dead

  /** A charge: `account` is the tenant whose fee it added to, at `feeBps`, when it was enqueued. */
  datatype OutboxRow = OutboxRow(
    receipt: ReceiptId,
    amount: int,
    feeBps: int,
    account: Option<AccountId>,
    status: OutboxStatus,
    attempts: int,
    nextAttempt: Option<Time>,
    claimedAt: Option<Time>)

  datatype EventKind = ReserveEvent | CommitEvent | ReleaseEvent | DenyEvent | EscrowEvent

  datatype Event = Event(
    mandate: MandateId,
    kind: EventKind,
    amount: int,
    remainingAfter: Option<int>,
    hold: Option<HoldId>)

  datatype EvidenceKind = DidExecute | DidNotExecute | OtherEvidence(name: string)

  datatype ReconciliationEvent = ReconciliationEvent(
    invocation: InvocationId,
    toStatus: InvocationStatus,
    evidence: EvidenceKind,
    evidenceRef: string)

  datatype Nonce = Nonce(principal: PrincipalId, nonce: string)

  datatype Db = Db(
    accounts: seq<Account>,
    principals: seq<Principal>,
    tasks: seq<Task>,
    agents: seq<Agent>,
    mandates: seq<Mandate>,
    holds: seq<Hold>,
    invocations: seq<Invocation>,
    claims: map<ClaimKey, Claim>,
    receipts: seq<Receipt>,
    outbox: seq<OutboxRow>,
    events: seq<Event>,
    recons: seq<ReconciliationEvent>,
    nonces: set<Nonce>)

  const EMPTY_DB := Db([], [], [], [], [], [], [], map[], [], [], [], [], {})

  /** The row as that copy shows it; its other columns never change. */
  function Seen(m: Mandate, copy: MandateCopy): Mandate
  {
    m.(remaining := copy.remaining, callsUsed := copy.callsUsed, revoked := copy.revoked)
  }

  /** Python truth of an optional string: absent and empty both mean "no key". */
  predicate Present(text: Option<string>)
  {
    text.Some? && text.value != ""
  }
}
