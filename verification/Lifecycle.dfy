// crossing/lifecycle.py: any number of invoke processes, operators and billing workers, interleaved at
// the commit points. A process that is never scheduled again has crashed there.
module Lifecycle {
  import opened Model
  import opened LedgerSpec
  import Policy
  import Identity
  import Mandates
  import Outbox

  /** Where an invoke process stands between two commits. */
  datatype Pc =
    | Authorized(request: Request)
    | HasAttempt(i: InvocationId)
    | Entered(i: InvocationId)
    | Answered(i: InvocationId, ok: bool)
    | Finished

  type ProcessId = nat

  /**
   * The whole system. `entered` logs every won reserved-to-executing update and `dispatched` every
   * call that reached the provider; nothing reads the logs.
   */
  datatype World = World(
    db: Db,
    procs: map<ProcessId, Pc>,
    entered: seq<InvocationId>,
    dispatched: seq<InvocationId>,
    tickets: seq<Outbox.Ticket>,
    stripe: map<ReceiptId, int>)

  const START := World(EMPTY_DB, map[], [], [], [], map[])

  // ----- what invoke checks before it reserves -----

  /** What the price list, the argument checks and the tenant's billing status say of a call. */
  datatype Checks = Checks(priced: bool, arguments: Policy.Verdict, billable: bool)

  datatype AuthOutcome = Allowed | Denied(reason: Reason, logged: bool) | Cached(result: string)

  /** `_load_idem` on the claim it finds: a replay needs a completed claim that stored a result. */
  function LoadIdem(db: Db, principal: PrincipalId, r: Request): AuthOutcome
  {
    if !Present(r.key) || ClaimKeyOf(principal, r.key) !in db.claims then Allowed
    else
      var claim := db.claims[ClaimKeyOf(principal, r.key)];
      if Present(claim.hash) && claim.hash != r.hash then Denied(IdempotencyConflict, true)
      else if claim.status == ClaimInProgress || !Present(claim.result) then Denied(InProgress, false)
      else Cached(claim.result.value)
  }

  /** The request's nonce is used already; attempts and mandates share one table of nonces. */
  predicate NonceClash(db: Db, r: Request)
    requires r.mandate < |db.mandates|
  {
    Present(r.nonce) && Nonce(db.mandates[r.mandate].principal, r.nonce.value) in db.nonces
  }

  function CheckCall(m: Mandate, r: Request, c: Checks): Policy.Verdict
  {
    var tool := Policy.CheckTool(m, r.tool, r.server, r.amount);
    if !c.priced then Some(UnknownTool)
    else if tool.Some? then tool
    else if c.arguments.Some? then c.arguments
    else if !c.billable then Some(BillingRequired)
    else None
  }

  function Authorize(db: Db, r: Request, now: Time, signatureOk: bool, copy: MandateCopy, c: Checks): AuthOutcome
  {
    var live := Mandates.LoadLive(db, r.mandate, copy, now, signatureOk);
    if live.Some? then Denied(live.value, r.mandate < |db.mandates|)
    else
      var m := Seen(db.mandates[r.mandate], copy);
      var idem, refused := LoadIdem(db, m.principal, r), CheckCall(m, r, c);
      if !idem.Allowed? then idem
      else if NonceClash(db, r) then Denied(NonceReplay, true)
      else if refused.Some? then Denied(refused.value, true)
      else Allowed
  }

  // ----- units of work -----

  /** One committed unit of work on the tables. The last two have no caller outside tests. */
  datatype Unit =
    | Idle
    | LogDeny(m: MandateId, remaining: int)
    | Reserve(r: Request, copy: MandateCopy, now: Time, later: Time)
    | Enter(i: InvocationId)
    | Fail(i: InvocationId)
    | Succeed(i: InvocationId, x: Ending)
    | Recovery(i: InvocationId, snapshot: InvocationStatus, release: bool)
    | EvidenceCommit(i: InvocationId, holdCopy: HoldStatus, e: Evidence, x: Ending)
    | EvidenceRelease(i: InvocationId, holdCopy: HoldStatus, e: Evidence)
    | Issue(q: Mandates.Issue, copy: MandateCopy, now: Time, later: Time)
    | RevokeMandate(m: MandateId)
    | NewPrincipal(account: Option<AccountId>, key: Option<string>)
    | NewAgent(principal: PrincipalId, parent: Option<AgentId>)
    | RevokeAgent(a: AgentId)
    | Deliver(tickets: seq<Outbox.Ticket>, stripe: map<ReceiptId, int>, l: Outbox.Label)
    | LowCommit(h: HoldId, seen: Option<int>)
    | LowRelease(h: HoldId)

  /** The nonce is used up and the task made before the reservation is tried; a denial keeps both. */
  function Prepared(db: Db, r: Request): Db
    requires r.mandate < |db.mandates|
  {
    var m := db.mandates[r.mandate];
    db.(nonces := if Present(r.nonce) then db.nonces + {Nonce(m.principal, r.nonce.value)} else db.nonces,
        tasks := if r.newTask then db.tasks + [Task(m.principal, m.agent)] else db.tasks)
  }

  /** A nonce used since it was checked violates the unique constraint, and the call is aborted. */
  predicate Reservable(db: Db, r: Request)
  {
    r.mandate < |db.mandates| && !NonceClash(db, r)
  }

  function ReserveCall(db: Db, r: Request, copy: MandateCopy, now: Time, later: Time): (Db, ReserveOutcome)
    requires Reservable(db, r)
  {
    ReserveAndCommit(Prepared(db, r), r, copy, now, later)
  }

  predicate HasHold(db: Db, i: InvocationId)
  {
    i < |db.invocations| && HoldOf(db, i).Some?
  }

  function Delivered(db: Db, tickets: seq<Outbox.Ticket>, stripe: map<ReceiptId, int>, l: Outbox.Label): Db
  {
    if l.Charge? then db else db.(outbox := Outbox.Apply(Outbox.Desk(db.outbox, tickets, stripe), l).rows)
  }

  function Perform(db: Db, u: Unit): Db
  {
    match u
    case Idle => db
    case LogDeny(m, remaining) => DenyLogged(db, m, 0, Some(remaining))
    case Reserve(r, copy, now, later) => if Reservable(db, r) then ReserveCall(db, r, copy, now, later).0 else db
    case Enter(i) => MoveStatus(db, i, {Reserved}, Executing)
    case Fail(i) => MoveStatus(db, i, {Executing}, ExecutedFail)
    case Succeed(i, x) => if HasHold(db, i) then FinalizeSuccess(db, HoldOf(db, i).value, i, x).0 else db
    case Recovery(i, snapshot, release) =>
      if i < |db.invocations| then RecoverReserved(db, i, snapshot, release) else db
    case EvidenceCommit(i, copy, e, x) => if i < |db.invocations| then ReconcileCommit(db, i, copy, e, x).0 else db
    case EvidenceRelease(i, copy, e) => if i < |db.invocations| then ReconcileRelease(db, i, copy, e).0 else db
    case Issue(q, copy, now, later) => Mandates.IssueMandate(db, q, copy, now, later).0
    case RevokeMandate(m) => Mandates.RevokeMandate(db, m)
    case NewPrincipal(account, key) => Identity.InsertPrincipal(db, account, key).0
    case NewAgent(principal, parent) => Identity.CreateAgent(db, principal, parent).0
    case RevokeAgent(a) => db.(agents := Identity.RevokeAgent(db.agents, a))
    case Deliver(tickets, stripe, l) => Delivered(db, tickets, stripe, l)
    case LowCommit(h, seen) => CommitHelper(db, h, seen)
    case LowRelease(h) => ReleaseHelper(db, h)
  }

  // ----- steps -----

  datatype Label =
    | Begin(p: ProcessId, request: Request, now: Time, signatureOk: bool, copy: MandateCopy, checks: Checks)
    | Reserving(p: ProcessId, copy: MandateCopy, now: Time, later: Time)
    | Attach(p: ProcessId, i: InvocationId)
    | Mark(p: ProcessId)
    | CallProvider(p: ProcessId, ok: bool)
    | Complete(p: ProcessId, x: Ending)
    | Recover(i: InvocationId, snapshot: InvocationStatus, release: bool)
    | CommitByEvidence(i: InvocationId, holdCopy: HoldStatus, e: Evidence, x: Ending)
    | ReleaseByEvidence(i: InvocationId, holdCopy: HoldStatus, e: Evidence)
    | IssueStep(q: Mandates.Issue, parentCopy: MandateCopy, now: Time, later: Time)
    | RevokeMandateStep(m: MandateId)
    | CreatePrincipalStep(account: Option<AccountId>, key: Option<string>)
    | CreateAgentStep(principal: PrincipalId, parent: Option<AgentId>)
    | RevokeAgentStep(a: AgentId)
    | BillingStep(l: Outbox.Label)
    | HelperCommit(h: HoldId, seen: Option<int>)
    | HelperRelease(h: HoldId)

  predicate IsHelper(l: Label)
  {
    l.HelperCommit? || l.HelperRelease?
  }

  predicate At(w: World, p: ProcessId, pc: Pc)
  {
    p in w.procs && w.procs[p] == pc
  }

  /** What a step writes to the tables. A label whose guard fails writes nothing. */
  function UnitOf(w: World, l: Label): Unit
  {
    match l
    case Begin(p, r, now, signatureOk, copy, checks) =>
      var auth := Authorize(w.db, r, now, signatureOk, copy, checks);
      if p !in w.procs && auth.Denied? && auth.logged then LogDeny(r.mandate, copy.remaining) else Idle
    case Reserving(p, copy, now, later) =>
      if p in w.procs && w.procs[p].Authorized? then Reserve(w.procs[p].request, copy, now, later) else Idle
    case Attach(_, _) => Idle
    case Mark(p) => if p in w.procs && w.procs[p].HasAttempt? then Enter(w.procs[p].i) else Idle
    case CallProvider(_, _) => Idle
    case Complete(p, x) =>
      if p !in w.procs || !w.procs[p].Answered? then Idle
      else if w.procs[p].ok then Succeed(w.procs[p].i, x)
      else Fail(w.procs[p].i)
    case Recover(i, snapshot, release) => Recovery(i, snapshot, release)
    case CommitByEvidence(i, copy, e, x) => EvidenceCommit(i, copy, e, x)
    case ReleaseByEvidence(i, copy, e) => EvidenceRelease(i, copy, e)
    case IssueStep(q, copy, now, later) => Issue(q, copy, now, later)
    case RevokeMandateStep(m) => RevokeMandate(m)
    case CreatePrincipalStep(account, key) => NewPrincipal(account, key)
    case CreateAgentStep(principal, parent) => NewAgent(principal, parent)
    case RevokeAgentStep(a) => RevokeAgent(a)
    case BillingStep(bl) => Deliver(w.tickets, w.stripe, bl)
    case HelperCommit(h, seen) => LowCommit(h, seen)
    case HelperRelease(h) => LowRelease(h)
  }

  function Moved(w: World, p: ProcessId, pc: Pc): World
  {
    w.(procs := w.procs[p := pc])
  }

  function AfterReserve(db: Db, r: Request, copy: MandateCopy, now: Time, later: Time): Pc
  {
    if Reservable(db, r) && ReserveCall(db, r, copy, now, later).1.Opened?
    then HasAttempt(ReserveCall(db, r, copy, now, later).1.invocation)
    else Finished
  }

  /** The dispatch barrier: only the winner of reserved to executing goes on. */
  function AfterMark(w: World, p: ProcessId, i: InvocationId): World
  {
    if HasStatus(w.db, i, {Reserved}) then Moved(w, p, Entered(i)).(entered := w.entered + [i])
    else Moved(w, p, Finished)
  }

  /** Where a step takes its process, and what it does outside the tables. */
  function Advance(w: World, l: Label): World
  {
    match l
    case Begin(p, r, now, signatureOk, copy, checks) =>
      if p in w.procs then w
      else Moved(w, p, if Authorize(w.db, r, now, signatureOk, copy, checks).Allowed? then Authorized(r) else Finished)
    case Reserving(p, copy, now, later) =>
      if p in w.procs && w.procs[p].Authorized?
      then Moved(w, p, AfterReserve(w.db, w.procs[p].request, copy, now, later))
      else w
    case Attach(p, i) => if p !in w.procs && i < |w.db.invocations| then Moved(w, p, HasAttempt(i)) else w
    case Mark(p) => if p in w.procs && w.procs[p].HasAttempt? then AfterMark(w, p, w.procs[p].i) else w
    case CallProvider(p, ok) =>
      if p in w.procs && w.procs[p].Entered?
      then Moved(w, p, Answered(w.procs[p].i, ok)).(dispatched := w.dispatched + [w.procs[p].i])
      else w
    case Complete(p, _) => if p in w.procs && w.procs[p].Answered? then Moved(w, p, Finished) else w
    case BillingStep(bl) =>
      if bl.Charge? then w
      else
        var d := Outbox.Apply(DeskOf(w), bl);
        w.(tickets := d.tickets, stripe := d.stripe)
    case _ => w
  }

  function DeskOf(w: World): Outbox.Desk
  {
    Outbox.Desk(w.db.outbox, w.tickets, w.stripe)
  }

  /** One committed step. */
  function Apply(w: World, l: Label): World
  {
    Advance(w, l).(db := Perform(w.db, UnitOf(w, l)))
  }

  /** Any interleaving is a sequence of labels. */
  function Run(w: World, labels: seq<Label>): World
    decreases labels
  {
    if labels == [] then w else Run(Apply(w, labels[0]), labels[1..])
  }

  predicate NoHelpers(labels: seq<Label>)
  {
    forall k :: 0 <= k < |labels| ==> !IsHelper(labels[k])
  }

  lemma {:induction false} RunInTwoParts(w: World, before: seq<Label>, rest: seq<Label>)
    ensures Run(w, before + rest) == Run(Run(w, before), rest)
    decreases before
  {
    if before == [] {
      assert before + rest == rest;
    } else {
      assert (before + rest)[0] == before[0] && (before + rest)[1..] == before[1..] + rest;
      RunInTwoParts(Apply(w, before[0]), before[1..], rest);
    }
  }

  lemma RunsOn(w: World, l: Label, rest: seq<Label>)
    ensures Run(w, [l] + rest) == Run(Apply(w, l), rest)
  {
    assert ([l] + rest)[1..] == rest;
  }
}
