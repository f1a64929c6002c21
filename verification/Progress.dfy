// What comes next: from every state that a helper-free run reaches, what one step of a call, of an operator
// or of an administrator does, written out, and what follows from it in every later state.
module Progress {
  import opened Model
  import opened Sums
  import opened LedgerSpec
  import opened Lifecycle
  import opened Invariants
  import opened Effects
  import opened Admission
  import Delivery
  import Identity
  import Keys
  import Mandates
  import Universe
  import History
  import Revocation
  import Story
  import Outbox
  import Runs
  import States

  /** A state of a helper-free run from the empty system. */
  ghost predicate Reached(w: World)
  {
    exists labels :: NoHelpers(labels) && w == Run(START, labels)
  }

  lemma ReachedIsSane(w: World)
    requires Reached(w)
    ensures Story.Story(w) && Sane(w.db)
  {
    var labels :| NoHelpers(labels) && w == Run(START, labels);
    var _ := Runs.Reachable(labels);
  }

  lemma AttemptIsIntact(w: World, i: InvocationId)
    requires Reached(w) && i < |w.db.invocations|
    ensures Intact(w.db, i)
  {
    ReachedIsSane(w);
    SaneAttemptIsIntact(w.db, i);
  }

  lemma StepIsReached(w: World, l: Label)
    requires Reached(w) && !IsHelper(l)
    ensures Reached(Apply(w, l))
  {
    var labels :| NoHelpers(labels) && w == Run(START, labels);
    Runs.OneMore(labels, l);
    assert NoHelpers(labels + [l]);
  }

  // ----- reconciliation -----

  /**
   * An ambiguous or failed attempt, and no other, is released on a non-blank reference that it did not
   * execute, unless the operator's copy shows its hold committed; any other attempt to release it does nothing.
   */
  lemma ReleaseByEvidenceExactly(w: World, i: InvocationId, copy: HoldStatus, e: Evidence)
    requires Reached(w) && i < |w.db.invocations|
    ensures Intact(w.db, i)
    ensures Apply(w, ReleaseByEvidence(i, copy, e))
            == if Reconcilable(w.db, i) && Proves(e, DidNotExecute) && copy != Committed
               then w.(db := EvidencedAs(ReleasedAs(w.db, i, ReconciledReleased), i, ReconciledReleased, e))
               else w
  {
    AttemptIsIntact(w, i);
    EvidenceReleaseExactly(w.db, i, copy, e);
  }

  /** The same of committing on a reference that it did execute: billed once, and its key completed. */
  lemma CommitByEvidenceExactly(w: World, i: InvocationId, copy: HoldStatus, e: Evidence, x: Ending)
    requires Reached(w) && i < |w.db.invocations|
    ensures Intact(w.db, i)
    ensures Apply(w, CommitByEvidence(i, copy, e, x))
            == if Reconcilable(w.db, i) && Proves(e, DidExecute) && copy != Released
               then w.(db := EvidencedAs(CommittedAs(w.db, i, ReconciledCommitted, x), i, ReconciledCommitted, e))
               else w
  {
    AttemptIsIntact(w, i);
    EvidenceCommitExactly(w.db, i, copy, e, x);
  }

  // ----- a call, step by step -----

  /** A refusal is logged if the answer says so; only the answer to go on authorises. */
  lemma BegunExactly(w: World, p: ProcessId, r: Request, now: Time, signatureOk: bool, copy: MandateCopy, c: Checks)
    requires Reached(w) && p !in w.procs
    ensures var answer := Answer(w.db, r, now, signatureOk, copy, c);
            Apply(w, Begin(p, r, now, signatureOk, copy, c))
            == w.(procs := w.procs[p := if answer == Allowed then Authorized(r) else Finished],
                  db := if answer.Denied? && answer.logged
                        then w.db.(events := w.db.events + [Event(r.mandate, DenyEvent, 0, Some(copy.remaining), None)])
                        else w.db)
  {
    ReachedIsSane(w);
    AuthorizeExactly(w.db, r, now, signatureOk, copy, c);
  }

  lemma ReservedExactly(w: World, p: ProcessId, r: Request, copy: MandateCopy, now: Time, later: Time)
    requires At(w, p, Authorized(r))
    ensures Apply(w, Reserving(p, copy, now, later))
            == if CanOpen(w.db, r, now)
               then w.(procs := w.procs[p := HasAttempt(|w.db.invocations|)], db := OpenedAs(w.db, r, now))
               else w.(procs := w.procs[p := Finished],
                       db := if r.mandate < |w.db.mandates| && NonceFree(w.db, w.db.mandates[r.mandate].principal, r.nonce)
                             then RefusedAs(w.db, r) else w.db)
  {
    ReserveExactly(w.db, r, copy, now, later);
  }

  /** Exactly the process that finds its attempt reserved goes on, with the attempt executing. */
  lemma MarkedExactly(w: World, p: ProcessId, i: InvocationId)
    requires At(w, p, HasAttempt(i)) && i < |w.db.invocations|
    ensures Apply(w, Mark(p))
            == if w.db.invocations[i].status == Reserved
               then World(w.db.(invocations := WithInvocationStatus(w.db, i, Executing)), w.procs[p := Entered(i)],
                          w.entered + [i], w.dispatched, w.tickets, w.stripe)
               else w.(procs := w.procs[p := Finished])
  {
    DispatchExactly(w.db, i);
  }

  /** An ok answer commits exactly an executing attempt; an error marks exactly an executing attempt failed. */
  lemma CompletedExactly(w: World, p: ProcessId, i: InvocationId, ok: bool, x: Ending)
    requires Reached(w) && At(w, p, Answered(i, ok)) && i < |w.db.invocations|
    ensures Intact(w.db, i)
    ensures Apply(w, Complete(p, x))
            == w.(procs := w.procs[p := Finished],
                  db := if w.db.invocations[i].status != Executing then w.db
                        else if ok then CommittedAs(w.db, i, InvCommitted, x)
                        else w.db.(invocations := WithInvocationStatus(w.db, i, ExecutedFail)))
  {
    AttemptIsIntact(w, i);
    SuccessExactly(w.db, i, x);
    DispatchExactly(w.db, i);
  }

  lemma RecoveredExactly(w: World, i: InvocationId, snapshot: InvocationStatus, release: bool)
    requires Reached(w) && i < |w.db.invocations|
    ensures Intact(w.db, i)
    ensures Apply(w, Recover(i, snapshot, release)) == w.(db := RecoveredAs(w.db, i, snapshot, release))
  {
    AttemptIsIntact(w, i);
    RecoveryExactly(w.db, i, snapshot, release);
  }

  // ----- the same call again -----

  /** The step commits attempt i and stores that result: its call is completed, or an operator shows it executed. */
  predicate CommitsWith(w: World, l: Label, i: InvocationId, result: string)
  {
    && i < |w.db.invocations| && result != ""
    && (CompletesWith(w, l, i, result) || EvidencedWith(w, l, i, result))
  }

  predicate CompletesWith(w: World, l: Label, i: InvocationId, result: string)
    requires i < |w.db.invocations|
  {
    && l.Complete? && At(w, l.p, Answered(i, true)) && l.x.result == Some(result)
    && w.db.invocations[i].status == Executing
  }

  predicate EvidencedWith(w: World, l: Label, i: InvocationId, result: string)
    requires i < |w.db.invocations|
  {
    && l.CommitByEvidence? && l.i == i && l.x.result == Some(result)
    && Reconcilable(w.db, i) && Proves(l.e, DidExecute) && l.holdCopy != Released
  }

  /** Both claim checks answer a call with the result, or with a conflict if its hash is not the one stored. */
  predicate Replays(db: Db, ck: ClaimKey, hash: Option<string>, result: string, r: Request)
  {
    && ck in db.claims
    && LoadIdem(db, ck.principal, r)
       == (if Present(hash) && r.hash != hash then Denied(IdempotencyConflict, true) else Cached(result))
    && ExistingClaim(db.claims[ck], r.hash)
       == (if Present(hash) && Present(r.hash) && r.hash != hash then ReserveDenied(IdempotencyConflict) else Replay(result))
  }

  lemma CommitCompletesKey(w: World, l: Label, i: InvocationId, result: string)
    requires Reached(w) && CommitsWith(w, l, i, result) && Present(w.db.invocations[i].key)
    ensures var inv, after := w.db.invocations[i], Apply(w, l).db;
            var ck := ClaimKey(inv.principal, inv.key.value);
            ck in after.claims && after.claims[ck] == Claim(inv.hash, ClaimCompleted, Some(result))
  {
    if l.Complete? {
      CompletedExactly(w, l.p, i, true, l.x);
    } else {
      CommitByEvidenceExactly(w, i, l.holdCopy, l.e, l.x);
    }
  }

  lemma CompletedClaimReplays(db: Db, ck: ClaimKey, hash: Option<string>, result: string, r: Request)
    requires ck in db.claims && db.claims[ck] == Claim(hash, ClaimCompleted, Some(result)) && result != ""
    requires r.key == Some(ck.key) && ck.key != ""
    ensures Replays(db, ck, hash, result, r)
  {
  }

  lemma LaterBooks(w: World, rest: seq<Label>) returns (late: Db)
    requires Reached(w)
    ensures late == Run(w, rest).db && Books(late)
    ensures Keys.CompletedKept(w.db.claims, late.claims) && History.Kept(w.db, late)
  {
    ReachedIsSane(w);
    Runs.RunKeepsBooks(w, rest);
    History.RunKeeps(w, rest);
    late := Run(w, rest).db;
  }

  /** A committed call with a key stores its result, and in every later state the same call is answered with it. */
  lemma CommittedCallIsReplayed(w: World, l: Label, rest: seq<Label>, i: InvocationId, result: string, r: Request)
    requires Reached(w) && CommitsWith(w, l, i, result)
    requires Present(r.key) && r.key == w.db.invocations[i].key
    ensures var inv := w.db.invocations[i];
            Replays(Run(Apply(w, l), rest).db, ClaimKey(inv.principal, r.key.value), inv.hash, result, r)
  {
    var inv := w.db.invocations[i];
    CommitCompletesKey(w, l, i, result);
    StepIsReached(w, l);
    var late := LaterBooks(Apply(w, l), rest);
    CompletedClaimReplays(late, ClaimKey(inv.principal, r.key.value), inv.hash, result, r);
  }

  /** The call is made again: the same principal, key and hash, on a mandate that is live. */
  ghost predicate MadeAgain(db: Db, inv: Invocation, again: Label)
    requires again.Begin?
  {
    var r := again.request;
    && Present(r.key) && r.key == inv.key && r.hash == inv.hash
    && WhyNotLive(db, r.mandate, again.copy, again.now, again.signatureOk).None?
    && db.mandates[r.mandate].principal == inv.principal
  }

  lemma ReplayIsCached(db: Db, inv: Invocation, result: string, again: Label)
    requires Delegated(db) && again.Begin? && MadeAgain(db, inv, again)
    requires Replays(db, ClaimKey(inv.principal, inv.key.value), inv.hash, result, again.request)
    ensures Authorize(db, again.request, again.now, again.signatureOk, again.copy, again.checks) == Cached(result)
  {
    AuthorizeExactly(db, again.request, again.now, again.signatureOk, again.copy, again.checks);
  }

  /** So a process that makes the call again is told the result, and goes no further. */
  lemma CallAgainIsCached(w: World, l: Label, rest: seq<Label>, i: InvocationId, result: string, again: Label)
    requires Reached(w) && CommitsWith(w, l, i, result)
    requires again.Begin? && MadeAgain(Run(Apply(w, l), rest).db, w.db.invocations[i], again)
    ensures Authorize(Run(Apply(w, l), rest).db, again.request, again.now, again.signatureOk, again.copy, again.checks)
            == Cached(result)
  {
    CommittedCallIsReplayed(w, l, rest, i, result, again.request);
    StepIsReached(w, l);
    var late := LaterBooks(Apply(w, l), rest);
    ReplayIsCached(late, w.db.invocations[i], result, again);
  }

  /** While the attempt is not settled its key answers neither: it is taken. */
  lemma OpenCallIsInProgress(w: World, i: InvocationId, r: Request)
    requires Reached(w) && i < |w.db.invocations| && Present(r.key) && r.key == w.db.invocations[i].key
    requires var status := w.db.invocations[i].status;
             status == Reserved || status == Executing || status == ExecutedFail || status == Ambiguous
    ensures var inv := w.db.invocations[i];
            var ck := ClaimKey(inv.principal, r.key.value);
            && ck in w.db.claims
            && LoadIdem(w.db, inv.principal, r)
               == (if Present(inv.hash) && r.hash != inv.hash then Denied(IdempotencyConflict, true)
                   else Denied(InProgress, false))
            && ExistingClaim(w.db.claims[ck], r.hash)
               == ReserveDenied(if Present(inv.hash) && Present(r.hash) && r.hash != inv.hash then IdempotencyConflict
                                else InProgress)
  {
    ReachedIsSane(w);
    Keys.CompletionFindsItsClaim(w.db, i);
  }

  // ----- a whole call -----

  /** A call and its surroundings: clocks, the caller's copy, the other checks, and the provider's answer. */
  datatype Call = Call(p: ProcessId, r: Request, copy: MandateCopy, c: Checks, now: Time, debitAt: Time, later: Time,
                       ok: bool, x: Ending)

  /** The attempt just opened is dispatched and ends as its provider answers. */
  function EndedAs(held: Db, i: InvocationId, ok: bool, x: Ending): Db
    requires i < |held.invocations| && i < |held.holds| && Billable(held, held.invocations[i])
  {
    if ok then CommittedAs(held, i, InvCommitted, x)
    else held.(invocations := WithInvocationStatus(held, i, ExecutedFail))
  }

  lemma MovedTwice(procs: map<ProcessId, Pc>, p: ProcessId, a: Pc, b: Pc)
    ensures procs[p := a][p := b] == procs[p := b]
  {
  }

  lemma SameEnding(db: Db, i: InvocationId, ok: bool, x: Ending)
    requires Intact(db, i)
    ensures EndedAs(db.(invocations := WithInvocationStatus(db, i, Executing)), i, ok, x) == EndedAs(db, i, ok, x)
  {
    var to := if ok then InvCommitted else ExecutedFail;
    assert WithInvocationStatus(db.(invocations := WithInvocationStatus(db, i, Executing)), i, to)
           == WithInvocationStatus(db, i, to);
  }

  lemma BegunThenReserved(w: World, k: Call) returns (begun: World, reserved: World)
    requires Reached(w) && k.p !in w.procs
    requires Answer(w.db, k.r, k.now, true, k.copy, k.c) == Allowed && CanOpen(w.db, k.r, k.debitAt)
    ensures begun == Apply(w, Begin(k.p, k.r, k.now, true, k.copy, k.c))
    ensures reserved == Apply(begun, Reserving(k.p, k.copy, k.debitAt, k.later)) && Reached(reserved)
    ensures reserved == w.(db := OpenedAs(w.db, k.r, k.debitAt), procs := w.procs[k.p := HasAttempt(|w.db.invocations|)])
  {
    begun := Apply(w, Begin(k.p, k.r, k.now, true, k.copy, k.c));
    BegunExactly(w, k.p, k.r, k.now, true, k.copy, k.c);
    StepIsReached(w, Begin(k.p, k.r, k.now, true, k.copy, k.c));
    reserved := Apply(begun, Reserving(k.p, k.copy, k.debitAt, k.later));
    ReservedExactly(begun, k.p, k.r, k.copy, k.debitAt, k.later);
    StepIsReached(begun, Reserving(k.p, k.copy, k.debitAt, k.later));
    MovedTwice(w.procs, k.p, Authorized(k.r), HasAttempt(|w.db.invocations|));
  }

  lemma MarkedThenCalled(w: World, p: ProcessId, i: InvocationId, ok: bool) returns (marked: World, called: World)
    requires Reached(w) && At(w, p, HasAttempt(i)) && i < |w.db.invocations| && w.db.invocations[i].status == Reserved
    ensures marked == Apply(w, Mark(p)) && called == Apply(marked, CallProvider(p, ok)) && Reached(called)
    ensures called == World(w.db.(invocations := WithInvocationStatus(w.db, i, Executing)), w.procs[p := Answered(i, ok)],
                            w.entered + [i], w.dispatched + [i], w.tickets, w.stripe)
  {
    marked := Apply(w, Mark(p));
    MarkedExactly(w, p, i);
    StepIsReached(w, Mark(p));
    called := Apply(marked, CallProvider(p, ok));
    Story.CallStep(marked, p, ok);
    StepIsReached(marked, CallProvider(p, ok));
    MovedTwice(w.procs, p, Entered(i), Answered(i, ok));
  }

  lemma OpenedThenEnded(w: World, p: ProcessId, i: InvocationId, ok: bool, x: Ending)
      returns (marked: World, called: World, after: World)
    requires Reached(w) && At(w, p, HasAttempt(i)) && i < |w.db.invocations| && w.db.invocations[i].status == Reserved
    ensures marked == Apply(w, Mark(p)) && called == Apply(marked, CallProvider(p, ok)) && after == Apply(called, Complete(p, x))
    ensures Intact(w.db, i)
    ensures after == World(EndedAs(w.db, i, ok, x), w.procs[p := Finished], w.entered + [i], w.dispatched + [i],
                           w.tickets, w.stripe)
  {
    AttemptIsIntact(w, i);
    marked, called := MarkedThenCalled(w, p, i, ok);
    after := Apply(called, Complete(p, x));
    CompletedExactly(called, p, i, ok, x);
    SameEnding(w.db, i, ok, x);
    MovedTwice(w.procs, p, Answered(i, ok), Finished);
  }

  lemma OpenedIsReserved(db: Db, r: Request, now: Time)
    requires r.mandate < |db.mandates|
    ensures var held := OpenedAs(db, r, now);
            |held.invocations| == |db.invocations| + 1 && held.invocations[|db.invocations|].status == Reserved
  {
  }

  /** Where that leaves the system, when the attempt it opens is the next one. */
  function AfterCall(w: World, k: Call): World
    requires k.r.mandate < |w.db.mandates| && Intact(OpenedAs(w.db, k.r, k.debitAt), |w.db.invocations|)
  {
    var i, held := |w.db.invocations|, OpenedAs(w.db, k.r, k.debitAt);
    World(EndedAs(held, i, k.ok, k.x), w.procs[k.p := Finished], w.entered + [i], w.dispatched + [i], w.tickets, w.stripe)
  }

  lemma EndsAfterCall(w: World, k: Call, reserved: World, after: World)
    requires k.r.mandate < |w.db.mandates|
    requires reserved == w.(db := OpenedAs(w.db, k.r, k.debitAt), procs := w.procs[k.p := HasAttempt(|w.db.invocations|)])
    requires var i := |w.db.invocations|;
             && Intact(reserved.db, i)
             && after == World(EndedAs(reserved.db, i, k.ok, k.x), reserved.procs[k.p := Finished], reserved.entered + [i],
                               reserved.dispatched + [i], reserved.tickets, reserved.stripe)
    ensures Intact(OpenedAs(w.db, k.r, k.debitAt), |w.db.invocations|) && after == AfterCall(w, k)
  {
    assert reserved.procs[k.p := Finished] == w.procs[k.p := Finished];
  }

  /**
   * A call that is in order, and that no other step comes between, opens its hold, reaches the provider
   * once and ends committed, billed and with its result stored; or failed, with its money still held.
   */
  lemma UndisturbedCallSucceeds(w: World, k: Call)
      returns (begun: World, reserved: World, marked: World, called: World, after: World)
    requires Reached(w) && k.p !in w.procs
    requires Answer(w.db, k.r, k.now, true, k.copy, k.c) == Allowed && CanOpen(w.db, k.r, k.debitAt)
    ensures begun == Apply(w, Begin(k.p, k.r, k.now, true, k.copy, k.c))
    ensures reserved == Apply(begun, Reserving(k.p, k.copy, k.debitAt, k.later))
    ensures marked == Apply(reserved, Mark(k.p))
    ensures called == Apply(marked, CallProvider(k.p, k.ok))
    ensures after == Apply(called, Complete(k.p, k.x))
    ensures Intact(OpenedAs(w.db, k.r, k.debitAt), |w.db.invocations|) && after == AfterCall(w, k)
  {
    begun, reserved := BegunThenReserved(w, k);
    OpenedIsReserved(w.db, k.r, k.debitAt);
    marked, called, after := OpenedThenEnded(reserved, k.p, |w.db.invocations|, k.ok, k.x);
    EndsAfterCall(w, k, reserved, after);
  }

  // ----- issuing -----

  lemma IssueStepIs(w: World, q: Mandates.Issue, copy: MandateCopy, now: Time, later: Time)
    ensures Apply(w, IssueStep(q, copy, now, later)) == w.(db := Perform(w.db, Issue(q, copy, now, later)))
  {
  }

  /** A mandate is issued exactly if every check passes, and then as asked; otherwise nothing changes at all. */
  lemma IssuedExactly(w: World, q: Mandates.Issue, copy: MandateCopy, now: Time, later: Time)
    requires Reached(w)
    ensures var after := Apply(w, IssueStep(q, copy, now, later));
            && after == w.(db := after.db)
            && (if CanIssue(w.db, q, copy, now, later) then IssuedAs(w.db, after.db, q) else after == w)
  {
    ReachedIsSane(w);
    IssueStepIs(w, q, copy, now, later);
    IssueExactly(w.db, q, copy, now, later);
  }

  // ----- agents -----

  lemma CreateStepExactly(w: World, principal: PrincipalId, parent: Option<AgentId>)
    ensures Apply(w, CreateAgentStep(principal, parent))
            == if CanCreate(w.db, principal, parent)
               then w.(db := w.db.(agents := w.db.agents + [Agent(principal, parent, false)])) else w
  {
    CreateExactly(w.db, principal, parent);
  }

  lemma CreatedStaysUnderItsParent(w: World, principal: PrincipalId, p: AgentId, rest: seq<Label>)
    requires Reached(w) && CanCreate(w.db, principal, Some(p))
    ensures HangsUnder(Run(Apply(w, CreateAgentStep(principal, Some(p))), rest).db.agents, |w.db.agents|, p, principal)
  {
    var next := Apply(w, CreateAgentStep(principal, Some(p)));
    CreateStepExactly(w, principal, Some(p));
    StepIsReached(w, CreateAgentStep(principal, Some(p)));
    var late := LaterBooks(next, rest);
    KeptAgentHangsThere(next.db, late, |w.db.agents|, p);
  }

  /** An agent is created exactly under a live parent of its own existing principal, and hangs there for good. */
  lemma SubAgentStaysUnderItsParent(w: World, principal: PrincipalId, p: AgentId, rest: seq<Label>)
    requires Reached(w)
    ensures var next := Apply(w, CreateAgentStep(principal, Some(p)));
            if principal < |w.db.principals| && p < |w.db.agents| && !w.db.agents[p].revoked
               && w.db.agents[p].principal == principal
            then next == w.(db := w.db.(agents := w.db.agents + [Agent(principal, Some(p), false)]))
                 && HangsUnder(Run(next, rest).db.agents, |w.db.agents|, p, principal)
            else next == w
  {
    CreateStepExactly(w, principal, Some(p));
    if CanCreate(w.db, principal, Some(p)) {
      CreatedStaysUnderItsParent(w, principal, p, rest);
    }
  }

  /** d is p's, and revoked as soon as p or any agent above it is. */
  predicate HangsUnder(agents: seq<Agent>, d: AgentId, p: AgentId, principal: PrincipalId)
  {
    && d < |agents| && p < |agents| && agents[d].principal == principal && agents[d].parent == Some(p)
    && Identity.SelfOrDescendant(agents, d, p)
    && (forall a: AgentId :: a < |agents| && Identity.SelfOrDescendant(agents, p, a) && agents[a].revoked
          ==> agents[d].revoked)
  }

  lemma KeptAgentHangsThere(a: Db, b: Db, d: AgentId, p: AgentId)
    requires Delegated(b) && History.Kept(a, b)
    requires d < |a.agents| && a.agents[d].parent == Some(p)
    ensures HangsUnder(b.agents, d, p, a.agents[d].principal)
  {
    assert Identity.SelfOrDescendant(b.agents, p, p);
    forall g: AgentId | g < |b.agents| && Identity.SelfOrDescendant(b.agents, p, g) && b.agents[g].revoked
      ensures b.agents[d].revoked
    {
      assert Identity.SelfOrDescendant(b.agents, d, g);
      Identity.RevokedBelow(b.agents, d, g);
    }
  }

  /** So from the moment p or an agent above it is revoked, its sub-agent spends no more than was authorised by then. */
  lemma RevokedParentStopsItsSubAgent(w: World, principal: PrincipalId, p: AgentId, until: seq<Label>, a: AgentId,
                                      rest: seq<Label>)
    requires Reached(w) && CanCreate(w.db, principal, Some(p))
    requires var agents := Run(Apply(w, CreateAgentStep(principal, Some(p))), until).db.agents;
             a < |agents| && Identity.SelfOrDescendant(agents, p, a) && agents[a].revoked
    ensures var mid := Run(Apply(w, CreateAgentStep(principal, Some(p))), until);
            var d := |w.db.agents|;
            Revocation.OpensAtMost(mid.db, Run(mid, rest).db, d, |Revocation.Pending(mid, d)|)
  {
    var next := Apply(w, CreateAgentStep(principal, Some(p)));
    SubAgentStaysUnderItsParent(w, principal, p, until);
    StepIsReached(w, CreateAgentStep(principal, Some(p)));
    var _ := LaterBooks(next, until);
    Revocation.RevokedAgentIsStopped(Run(next, until), rest, |w.db.agents|);
  }

  // ----- billing -----

  function LastAnswer(labels: seq<Label>, oid: OutboxId): Option<Outbox.PostResult>
  {
    Delivery.LastAnswer(Outbox.EMPTY, Runs.DeskTrace(START, labels), oid, None)
  }

  /** In the whole system too a charge is sent exactly if Stripe's answer to the job that last completed it was ok. */
  lemma SentExactlyIfAnsweredOk(labels: seq<Label>, oid: OutboxId)
    requires NoHelpers(labels) && oid < |Run(START, labels).db.outbox|
    ensures var status, last := Run(START, labels).db.outbox[oid].status, LastAnswer(labels, oid);
            && (status == Sent <==> last == Some(Outbox.PostOk))
            && (status == Noop <==> last == Some(Outbox.PostNoop))
            && (status == Failed || status == Dead ==> last == Some(Outbox.PostFailed))
  {
    Story.StartHasStory();
    Runs.SystemRefinesOutbox(START, labels);
    assert DeskOf(Run(START, labels)).rows == Run(START, labels).db.outbox;
    Delivery.SentExactlyIfAnsweredOk(Runs.DeskTrace(START, labels), oid);
  }

  /** So once every charge was last answered ok, Stripe has metered exactly what was committed. */
  lemma AllAnsweredOkIsAllMetered(labels: seq<Label>)
    requires NoHelpers(labels)
    requires forall oid: OutboxId :: oid < |Run(START, labels).db.outbox| ==> LastAnswer(labels, oid) == Some(Outbox.PostOk)
    ensures var w := Run(START, labels);
            Outbox.MeterTotal(w.stripe, |w.db.receipts|) == SumBy(w.db.holds, Universe.SettledAmount())
  {
    var w := Run(START, labels);
    forall oid: OutboxId | oid < |w.db.outbox|
      ensures w.db.outbox[oid].status == Sent
    {
      SentExactlyIfAnsweredOk(labels, oid);
    }
    Runs.BillingAgreesEndToEnd(labels);
    assert States.BilledOnce(w);
  }

  lemma BillingStepIs(w: World, l: Outbox.Label)
    requires Reached(w) && !l.Charge?
    ensures Reached(Apply(w, BillingStep(l))) && DeskOf(Apply(w, BillingStep(l))) == Outbox.Apply(DeskOf(w), l)
  {
    Story.BillingIsDeskStep(w, l);
    StepIsReached(w, BillingStep(l));
  }

  /** A charge that can be taken, answered ok and completed with no step between is sent, and metered at its amount. */
  lemma UndisturbedChargeIsSent(w: World, oid: OutboxId, now: Time, lease: int) returns (after: World)
    requires Reached(w) && Delivery.CanTake(DeskOf(w), oid, now, lease)
    ensures var t := |w.tickets|;
            after == Apply(Apply(Apply(w, BillingStep(Outbox.ClaimRow(oid, now, lease))),
                                 BillingStep(Outbox.Post(t, Outbox.PostOk, true))),
                           BillingStep(Outbox.Finish(t, now)))
    ensures |after.db.outbox| == |w.db.outbox| && after.db.outbox[oid].status == Sent
    ensures after.db.outbox[oid].attempts == w.db.outbox[oid].attempts + 1
    ensures var row := w.db.outbox[oid];
            row.receipt in after.stripe && after.stripe[row.receipt] == (if row.amount < 0 then 0 else row.amount)
  {
    ReachedIsSane(w);
    Delivery.OkIsDelivered(DeskOf(w), oid, now, lease);
    BillingStepIs(w, Outbox.ClaimRow(oid, now, lease));
    var taken := Apply(w, BillingStep(Outbox.ClaimRow(oid, now, lease)));
    BillingStepIs(taken, Outbox.Post(|w.tickets|, Outbox.PostOk, true));
    var posted := Apply(taken, BillingStep(Outbox.Post(|w.tickets|, Outbox.PostOk, true)));
    BillingStepIs(posted, Outbox.Finish(|w.tickets|, now));
    after := Apply(posted, BillingStep(Outbox.Finish(|w.tickets|, now)));
    assert DeskOf(after).rows == after.db.outbox;
  }
}
