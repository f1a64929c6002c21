// Who gets in, written out: the answer to a call before it reserves, when exactly a hold is opened, when
// exactly a mandate is issued, and what creating and revoking leave.
module Admission {
  import opened Model
  import opened LedgerSpec
  import opened Lifecycle
  import opened Invariants
  import Identity
  import Mandates
  import Policy
  import SignedState

  /** No agent from a up to its root is revoked. */
  ghost predicate WholeChainLive(agents: seq<Agent>, a: AgentId)
  {
    a < |agents| && forall b: AgentId :: b < |agents| && Identity.SelfOrDescendant(agents, a, b) ==> !agents[b].revoked
  }

  predicate PastExpiry(m: Mandate, now: Time)
  {
    m.expires.Some? && now > Policy.Instant(m.expires.value)
  }

  lemma OneLevelIsWholeChain(agents: seq<Agent>, a: AgentId)
    requires Identity.Wellformed(agents)
    ensures Identity.RequireLiveAgent(agents, a) == if WholeChainLive(agents, a) then None else Some(AgentRevoked)
  {
    if a < |agents| {
      Identity.LiveAgentSeesWholeChain(agents, a);
      assert Identity.SelfOrDescendant(agents, a, a);
    }
  }

  // ----- loading a mandate -----

  /** Why a mandate cannot be used now, if it cannot; `copy` is the caller's copy of its mutable columns. */
  ghost function WhyNotLive(db: Db, m: MandateId, copy: MandateCopy, now: Time, signatureOk: bool): Option<Reason>
  {
    if m >= |db.mandates| then Some(MandateRevoked)
    else if !signatureOk then Some(MandateForged)
    else if copy.revoked then Some(MandateRevoked)
    else if PastExpiry(db.mandates[m], now) then Some(MandateExpired)
    else if !WholeChainLive(db.agents, db.mandates[m].agent) then Some(AgentRevoked)
    else None
  }

  /** The stored row's key and signed terms never stand in the way; its signature does. */
  lemma LoadLiveExactly(db: Db, m: MandateId, copy: MandateCopy, now: Time, signatureOk: bool)
    requires Delegated(db)
    ensures Mandates.LoadLive(db, m, copy, now, signatureOk) == WhyNotLive(db, m, copy, now, signatureOk)
  {
    if m < |db.mandates| {
      assert Mandates.WellDelegatedRow(db.agents, db.mandates, m);
      OneLevelIsWholeChain(db.agents, db.mandates[m].agent);
    }
  }

  /** Of any row, stored or not: its key bound, its signature good, its columns as signed. */
  lemma VerifiesExactly(principals: seq<Principal>, m: Mandate, signatureOk: bool)
    ensures var own := if m.principal < |principals| then principals[m.principal].key else None;
            Mandates.VerifyStored(principals, m, signatureOk).None?
            <==> && (m.key == ISSUER || (Present(own) && own == Some(m.key)))
                 && signatureOk
                 && SignedState.Check(m)
  {
  }

  // ----- the answer to a call -----

  predicate Listed(list: Option<seq<string>>, name: string)
  {
    list.Some? ==> exists k :: 0 <= k < |list.value| && list.value[k] == name
  }

  predicate KeyFree(db: Db, principal: PrincipalId, key: Option<string>)
  {
    Present(key) ==> ClaimKey(principal, key.value) !in db.claims
  }

  predicate NonceFree(db: Db, principal: PrincipalId, nonce: Option<string>)
  {
    Present(nonce) ==> Nonce(principal, nonce.value) !in db.nonces
  }

  /** Why the mandate's terms, and what the copy says is left of it, refuse the call, if they do. */
  function WhyNotWithin(m: Mandate, r: Request, copy: MandateCopy): Option<Reason>
  {
    if !Listed(m.tools, r.tool) then Some(ToolNotAllowed)
    else if !Listed(m.servers, r.server) then Some(ServerNotAllowed)
    else if r.amount > m.maxCall then Some(CallOverMax)
    else if m.maxCalls.Some? && copy.callsUsed >= m.maxCalls.value then Some(MaxCallsExceeded)
    else if r.amount > copy.remaining then Some(BudgetExceeded)
    else None
  }

  /** The whole answer, check by check in the order the code makes them. */
  ghost function Answer(db: Db, r: Request, now: Time, signatureOk: bool, copy: MandateCopy, c: Checks): AuthOutcome
  {
    var dead := WhyNotLive(db, r.mandate, copy, now, signatureOk);
    if dead.Some? then Denied(dead.value, r.mandate < |db.mandates|)
    else
      var m := db.mandates[r.mandate];
      var beyond := WhyNotWithin(m, r, copy);
      if !KeyFree(db, m.principal, r.key) then LoadIdem(db, m.principal, r)
      else if !NonceFree(db, m.principal, r.nonce) then Denied(NonceReplay, true)
      else if !c.priced then Denied(UnknownTool, true)
      else if beyond.Some? then Denied(beyond.value, true)
      else if c.arguments.Some? then Denied(c.arguments.value, true)
      else if !c.billable then Denied(BillingRequired, true)
      else Allowed
  }

  lemma AuthorizeExactly(db: Db, r: Request, now: Time, signatureOk: bool, copy: MandateCopy, c: Checks)
    requires Delegated(db)
    ensures Authorize(db, r, now, signatureOk, copy, c) == Answer(db, r, now, signatureOk, copy, c)
  {
    LoadLiveExactly(db, r.mandate, copy, now, signatureOk);
    if r.mandate < |db.mandates| {
      assert Mandates.WellDelegatedRow(db.agents, db.mandates, r.mandate);
      TakenKeyIsAnswered(db, db.mandates[r.mandate].principal, r);
    }
  }

  /** A taken key is never let through. */
  lemma TakenKeyIsAnswered(db: Db, principal: PrincipalId, r: Request)
    ensures LoadIdem(db, principal, r).Allowed? <==> KeyFree(db, principal, r.key)
  {
  }

  // ----- opening a hold -----

  /** What the conditional debit asks of the current row: a price equal to the balance is fine. */
  predicate Affordable(m: Mandate, amount: int, now: Time)
  {
    && 0 <= amount <= m.remaining && !m.revoked
    && (m.maxCalls.Some? ==> m.callsUsed < m.maxCalls.value)
    && (m.expires.Some? ==> now < Policy.Instant(m.expires.value))
  }

  predicate CanOpen(db: Db, r: Request, now: Time)
  {
    && r.mandate < |db.mandates|
    && var m := db.mandates[r.mandate];
    && NonceFree(db, m.principal, r.nonce) && KeyFree(db, m.principal, r.key) && Affordable(m, r.amount, now)
  }

  /** The nonce used up and the task made, whatever becomes of the reservation. */
  function Noted(db: Db, r: Request): Db
    requires r.mandate < |db.mandates|
  {
    var m := db.mandates[r.mandate];
    db.(nonces := if Present(r.nonce) then db.nonces + {Nonce(m.principal, r.nonce.value)} else db.nonces,
        tasks := if r.newTask then db.tasks + [Task(m.principal, m.agent)] else db.tasks)
  }

  /** The price off the balance, one call more, a held hold, a reserved attempt, the key claimed, one event. */
  function OpenedAs(db: Db, r: Request, now: Time): Db
    requires r.mandate < |db.mandates|
  {
    var m, h := db.mandates[r.mandate], |db.holds|;
    Noted(db, r).(
      mandates := db.mandates[r.mandate := m.(remaining := m.remaining - r.amount, callsUsed := m.callsUsed + 1)],
      holds := db.holds + [Hold(m.principal, r.mandate, r.amount, Held, r.key, r.nonce, now)],
      invocations := db.invocations + [Invocation(m.principal, r.mandate, Some(h), r.tool, r.server, r.hash, r.key,
                                                  r.amount, Reserved)],
      claims := if !Present(r.key) then db.claims
                else db.claims[ClaimKey(m.principal, r.key.value) := Claim(r.hash, ClaimInProgress, None)],
      events := db.events + [Event(r.mandate, ReserveEvent, r.amount, Some(m.remaining - r.amount), Some(h))])
  }

  /** A refusal: logged if it was for money, calls or time, and otherwise not. */
  function RefusedAs(db: Db, r: Request): Db
    requires r.mandate < |db.mandates|
  {
    var m := db.mandates[r.mandate];
    if KeyFree(db, m.principal, r.key) && r.amount >= 0
    then Noted(db, r).(events := db.events + [Event(r.mandate, DenyEvent, r.amount, Some(m.remaining), None)])
    else Noted(db, r)
  }

  /** reserve_and_commit, inside its transaction. */
  lemma ReserveExactly(db: Db, r: Request, copy: MandateCopy, now: Time, later: Time)
    ensures Perform(db, Reserve(r, copy, now, later))
            == if CanOpen(db, r, now) then OpenedAs(db, r, now)
               else if r.mandate < |db.mandates| && NonceFree(db, db.mandates[r.mandate].principal, r.nonce)
               then RefusedAs(db, r)
               else db
    ensures AfterReserve(db, r, copy, now, later)
            == if CanOpen(db, r, now) then HasAttempt(|db.invocations|) else Finished
  {
  }

  /** What the caller of a reservation that was tried is told. */
  lemma ReserveAnswersExactly(db: Db, r: Request, copy: MandateCopy, now: Time, later: Time)
    requires r.mandate < |db.mandates| && NonceFree(db, db.mandates[r.mandate].principal, r.nonce)
    ensures var m := db.mandates[r.mandate];
            ReserveCall(db, r, copy, now, later).1
            == if !KeyFree(db, m.principal, r.key)
               then ExistingClaim(db.claims[ClaimKey(m.principal, r.key.value)], r.hash)
               else if r.amount < 0 then ReserveDenied(InvalidAmount)
               else if !Affordable(m, r.amount, now) then ReserveDenied(DenyReason(Seen(m, copy), r.amount, later))
               else Opened(|db.holds|, |db.invocations|)
  {
  }

  /** Why a debit that failed is denied, read off the caller's copy and a later look at the clock. */
  lemma DenialReason(m: Mandate, copy: MandateCopy, amount: int, later: Time)
    ensures var reason := DenyReason(Seen(m, copy), amount, later);
            && reason in {BudgetExceeded, MandateExpired, MaxCallsExceeded}
            && (reason == MandateExpired <==> !copy.revoked && PastExpiry(m, later))
            && (reason == MaxCallsExceeded
                <==> !copy.revoked && !PastExpiry(m, later) && copy.remaining >= amount
                     && m.maxCalls.Some? && copy.callsUsed >= m.maxCalls.value)
  {
  }

  // ----- issuing -----

  function Given(asked: Option<int>, limit: int): int
  {
    if asked.Some? then asked.value else limit
  }

  /** The key a caller's own signature is taken under, if a key was registered. */
  function OwnKey(db: Db, p: PrincipalId): string
  {
    if p < |db.principals| && Present(db.principals[p].key) then db.principals[p].key.value else ISSUER
  }

  /** The row holds what was asked for, its defaults filled in, under the right key, and signs it. */
  predicate IsNewRow(db: Db, q: Mandates.Issue, m: Mandate)
  {
    && m.principal == q.principal && m.agent == q.agent && m.parent == q.parent
    && m.limit == q.limit && m.remaining == q.limit && m.callsUsed == 0 && !m.revoked
    && m.maxCall == Given(q.maxCall, q.limit) && m.maxCalls == q.maxCalls && m.maxSub == Some(Given(q.maxSub, q.limit))
    && m.tools == q.tools && m.servers == q.servers && m.nonce == q.nonce
    && (m.expires.Some? <==> q.expires.Some?)
    && (q.expires.Some? ==> Policy.Instant(m.expires.value) == Policy.Instant(q.expires.value))
    && m.key == (if q.caller.None? then ISSUER else OwnKey(db, q.principal))
    && SignedState.Check(m)
  }

  /** The child allows no name the parent does not, or it is the one pair that passes all the same. */
  ghost predicate ListPasses(child: Option<seq<string>>, parent: Option<seq<string>>)
  {
    (forall name :: Listed(child, name) ==> Listed(parent, name)) || (child.None? && parent == Some([]))
  }

  lemma SubsetPasses(child: Option<seq<string>>, parent: Option<seq<string>>)
    ensures Policy.Subset(child, parent) <==> ListPasses(child, parent)
  {
    Policy.SubsetNarrowsExactlyUnlessItEscapes(child, parent);
    Policy.UnrestrictedChildUnderEmptyParent();
    forall list: Option<seq<string>>, name
      ensures Listed(list, name) <==> Policy.Allows(list, name)
    {
    }
  }

  function Least(a: int, b: int): int
  {
    if a < b then a else b
  }

  /** Why the child's terms are not within its parent's; `copy` is the caller's copy of the parent. */
  ghost function WhyNotAttenuated(parent: Mandate, copy: MandateCopy, q: Mandates.Issue): Option<Reason>
  {
    if q.limit <= 0 then Some(InvalidAmount)
    else if q.limit > copy.remaining || q.limit > parent.limit then Some(ChildSpendEscalation)
    else if Given(q.maxCall, q.limit) > parent.maxCall then Some(ChildMaxCallEscalation)
    else if !ListPasses(q.tools, parent.tools) then Some(ChildToolsEscalation)
    else if !ListPasses(q.servers, parent.servers) then Some(ChildServersEscalation)
    else if parent.expires.Some?
            && (q.expires.None? || Policy.Instant(q.expires.value) > Policy.Instant(parent.expires.value))
    then Some(ChildExpiryEscalation)
    else if Given(q.maxSub, q.limit) > (if parent.maxSub.Some? then Least(parent.maxSub.value, copy.remaining) else copy.remaining)
    then Some(ChildBudgetEscalation)
    else None
  }

  lemma AttenuatesExactly(parent: Mandate, copy: MandateCopy, q: Mandates.Issue)
    requires Given(q.maxSub, q.limit) >= 0
    ensures Policy.CheckChildAttenuation(Seen(parent, copy), Mandates.TermsOf(q)) == WhyNotAttenuated(parent, copy, q)
  {
    SubsetPasses(q.tools, parent.tools);
    SubsetPasses(q.servers, parent.servers);
  }

  ghost function WhyNotUnder(db: Db, q: Mandates.Issue, copy: MandateCopy, now: Time): Option<Reason>
    requires q.parent.Some?
  {
    var p := q.parent.value;
    if p >= |db.mandates| then Some(MandateRevoked)
    else if !q.parentSignatureOk then Some(MandateForged)
    else if copy.revoked then Some(MandateRevoked)
    else if PastExpiry(db.mandates[p], now) then Some(MandateExpired)
    else if !Identity.SelfOrDescendant(db.agents, q.agent, db.mandates[p].agent) then Some(ChildAgentNotDescendant)
    else WhyNotAttenuated(db.mandates[p], copy, q)
  }

  predicate CallerProved(db: Db, q: Mandates.Issue)
  {
    q.caller.Some? ==>
      && q.caller.value.verifies
      && (q.caller.value.pubkey.Some? ==> q.caller.value.pubkey.value in {ISSUER, OwnKey(db, q.principal)})
  }

  /** Why a mandate is not issued, check by check in the order the code makes them. */
  ghost function WhyNotIssued(db: Db, q: Mandates.Issue, copy: MandateCopy, now: Time): Option<Reason>
  {
    if q.limit < 0 || Given(q.maxCall, 0) < 0 || Given(q.maxSub, 0) < 0 then Some(InvalidAmount)
    else if !WholeChainLive(db.agents, q.agent) then Some(AgentRevoked)
    else if db.agents[q.agent].principal != q.principal then Some(AgentPrincipalMismatch)
    else if q.parent.Some? && WhyNotUnder(db, q, copy, now).Some? then WhyNotUnder(db, q, copy, now)
    else if Nonce(q.principal, q.nonce) in db.nonces then Some(NonceReplay)
    else if !CallerProved(db, q) then Some(MandateForged)
    else None
  }

  lemma ParentPassesExactly(db: Db, q: Mandates.Issue, copy: MandateCopy, now: Time)
    requires Delegated(db) && q.parent.Some? && Given(q.maxSub, q.limit) >= 0
    ensures Mandates.CheckParent(db, q, copy, now) == WhyNotUnder(db, q, copy, now)
  {
    var p := q.parent.value;
    if p < |db.mandates| {
      assert Mandates.WellDelegatedRow(db.agents, db.mandates, p);
      AttenuatesExactly(db.mandates[p], copy, q);
    }
  }

  lemma IssueChecksExactly(db: Db, q: Mandates.Issue, copy: MandateCopy, now: Time)
    requires Delegated(db)
    ensures Mandates.CheckIssue(db, q, copy, now) == WhyNotIssued(db, q, copy, now)
  {
    OneLevelIsWholeChain(db.agents, q.agent);
    if q.parent.Some? && q.limit >= 0 && Given(q.maxSub, 0) >= 0 {
      ParentPassesExactly(db, q, copy, now);
    }
  }

  /** The escrow's own look at the current parent. */
  predicate CanEscrow(db: Db, q: Mandates.Issue, later: Time)
  {
    q.parent.Some? ==>
      && q.parent.value < |db.mandates|
      && var parent := db.mandates[q.parent.value];
      && q.limit <= parent.remaining && !parent.revoked
      && (parent.expires.Some? ==> later < Policy.Instant(parent.expires.value))
  }

  ghost predicate CanIssue(db: Db, q: Mandates.Issue, copy: MandateCopy, now: Time, later: Time)
  {
    && WhyNotIssued(db, q, copy, now).None?
    && (forall m :: 0 <= m < |db.mandates| ==> db.mandates[m].nonce != q.nonce)
    && CanEscrow(db, q, later)
  }

  /** One row more, its nonce used, and its whole limit out of the parent's balance with one event. */
  predicate IssuedAs(a: Db, b: Db, q: Mandates.Issue)
  {
    && |b.mandates| == |a.mandates| + 1 && IsNewRow(a, q, b.mandates[|a.mandates|])
    && (q.parent.None? ==>
          b == a.(mandates := a.mandates + [b.mandates[|a.mandates|]], nonces := a.nonces + {Nonce(q.principal, q.nonce)}))
    && (q.parent.Some? ==>
          && q.parent.value < |a.mandates|
          && var p, left := q.parent.value, a.mandates[q.parent.value].remaining - q.limit;
          b == a.(mandates := a.mandates[p := a.mandates[p].(remaining := left)] + [b.mandates[|a.mandates|]],
                  nonces := a.nonces + {Nonce(q.principal, q.nonce)},
                  events := a.events + [Event(p, EscrowEvent, q.limit, Some(left), None)]))
  }

  lemma NewRowIsAsAsked(db: Db, q: Mandates.Issue)
    ensures IsNewRow(db, q, Mandates.NewMandate(db.principals, q))
  {
    Mandates.NewMandateVerifies(db.principals, q);
  }

  lemma RootIsInserted(db: Db, q: Mandates.Issue)
    requires q.parent.None?
    ensures IssuedAs(db, Mandates.Inserted(db, q), q)
  {
    NewRowIsAsAsked(db, q);
  }

  lemma ChildIsEscrowed(db: Db, q: Mandates.Issue)
    requires q.parent.Some? && q.parent.value < |db.mandates|
    ensures IssuedAs(db, Mandates.Escrowed(Mandates.Inserted(db, q), q.parent.value, q.limit), q)
  {
    NewRowIsAsAsked(db, q);
  }

  lemma IssueWins(db: Db, q: Mandates.Issue, copy: MandateCopy, now: Time, later: Time)
    requires Mandates.CheckIssue(db, q, copy, now).None? && CanEscrow(db, q, later)
    requires forall m :: 0 <= m < |db.mandates| ==> db.mandates[m].nonce != q.nonce
    ensures IssuedAs(db, Mandates.IssueMandate(db, q, copy, now, later).0, q)
  {
    if q.parent.None? {
      RootIsInserted(db, q);
    } else {
      ChildIsEscrowed(db, q);
    }
  }

  lemma IssueLoses(db: Db, q: Mandates.Issue, copy: MandateCopy, now: Time, later: Time)
    requires Mandates.CheckIssue(db, q, copy, now).Some? || !CanEscrow(db, q, later)
             || !forall m :: 0 <= m < |db.mandates| ==> db.mandates[m].nonce != q.nonce
    ensures Mandates.IssueMandate(db, q, copy, now, later).0 == db
  {
  }

  /** issue_mandate: all of it or nothing. */
  lemma IssueExactly(db: Db, q: Mandates.Issue, copy: MandateCopy, now: Time, later: Time)
    requires Delegated(db)
    ensures var after := Perform(db, Issue(q, copy, now, later));
            if CanIssue(db, q, copy, now, later) then IssuedAs(db, after, q) else after == db
  {
    IssueChecksExactly(db, q, copy, now);
    if CanIssue(db, q, copy, now, later) {
      IssueWins(db, q, copy, now, later);
    } else {
      IssueLoses(db, q, copy, now, later);
    }
  }

  /** What the caller is told; an escrow that loses looks like a limit that was too high. */
  lemma IssueAnswersExactly(db: Db, q: Mandates.Issue, copy: MandateCopy, now: Time, later: Time)
    requires Delegated(db)
    ensures var why := WhyNotIssued(db, q, copy, now);
            Mandates.IssueMandate(db, q, copy, now, later).1
            == if why.Some? then Mandates.IssueDenied(why.value)
               else if exists m :: 0 <= m < |db.mandates| && db.mandates[m].nonce == q.nonce then Mandates.IssueAborted
               else if !CanEscrow(db, q, later) then Mandates.IssueDenied(ChildSpendEscalation)
               else Mandates.Issued(|db.mandates|)
  {
    IssueChecksExactly(db, q, copy, now);
  }

  // ----- agents, principals, revocation -----

  predicate CanCreate(db: Db, principal: PrincipalId, parent: Option<AgentId>)
  {
    && principal < |db.principals|
    && (parent.Some? ==>
          && parent.value < |db.agents| && !db.agents[parent.value].revoked
          && db.agents[parent.value].principal == principal)
  }

  lemma CreateExactly(db: Db, principal: PrincipalId, parent: Option<AgentId>)
    ensures Perform(db, NewAgent(principal, parent))
            == if CanCreate(db, principal, parent)
               then db.(agents := db.agents + [Agent(principal, parent, false)]) else db
  {
  }

  lemma CreateAnswersExactly(db: Db, principal: PrincipalId, parent: Option<AgentId>)
    ensures Identity.CreateAgent(db, principal, parent).1
            == if parent.Some? && (parent.value >= |db.agents| || db.agents[parent.value].revoked)
               then Identity.CreateDenied(AgentRevoked)
               else if parent.Some? && db.agents[parent.value].principal != principal
               then Identity.CreateDenied(PrincipalMissing)
               else if principal >= |db.principals| then Identity.CreateAborted
               else Identity.Created(|db.agents|)
  {
  }

  lemma PrincipalExactly(db: Db, account: Option<AccountId>, key: Option<string>)
    ensures Perform(db, NewPrincipal(account, key))
            == if account.None?
               then db.(accounts := db.accounts + [Account(0)], principals := db.principals + [Principal(|db.accounts|, key)])
               else if account.value < |db.accounts|
               then db.(principals := db.principals + [Principal(account.value, key)])
               else db
  {
  }

  /** Revoking an agent revokes it and all below it, and does nothing else to any agent. */
  lemma RevokeExactly(db: Db, a: AgentId)
    ensures var after := Perform(db, RevokeAgent(a));
            && after == db.(agents := after.agents) && |after.agents| == |db.agents|
            && forall d: AgentId :: d < |db.agents| ==>
                 && after.agents[d].principal == db.agents[d].principal && after.agents[d].parent == db.agents[d].parent
                 && (after.agents[d].revoked <==> db.agents[d].revoked || Identity.SelfOrDescendant(db.agents, d, a))
  {
  }

  lemma RevokeMandateExactly(db: Db, m: MandateId)
    ensures Perform(db, RevokeMandate(m))
            == if m < |db.mandates| then db.(mandates := db.mandates[m := db.mandates[m].(revoked := true)]) else db
  {
  }
}
