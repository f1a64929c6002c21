// crossing/mandate.py: issuing, loading and revoking mandates; escrow from parent to child.
module Mandates {
  import opened Model
  import opened Forest
  import opened Policy
  import SignedState
  import Identity
  import Session

  function MandateLinks(mandates: seq<Mandate>): Links
  {
    seq(|mandates|, i requires 0 <= i < |mandates| => mandates[i].parent)
  }

  /** A caller's own signature: the key it names, if any, and whether it verifies under the key it must. */
  datatype CallerSignature = CallerSignature(pubkey: Option<string>, verifies: bool)

  /** A request to issue a mandate; without a caller's signature the issuer signs. */
  datatype Issue = Issue(
    principal: PrincipalId,
    agent: AgentId,
    parent: Option<MandateId>,
    limit: int,
    maxCall: Option<int>,
    maxCalls: Option<int>,
    tools: Option<seq<string>>,
    servers: Option<seq<string>>,
    expires: Option<DateTime>,
    maxSub: Option<int>,
    nonce: string,
    parentSignatureOk: bool,
    caller: Option<CallerSignature>)

  function TermsOf(q: Issue): Terms
  {
    Terms(q.limit, if q.maxCall.Some? then q.maxCall.value else q.limit, q.maxCalls, q.tools, q.servers,
          q.expires, if q.maxSub.Some? then q.maxSub.value else q.limit)
  }

  /** The keys a principal's mandates may be signed with: the issuer's, and the one it registered. */
  function BoundKeys(principals: seq<Principal>, p: PrincipalId): set<string>
  {
    if p < |principals| && Present(principals[p].key) then {ISSUER, principals[p].key.value} else {ISSUER}
  }

  /** The key a caller's signature must verify under: the registered one, or else the issuer's. */
  function CallerKey(principals: seq<Principal>, p: PrincipalId): (key: string)
    ensures key in BoundKeys(principals, p)
  {
    if p < |principals| && Present(principals[p].key) then principals[p].key.value else ISSUER
  }

  /** A key named in the request is never trusted unless it is bound to the principal. */
  predicate CallerRefused(principals: seq<Principal>, q: Issue)
  {
    && q.caller.Some?
    && ((q.caller.value.pubkey.Some? && q.caller.value.pubkey.value !in BoundKeys(principals, q.principal))
        || !q.caller.value.verifies)
  }

  /** The row to insert; its payload is signed over its own columns. */
  function NewMandate(principals: seq<Principal>, q: Issue): Mandate
  {
    var t := TermsOf(q);
    var expires := if t.expires.None? then None else Some(SignedState.AsUtc(t.expires.value));
    var signed := Payload(q.principal, q.agent, q.parent, t.limit, t.maxCall, t.maxCalls,
                          SignedState.SortedList(t.tools), SignedState.SortedList(t.servers),
                          SignedState.ExpiryText(t.expires), Some(t.maxSub), q.nonce);
    Mandate(q.principal, q.agent, q.parent, t.limit, t.limit, t.maxCall, t.maxCalls, 0, t.tools, t.servers,
            expires, Some(t.maxSub), q.nonce, if q.caller.Some? then CallerKey(principals, q.principal) else ISSUER,
            signed, false)
  }

  /** The row's key must be bound to its principal, its signature verify, and its columns be as signed. */
  function VerifyStored(principals: seq<Principal>, m: Mandate, signatureOk: bool): Verdict
  {
    if m.key !in BoundKeys(principals, m.principal) || !signatureOk then Some(MandateForged)
    else if !SignedState.Check(m) then Some(SignedStateDiverged)
    else None
  }

  function CheckParent(db: Db, q: Issue, copy: MandateCopy, now: Time): Verdict
    requires q.parent.Some?
  {
    if q.parent.value >= |db.mandates| then Some(MandateRevoked)
    else
      var parent := Seen(db.mandates[q.parent.value], copy);
      var forged := VerifyStored(db.principals, parent, q.parentSignatureOk);
      var stale := CheckFresh(parent, now);
      if forged.Some? then forged
      else if stale.Some? then stale
      else if !Identity.SelfOrDescendant(db.agents, q.agent, parent.agent) then Some(ChildAgentNotDescendant)
      else CheckChildAttenuation(parent, TermsOf(q))
  }

  /** Every check made before anything is written. */
  function CheckIssue(db: Db, q: Issue, copy: MandateCopy, now: Time): Verdict
  {
    var live := Identity.RequireLiveAgent(db.agents, q.agent);
    if q.limit < 0 || CheckNonNegative(q.maxCall).Some? || CheckNonNegative(q.maxSub).Some? then Some(InvalidAmount)
    else if live.Some? then live
    else if db.agents[q.agent].principal != q.principal then Some(AgentPrincipalMismatch)
    else
      var refused := if q.parent.Some? then CheckParent(db, q, copy, now) else None;
      if refused.Some? then refused
      else if Nonce(q.principal, q.nonce) in db.nonces then Some(NonceReplay)
      else if CallerRefused(db.principals, q) then Some(MandateForged)
      else None
  }

  /** The unique column on the mandate's nonce. */
  predicate NonceTaken(mandates: seq<Mandate>, nonce: string)
  {
    exists m :: 0 <= m < |mandates| && mandates[m].nonce == nonce
  }

  /** The WHERE clause of the escrow. */
  predicate Escrowable(parent: Mandate, amount: int, later: Time)
  {
    && parent.remaining >= amount
    && !parent.revoked
    && (parent.expires.None? || Instant(parent.expires.value) > later)
  }

  function Inserted(db: Db, q: Issue): Db
  {
    db.(mandates := db.mandates + [NewMandate(db.principals, q)], nonces := db.nonces + {Nonce(q.principal, q.nonce)})
  }

  /** Move the child's whole limit out of the parent's balance, with its event. */
  function Escrowed(db: Db, p: MandateId, amount: int): Db
    requires p < |db.mandates|
  {
    var parent := db.mandates[p].(remaining := db.mandates[p].remaining - amount);
    db.(mandates := db.mandates[p := parent],
        events := db.events + [Event(p, EscrowEvent, amount, Some(parent.remaining), None)])
  }

  datatype IssueOutcome = Issued(mandate: MandateId) | IssueDenied(reason: Reason) | IssueAborted

  /** All or nothing: a child whose escrow loses is not inserted. */
  function IssueMandate(db: Db, q: Issue, copy: MandateCopy, now: Time, later: Time): (Db, IssueOutcome)
  {
    var denied := CheckIssue(db, q, copy, now);
    if denied.Some? then (db, IssueDenied(denied.value))
    else if NonceTaken(db.mandates, q.nonce) then (db, IssueAborted)
    else if q.parent.None? then (Inserted(db, q), Issued(|db.mandates|))
    else if !Escrowable(db.mandates[q.parent.value], q.limit, later) then (db, IssueDenied(ChildSpendEscalation))
    else (Escrowed(Inserted(db, q), q.parent.value, q.limit), Issued(|db.mandates|))
  }

  /** The row is read from the caller's copy. */
  function LoadLive(db: Db, m: MandateId, copy: MandateCopy, now: Time, signatureOk: bool): Verdict
  {
    if m >= |db.mandates| then Some(MandateRevoked)
    else
      var forged := VerifyStored(db.principals, Seen(db.mandates[m], copy), signatureOk);
      var stale := CheckFresh(Seen(db.mandates[m], copy), now);
      if forged.Some? then forged
      else if stale.Some? then stale
      else Identity.RequireLiveAgent(db.agents, db.mandates[m].agent)
  }

  function RevokeMandate(db: Db, m: MandateId): Db
  {
    if m < |db.mandates| then db.(mandates := db.mandates[m := db.mandates[m].(revoked := true)]) else db
  }

  // ----- the methods -----

  /** The child row and its nonce are written before the escrow; losing the escrow undoes both. */
  method IssueAndEscrow(s: Session.Session, q: Issue, copy: MandateCopy, now: Time, later: Time)
    returns (out: IssueOutcome)
    requires Identity.Wellformed(s.agents)
    modifies s
    ensures (s.Tables(), out) == IssueMandate(old(s.Tables()), q, copy, now, later)
    ensures !out.Issued? ==> s.Tables() == old(s.Tables())
  {
    var transaction := s.Tables();
    if q.limit < 0 || CheckNonNegative(q.maxCall).Some? || CheckNonNegative(q.maxSub).Some? {
      return IssueDenied(InvalidAmount);
    }
    var live := Identity.RequireLiveAgent(s.agents, q.agent);
    if live.Some? {
      return IssueDenied(live.value);
    }
    if s.agents[q.agent].principal != q.principal {
      return IssueDenied(AgentPrincipalMismatch);
    }
    if q.parent.Some? {
      var refused := CheckParentRow(s, q, copy, now);
      if refused.Some? {
        return IssueDenied(refused.value);
      }
    }
    if Nonce(q.principal, q.nonce) in s.nonces {
      return IssueDenied(NonceReplay);
    }
    s.nonces := s.nonces + {Nonce(q.principal, q.nonce)};
    if CallerRefused(s.principals, q) {
      s.RollbackTo(transaction);
      return IssueDenied(MandateForged);
    }
    var child := NewMandate(s.principals, q);
    NewMandateVerifies(s.principals, q); // the stored row is verified here, and always passes
    if NonceTaken(s.mandates, q.nonce) {
      s.RollbackTo(transaction);
      return IssueAborted;
    }
    out := Issued(|s.mandates|);
    s.mandates := s.mandates + [child];
    if q.parent.Some? {
      var escrowed := EscrowFrom(s, q.parent.value, q.limit, later);
      if !escrowed {
        s.RollbackTo(transaction);
        return IssueDenied(ChildSpendEscalation);
      }
    }
  }

  /** The conditional debit of the parent, with its event. */
  method EscrowFrom(s: Session.Session, p: MandateId, amount: int, later: Time) returns (escrowed: bool)
    requires p < |s.mandates|
    modifies s
    ensures escrowed <==> Escrowable(old(s.mandates)[p], amount, later)
    ensures s.Tables() == if escrowed then Escrowed(old(s.Tables()), p, amount) else old(s.Tables())
  {
    escrowed := Escrowable(s.mandates[p], amount, later);
    if escrowed {
      s.mandates := s.mandates[p := s.mandates[p].(remaining := s.mandates[p].remaining - amount)];
      s.events := s.events + [Event(p, EscrowEvent, amount, Some(s.mandates[p].remaining), None)];
    }
  }

  method CheckParentRow(s: Session.Session, q: Issue, copy: MandateCopy, now: Time) returns (refused: Verdict)
    requires q.parent.Some? && Identity.Wellformed(s.agents)
    ensures refused == CheckParent(s.Tables(), q, copy, now)
  {
    if q.parent.value >= |s.mandates| {
      return Some(MandateRevoked);
    }
    var parent := Seen(s.mandates[q.parent.value], copy);
    refused := VerifyStored(s.principals, parent, q.parentSignatureOk);
    if refused.Some? {
      return;
    }
    refused := CheckFresh(parent, now);
    if refused.Some? {
      return;
    }
    var below := Identity.IsSelfOrDescendant(s, q.agent, parent.agent);
    ReachesIsUnder(Identity.AgentLinks(s.agents), q.agent, parent.agent);
    if !below {
      return Some(ChildAgentNotDescendant);
    }
    refused := CheckChildAttenuation(parent, TermsOf(q));
  }

  method Revoke(s: Session.Session, m: MandateId) returns (missing: bool)
    modifies s
    ensures missing <==> m >= |old(s.mandates)|
    ensures s.Tables() == RevokeMandate(old(s.Tables()), m)
  {
    missing := m >= |s.mandates|;
    if !missing {
      s.mandates := s.mandates[m := s.mandates[m].(revoked := true)];
    }
  }

  // ----- what issuing guarantees -----

  /** A freshly issued row carries a bound key and a payload its own columns rebuild. */
  lemma NewMandateVerifies(principals: seq<Principal>, q: Issue)
    ensures VerifyStored(principals, NewMandate(principals, q), true).None?
  {
  }

  /** The columns no step ever writes after the insert. */
  function Columns(m: Mandate): Mandate
  {
    m.(remaining := 0, callsUsed := 0, revoked := false)
  }

  /** Rows are kept, and keep their immutable columns; new rows may follow. */
  predicate Extends(before: seq<Mandate>, after: seq<Mandate>)
  {
    && |before| <= |after|
    && forall m :: 0 <= m < |before| ==> Columns(after[m]) == Columns(before[m])
  }

  /** A child's terms are within its parent's. */
  predicate Attenuated(child: Mandate, parent: Mandate)
  {
    && child.principal == parent.principal
    && 0 < child.limit <= parent.limit
    && child.maxCall <= parent.maxCall
    && child.maxSub.Some? && parent.maxSub.Some? && child.maxSub.value <= parent.maxSub.value
    && Subset(child.tools, parent.tools)
    && Subset(child.servers, parent.servers)
    && !ExpiryEscalates(child.expires, parent.expires)
  }

  predicate WellDelegatedRow(agents: seq<Agent>, mandates: seq<Mandate>, m: MandateId)
    requires m < |mandates|
  {
    var row := mandates[m];
    && row.agent < |agents| && agents[row.agent].principal == row.principal
    && row.limit >= 0 && row.maxSub.Some?
    && SignedState.Check(row)
    && (row.parent.Some? ==>
          && row.parent.value < m
          && Attenuated(row, mandates[row.parent.value])
          && Identity.SelfOrDescendant(agents, row.agent, mandates[row.parent.value].agent))
  }

  /** Every mandate is bound to its principal, signed as stored, and within its parent. */
  predicate WellDelegated(agents: seq<Agent>, mandates: seq<Mandate>)
  {
    forall m :: 0 <= m < |mandates| ==> WellDelegatedRow(agents, mandates, m)
  }

  lemma ColumnsKeepWellDelegated(agents: seq<Agent>, before: seq<Mandate>, after: seq<Mandate>)
    requires WellDelegated(agents, before)
    requires Extends(before, after) && |before| == |after|
    ensures WellDelegated(agents, after)
  {
    forall m | 0 <= m < |after|
      ensures WellDelegatedRow(agents, after, m)
    {
      assert WellDelegatedRow(agents, before, m);
      assert Columns(after[m]) == Columns(before[m]);
      if before[m].parent.Some? {
        assert Columns(after[before[m].parent.value]) == Columns(before[before[m].parent.value]);
      }
    }
  }

  lemma AgentsKeepWellDelegated(before: seq<Agent>, after: seq<Agent>, mandates: seq<Mandate>)
    requires WellDelegated(before, mandates)
    requires |before| <= |after|
    requires forall a :: 0 <= a < |before| ==> after[a].principal == before[a].principal && after[a].parent == before[a].parent
    ensures WellDelegated(after, mandates)
  {
    var links, more := Identity.AgentLinks(before), Identity.AgentLinks(after[|before|..]);
    assert Identity.AgentLinks(after) == links + more;
    forall m | 0 <= m < |mandates|
      ensures WellDelegatedRow(after, mandates, m)
    {
      assert WellDelegatedRow(before, mandates, m);
      if mandates[m].parent.Some? {
        UnderStable(links, more, mandates[m].agent, mandates[mandates[m].parent.value].agent);
      }
    }
  }

  /** Whatever the caller's copy of the parent's balance said, an issued row is well delegated. */
  lemma IssueKeepsWellDelegated(db: Db, q: Issue, copy: MandateCopy, now: Time, later: Time)
    requires Identity.Wellformed(db.agents) && WellDelegated(db.agents, db.mandates)
    ensures WellDelegated(db.agents, IssueMandate(db, q, copy, now, later).0.mandates)
    ensures Extends(db.mandates, IssueMandate(db, q, copy, now, later).0.mandates)
  {
    var (after, out) := IssueMandate(db, q, copy, now, later);
    if out.Issued? {
      var m := |db.mandates|;
      var inserted := Inserted(db, q).mandates;
      NewMandateVerifies(db.principals, q);
      if q.parent.Some? {
        var parent := db.mandates[q.parent.value];
        assert WellDelegatedRow(db.agents, db.mandates, q.parent.value);
        assert CheckParent(db, q, copy, now).None?;
        Identity.AncestorsShareThePrincipal(db.agents, q.agent, parent.agent);
        assert Attenuated(inserted[m], parent);
      }
      forall k | 0 <= k < |inserted|
        ensures WellDelegatedRow(db.agents, inserted, k)
      {
        if k < m {
          assert WellDelegatedRow(db.agents, db.mandates, k);
        }
      }
      ColumnsKeepWellDelegated(db.agents, inserted, after.mandates);
    }
  }

  /** A child whose sub-budget is left out, or at least its limit, has its limit within the parent's sub-budget. */
  lemma IssuedWithinSubBudget(db: Db, q: Issue, copy: MandateCopy, now: Time, later: Time)
    requires IssueMandate(db, q, copy, now, later).1.Issued? && q.parent.Some?
    requires q.maxSub.None? || q.maxSub.value >= q.limit
    ensures q.parent.value < |db.mandates|
    ensures var parent := db.mandates[q.parent.value];
            parent.maxSub.Some? ==> IssueMandate(db, q, copy, now, later).0.mandates[|db.mandates|].limit <= parent.maxSub.value
  {
    SubBudgetBoundsLimitWhenAsked(Seen(db.mandates[q.parent.value], copy), TermsOf(q));
  }

  // ----- keys -----

  /** Every mandate's key is the issuer's or its principal's own. */
  predicate KeysBound(principals: seq<Principal>, mandates: seq<Mandate>)
  {
    forall m :: 0 <= m < |mandates| ==> mandates[m].key in BoundKeys(principals, mandates[m].principal)
  }

  /** A principal keeps the key it registered, so a bound key stays bound. */
  lemma KeysStayBound(before: Db, after: Db)
    requires KeysBound(before.principals, before.mandates) && before.principals <= after.principals
    requires Extends(before.mandates, after.mandates) && |before.mandates| == |after.mandates|
    ensures KeysBound(after.principals, after.mandates)
  {
    forall m | 0 <= m < |after.mandates|
      ensures after.mandates[m].key in BoundKeys(after.principals, after.mandates[m].principal)
    {
      var was, row := Columns(before.mandates[m]), Columns(after.mandates[m]);
      assert was.key == row.key && was.principal == row.principal;
      assert before.mandates[m].key in BoundKeys(before.principals, was.principal);
    }
  }

  lemma IssueKeepsKeysBound(db: Db, q: Issue, copy: MandateCopy, now: Time, later: Time)
    requires KeysBound(db.principals, db.mandates)
    ensures var after := IssueMandate(db, q, copy, now, later).0; KeysBound(after.principals, after.mandates)
  {
    var after := IssueMandate(db, q, copy, now, later).0;
    if IssueMandate(db, q, copy, now, later).1.Issued? {
      var inserted := Inserted(db, q);
      assert KeysBound(inserted.principals, inserted.mandates);
      KeysStayBound(inserted, after);
    }
  }

  // ----- the chain of ancestors -----

  predicate OnChain(mandates: seq<Mandate>, m: MandateId, a: MandateId)
  {
    Under(MandateLinks(mandates), m, a)
  }

  predicate Narrows(d: Mandate, a: Mandate)
  {
    && d.principal == a.principal
    && d.limit <= a.limit
    && d.maxCall <= a.maxCall
    && d.maxSub.Some? && a.maxSub.Some? && d.maxSub.value <= a.maxSub.value
    && !ExpiryEscalates(d.expires, a.expires)
  }

  /** Money, call, sub-budget and expiry limits only tighten down the tree, within one principal. */
  lemma {:induction false} LimitsNarrowDownTheTree(agents: seq<Agent>, mandates: seq<Mandate>, d: MandateId, a: MandateId)
    requires WellDelegated(agents, mandates)
    requires d < |mandates| && OnChain(mandates, d, a)
    ensures a <= d && Narrows(mandates[d], mandates[a])
    ensures Identity.SelfOrDescendant(agents, mandates[d].agent, mandates[a].agent)
    decreases d
  {
    assert WellDelegatedRow(agents, mandates, d);
    if d != a {
      var p := mandates[d].parent.value;
      LimitsNarrowDownTheTree(agents, mandates, p, a);
      UnderTransitive(Identity.AgentLinks(agents), mandates[d].agent, mandates[p].agent, mandates[a].agent);
    }
  }

  /** Which of a mandate's two lists is meant. */
  datatype ListName = Tools | Servers

  function ListOf(m: Mandate, which: ListName): Option<seq<string>>
  {
    if which.Tools? then m.tools else m.servers
  }

  /** Somewhere on the chain an unrestricted child sits under a parent whose list is empty. */
  predicate EscapesOnChain(mandates: seq<Mandate>, which: ListName, d: MandateId, a: MandateId)
    decreases d
  {
    d != a && d < |mandates| && mandates[d].parent.Some? && mandates[d].parent.value < d
    && (Escapes(ListOf(mandates[d], which), ListOf(mandates[mandates[d].parent.value], which))
        || EscapesOnChain(mandates, which, mandates[d].parent.value, a))
  }

  predicate Within(mandates: seq<Mandate>, which: ListName, d: MandateId, a: MandateId, name: string)
    requires d < |mandates| && a < |mandates|
  {
    Allows(ListOf(mandates[d], which), name) ==> Allows(ListOf(mandates[a], which), name)
  }

  lemma {:induction false} NoEscapeStaysWithin(agents: seq<Agent>, mandates: seq<Mandate>, which: ListName,
                                              d: MandateId, a: MandateId, name: string)
    requires WellDelegated(agents, mandates)
    requires d < |mandates| && a < |mandates| && OnChain(mandates, d, a)
    requires !EscapesOnChain(mandates, which, d, a)
    ensures Within(mandates, which, d, a, name)
    decreases d
  {
    assert WellDelegatedRow(agents, mandates, d);
    if d != a {
      var p := mandates[d].parent.value;
      SubsetNarrowsExactlyUnlessItEscapes(ListOf(mandates[d], which), ListOf(mandates[p], which));
      NoEscapeStaysWithin(agents, mandates, which, p, a, name);
    }
  }

  /** The topmost escape leaves an ancestor that allows nothing. */
  lemma {:induction false} EscapeHasEmptyAncestor(mandates: seq<Mandate>, which: ListName, d: MandateId, a: MandateId)
    returns (e: MandateId)
    requires d < |mandates| && OnChain(mandates, d, a)
    requires EscapesOnChain(mandates, which, d, a)
    ensures e < |mandates| && OnChain(mandates, d, e) && ListOf(mandates[e], which) == Some([])
    decreases d
  {
    var p := mandates[d].parent.value;
    if Escapes(ListOf(mandates[d], which), ListOf(mandates[p], which)) {
      e := p;
      assert Under(MandateLinks(mandates), p, p);
    } else {
      e := EscapeHasEmptyAncestor(mandates, which, p, a);
    }
  }

  /** No mandate above the root: the chain from d to its root. */
  predicate IsRoot(mandates: seq<Mandate>, r: MandateId)
  {
    r < |mandates| && mandates[r].parent.None?
  }

  /**
   * Along the whole chain to the root, what a mandate allows every ancestor allows exactly when no
   * unrestricted child was issued under an empty list, or the mandate itself allows nothing.
   */
  lemma ListsNarrowExactlyWithoutEscape(agents: seq<Agent>, mandates: seq<Mandate>, which: ListName, d: MandateId, root: MandateId)
    requires WellDelegated(agents, mandates)
    requires d < |mandates| && IsRoot(mandates, root) && OnChain(mandates, d, root)
    ensures (forall a: MandateId, name: string :: a < |mandates| && OnChain(mandates, d, a)
               ==> Within(mandates, which, d, a, name))
            <==> !EscapesOnChain(mandates, which, d, root) || ListOf(mandates[d], which) == Some([])
  {
    if EscapesOnChain(mandates, which, d, root) {
      var e := EscapeHasEmptyAncestor(mandates, which, d, root);
      if ListOf(mandates[d], which) != Some([]) {
        var name := if ListOf(mandates[d], which).None? then "" else ListOf(mandates[d], which).value[0];
        assert !Within(mandates, which, d, e, name);
      }
    } else {
      forall a: MandateId, name: string | a < |mandates| && OnChain(mandates, d, a)
        ensures Within(mandates, which, d, a, name)
      {
        EscapeBelow(mandates, which, d, a, root);
        NoEscapeStaysWithin(agents, mandates, which, d, a, name);
      }
    }
  }

  /** A chain to the root has every escape a shorter chain has. */
  lemma {:induction false} EscapeBelow(mandates: seq<Mandate>, which: ListName, d: MandateId, a: MandateId, root: MandateId)
    requires d < |mandates| && IsRoot(mandates, root)
    requires OnChain(mandates, d, a) && OnChain(mandates, d, root)
    ensures EscapesOnChain(mandates, which, d, a) ==> EscapesOnChain(mandates, which, d, root)
    decreases d
  {
    if d != a && d != root {
      EscapeBelow(mandates, which, mandates[d].parent.value, a, root);
    }
  }
}
