// Runs of the system in which a spend goes further than it looks: past its ancestors' lists, past the
// revocation of its agent, and past its parent's sub-budget.
module Escape {
  import opened Model
  import opened Lifecycle
  import LedgerSpec
  import Policy
  import Identity
  import Mandates

  function Root(): Mandates.Issue
  {
    Mandates.Issue(0, 0, None, 1000, None, None, Some([]), None, None, None, "root", true, None)
  }

  function Child(): Mandates.Issue
  {
    Mandates.Issue(0, 0, Some(0), 600, None, None, None, None, None, None, "child", true, None)
  }

  function Purchase(): LedgerSpec.Request
  {
    LedgerSpec.Request(1, "purchase", "mock", 500, None, None, None, true)
  }

  const ROOT_COPY := MandateCopy(1000, 0, false)
  const CHILD_COPY := MandateCopy(600, 0, false)
  const PASSED := Checks(true, None, true)

  /**
   * A principal, its agent, a root that may call no tool, an unrestricted child under it, and a
   * purchase by the child.
   */
  function Purchasing(): seq<Label>
  {
    [CreatePrincipalStep(None, None)] + ([CreateAgentStep(0, None)] + Delegating())
  }

  function Delegating(): seq<Label>
  {
    [IssueStep(Root(), ROOT_COPY, 0, 0)] + ([IssueStep(Child(), ROOT_COPY, 0, 0)] + Buying())
  }

  function Buying(): seq<Label>
  {
    [Begin(0, Purchase(), 0, true, CHILD_COPY, PASSED)] + [Reserving(0, CHILD_COPY, 0, 0)]
  }

  function WithAgent(): Db
  {
    EMPTY_DB.(accounts := [Account(0)], principals := [Principal(0, None)], agents := [Agent(0, None, false)])
  }

  function WithRoot(): Db
  {
    Mandates.Inserted(WithAgent(), Root())
  }

  function WithChild(): Db
  {
    Mandates.Escrowed(Mandates.Inserted(WithRoot(), Child()), 0, 600)
  }

  function WithPurchase(): Db
  {
    LedgerSpec.Open(Prepared(WithChild(), Purchase()), Purchase(), 0)
  }

  lemma AgentIsCreated()
    ensures Identity.CreateAgent(Identity.InsertPrincipal(EMPTY_DB, None, None).0, 0, None).0 == WithAgent()
  {
  }

  lemma RootIsIssued()
    ensures Mandates.IssueMandate(WithAgent(), Root(), ROOT_COPY, 0, 0).0 == WithRoot()
  {
  }

  lemma ChildIsIssued()
    ensures Mandates.IssueMandate(WithRoot(), Child(), ROOT_COPY, 0, 0).0 == WithChild()
  {
  }

  lemma PurchaseIsAllowed()
    ensures Authorize(WithChild(), Purchase(), 0, true, CHILD_COPY, PASSED).Allowed?
  {
  }

  lemma PurchaseIsReserved()
    ensures Reservable(WithChild(), Purchase())
    ensures ReserveCall(WithChild(), Purchase(), CHILD_COPY, 0, 0).0 == WithPurchase()
  {
  }

  lemma PartiesPerform(db: Db, principal: PrincipalId)
    ensures Perform(db, NewPrincipal(None, None)) == Identity.InsertPrincipal(db, None, None).0
    ensures Perform(db, NewAgent(principal, None)) == Identity.CreateAgent(db, principal, None).0
  {
  }

  lemma IssuePerforms(db: Db, q: Mandates.Issue)
    ensures Perform(db, Issue(q, ROOT_COPY, 0, 0)) == Mandates.IssueMandate(db, q, ROOT_COPY, 0, 0).0
  {
  }

  predicate OnTables(l: Label, u: Unit)
  {
    match l
    case CreatePrincipalStep(account, key) => u == NewPrincipal(account, key)
    case CreateAgentStep(principal, parent) => u == NewAgent(principal, parent)
    case IssueStep(q, copy, now, later) => u == Issue(q, copy, now, later)
    case RevokeAgentStep(a) => u == RevokeAgent(a)
    case _ => false
  }

  /** A step that no process takes. */
  lemma TableStep(w: World, l: Label, u: Unit, rest: seq<Label>) returns (next: World)
    requires OnTables(l, u)
    ensures next == w.(db := Perform(w.db, u))
    ensures Run(w, [l] + rest) == Run(next, rest)
  {
    next := Apply(w, l);
    assert ([l] + rest)[1..] == rest;
  }

  lemma IssueRuns(w: World, q: Mandates.Issue, rest: seq<Label>) returns (next: World)
    ensures next == w.(db := Mandates.IssueMandate(w.db, q, ROOT_COPY, 0, 0).0)
    ensures Run(w, [IssueStep(q, ROOT_COPY, 0, 0)] + rest) == Run(next, rest)
  {
    next := TableStep(w, IssueStep(q, ROOT_COPY, 0, 0), Issue(q, ROOT_COPY, 0, 0), rest);
    IssuePerforms(w.db, q);
  }

  lemma PrincipalRuns(w: World, rest: seq<Label>) returns (next: World)
    ensures next == w.(db := Identity.InsertPrincipal(w.db, None, None).0)
    ensures Run(w, [CreatePrincipalStep(None, None)] + rest) == Run(next, rest)
  {
    next := TableStep(w, CreatePrincipalStep(None, None), NewPrincipal(None, None), rest);
    PartiesPerform(w.db, 0);
  }

  lemma AgentRuns(w: World, principal: PrincipalId, rest: seq<Label>) returns (next: World)
    ensures next == w.(db := Identity.CreateAgent(w.db, principal, None).0)
    ensures Run(w, [CreateAgentStep(principal, None)] + rest) == Run(next, rest)
  {
    next := TableStep(w, CreateAgentStep(principal, None), NewAgent(principal, None), rest);
    PartiesPerform(w.db, principal);
  }

  lemma AgentIsReached(w: World, rest: seq<Label>) returns (next: World)
    requires w.db == EMPTY_DB
    ensures next == w.(db := WithAgent())
    ensures Run(w, [CreatePrincipalStep(None, None)] + ([CreateAgentStep(0, None)] + rest)) == Run(next, rest)
  {
    var w1 := PrincipalRuns(w, [CreateAgentStep(0, None)] + rest);
    next := AgentRuns(w1, 0, rest);
    AgentIsCreated();
  }

  lemma ChildIsReached(w: World, rest: seq<Label>) returns (next: World)
    requires w.db == WithAgent()
    ensures next == w.(db := WithChild())
    ensures Run(w, [IssueStep(Root(), ROOT_COPY, 0, 0)] + ([IssueStep(Child(), ROOT_COPY, 0, 0)] + rest)) == Run(next, rest)
  {
    var w1 := IssueRuns(w, Root(), [IssueStep(Child(), ROOT_COPY, 0, 0)] + rest);
    RootIsIssued();
    next := IssueRuns(w1, Child(), rest);
    ChildIsIssued();
  }

  lemma PurchaseBegins(w: World, rest: seq<Label>) returns (next: World)
    requires w.db == WithChild() && w.procs == map[]
    ensures next.db == WithChild() && At(next, 0, Authorized(Purchase()))
    ensures Run(w, [Begin(0, Purchase(), 0, true, CHILD_COPY, PASSED)] + rest) == Run(next, rest)
  {
    var begin := Begin(0, Purchase(), 0, true, CHILD_COPY, PASSED);
    next := Apply(w, begin);
    PurchaseIsAllowed();
    assert ([begin] + rest)[1..] == rest;
  }

  lemma PurchaseRuns(w: World)
    requires Reservable(w.db, Purchase()) && At(w, 0, Authorized(Purchase()))
    ensures Run(w, [Reserving(0, CHILD_COPY, 0, 0)]).db == ReserveCall(w.db, Purchase(), CHILD_COPY, 0, 0).0
  {
    var reserving := Reserving(0, CHILD_COPY, 0, 0);
    assert [reserving][1..] == [];
    assert Run(w, [reserving]) == Run(Apply(w, reserving), []);
  }

  lemma PurchasingReaches()
    ensures Run(START, Purchasing()).db == WithPurchase()
  {
    var w1 := AgentIsReached(START, Delegating());
    var w2 := ChildIsReached(w1, Buying());
    var w3 := PurchaseBegins(w2, [Reserving(0, CHILD_COPY, 0, 0)]);
    PurchaseIsReserved();
    PurchaseRuns(w3);
  }

  lemma PurchaseIsOutsideTheList()
    ensures var db := WithPurchase();
            && |db.mandates| == 2 && |db.invocations| == 1 && |db.holds| == 1
            && db.invocations[0].mandate == 1 && db.mandates[1].parent == Some(0)
            && db.invocations[0].tool == "purchase" && db.holds[0].status == Held && db.holds[0].amount == 500
            && !Policy.Allows(db.mandates[0].tools, "purchase")
  {
  }

  /** A tool the root does not allow is paid for out of the root's money. */
  lemma PurchaseEscapesTheEmptyList()
    ensures var db := Run(START, Purchasing()).db;
            && |db.mandates| == 2 && |db.invocations| == 1 && |db.holds| == 1
            && db.invocations[0].mandate == 1 && db.mandates[1].parent == Some(0)
            && db.invocations[0].tool == "purchase" && db.holds[0].status == Held && db.holds[0].amount == 500
            && !Policy.Allows(db.mandates[0].tools, "purchase")
  {
    PurchasingReaches();
    PurchaseIsOutsideTheList();
  }

  // ----- a revoked agent -----

  /** The same purchase, its agent revoked between authorisation and the debit. */
  function PurchasingLate(): seq<Label>
  {
    RevokingFirst() + [Reserving(0, CHILD_COPY, 0, 0)]
  }

  function RevokingFirst(): seq<Label>
  {
    [CreatePrincipalStep(None, None)] + ([CreateAgentStep(0, None)]
    + ([IssueStep(Root(), ROOT_COPY, 0, 0)] + ([IssueStep(Child(), ROOT_COPY, 0, 0)]
    + ([Begin(0, Purchase(), 0, true, CHILD_COPY, PASSED)] + ([RevokeAgentStep(0)] + [])))))
  }

  function AgentGone(): Db
  {
    WithChild().(agents := [Agent(0, None, true)])
  }

  lemma AgentIsRevoked()
    ensures WithChild().(agents := Identity.RevokeAgent(WithChild().agents, 0)) == AgentGone()
  {
  }

  lemma RevokePerforms(db: Db, a: AgentId)
    ensures Perform(db, RevokeAgent(a)) == db.(agents := Identity.RevokeAgent(db.agents, a))
  {
  }

  lemma RevokeRuns(w: World, a: AgentId) returns (next: World)
    ensures next == w.(db := w.db.(agents := Identity.RevokeAgent(w.db.agents, a)))
    ensures Run(w, [RevokeAgentStep(a)] + []) == next
  {
    next := TableStep(w, RevokeAgentStep(a), RevokeAgent(a), []);
    RevokePerforms(w.db, a);
  }

  lemma AgentGoneIsReached() returns (w: World)
    ensures w == Run(START, RevokingFirst())
    ensures w.db == AgentGone() && At(w, 0, Authorized(Purchase()))
  {
    var last := [RevokeAgentStep(0)] + [];
    var begin := [Begin(0, Purchase(), 0, true, CHILD_COPY, PASSED)] + last;
    var w1 := AgentIsReached(START, [IssueStep(Root(), ROOT_COPY, 0, 0)] + ([IssueStep(Child(), ROOT_COPY, 0, 0)] + begin));
    var w2 := ChildIsReached(w1, begin);
    var w3 := PurchaseBegins(w2, last);
    w := RevokeRuns(w3, 0);
    AgentIsRevoked();
  }

  lemma LatePurchaseOpens()
    ensures Reservable(AgentGone(), Purchase())
    ensures var db := ReserveCall(AgentGone(), Purchase(), CHILD_COPY, 0, 0).0;
            |db.holds| == 1 && db.holds[0].mandate == 1 && db.holds[0].status == Held
  {
  }

  lemma AgentGoneHasItsMandate()
    ensures |AgentGone().mandates| == 2 && AgentGone().mandates[1].agent == 0
  {
  }

  /** The debit does not look at the agent: a hold is opened on the mandate of an agent already revoked. */
  lemma AuthorizedPurchaseOutlivesItsAgent()
    ensures var early, late := Run(START, RevokingFirst()).db, Run(START, PurchasingLate()).db;
            && |early.agents| == 1 && |early.mandates| == 2 && early.mandates[1].agent == 0 && early.agents[0].revoked
            && |late.holds| == 1 && late.holds[0].mandate == 1 && late.holds[0].status == Held
  {
    var w := AgentGoneIsReached();
    AgentGoneHasItsMandate();
    LatePurchaseOpens();
    PurchaseRuns(w);
    RunInTwoParts(START, RevokingFirst(), [Reserving(0, CHILD_COPY, 0, 0)]);
  }

  // ----- a sub-budget -----

  function CappedRoot(): Mandates.Issue
  {
    Mandates.Issue(0, 0, None, 1000, None, None, None, None, None, Some(100), "root", true, None)
  }

  function LargeChild(): Mandates.Issue
  {
    Mandates.Issue(0, 0, Some(0), 600, None, None, None, None, None, Some(0), "child", true, None)
  }

  /** A root with a sub-budget of 100, and a child that asks for none of its own. */
  function IssuingLarge(): seq<Label>
  {
    [CreatePrincipalStep(None, None)] + ([CreateAgentStep(0, None)]
    + ([IssueStep(CappedRoot(), ROOT_COPY, 0, 0)] + ([IssueStep(LargeChild(), ROOT_COPY, 0, 0)] + [])))
  }

  function WithCappedRoot(): Db
  {
    Mandates.Inserted(WithAgent(), CappedRoot())
  }

  function WithLargeChild(): Db
  {
    Mandates.Escrowed(Mandates.Inserted(WithCappedRoot(), LargeChild()), 0, 600)
  }

  lemma CappedRootIsIssued()
    ensures Mandates.IssueMandate(WithAgent(), CappedRoot(), ROOT_COPY, 0, 0).0 == WithCappedRoot()
  {
  }

  lemma LargeChildIsIssued()
    ensures Mandates.IssueMandate(WithCappedRoot(), LargeChild(), ROOT_COPY, 0, 0).0 == WithLargeChild()
  {
  }

  lemma LargeChildIsLarge()
    ensures var db := WithLargeChild();
            && |db.mandates| == 2 && db.mandates[1].parent == Some(0)
            && db.mandates[0].maxSub == Some(100) && db.mandates[1].maxSub == Some(0) && db.mandates[1].limit == 600
  {
  }

  lemma LargeChildIsReached()
    ensures Run(START, IssuingLarge()).db == WithLargeChild()
  {
    var child := [IssueStep(LargeChild(), ROOT_COPY, 0, 0)] + [];
    var w1 := AgentIsReached(START, [IssueStep(CappedRoot(), ROOT_COPY, 0, 0)] + child);
    var w2 := IssueRuns(w1, CappedRoot(), child);
    CappedRootIsIssued();
    var w3 := IssueRuns(w2, LargeChild(), []);
    LargeChildIsIssued();
  }

  /** A child's limit may be six times its parent's sub-budget if its own sub-budget is not. */
  lemma LimitEscapesTheSubBudget()
    ensures var db := Run(START, IssuingLarge()).db;
            && |db.mandates| == 2 && db.mandates[1].parent == Some(0)
            && db.mandates[0].maxSub == Some(100) && db.mandates[1].maxSub == Some(0) && db.mandates[1].limit == 600
  {
    LargeChildIsReached();
    LargeChildIsLarge();
  }
}
