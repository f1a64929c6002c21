// What revoking an agent stops. The debit's own condition does not look at the agent, so a call
// authorised before the revocation may still open its hold; nothing else may.
module Revocation {
  import opened Model
  import opened Sums
  import opened LedgerSpec
  import opened Lifecycle
  import opened Invariants
  import opened Universe
  import Mandates
  import History
  import Story

  predicate IsAgents(mandates: seq<Mandate>, m: MandateId, a: AgentId)
  {
    m < |mandates| && mandates[m].agent == a
  }

  function HeldFor(mandates: seq<Mandate>, a: AgentId): Hold -> int
  {
    (h: Hold) => One(IsAgents(mandates, h.mandate, a))
  }

  /** How many holds were ever opened on the agent's mandates. */
  function OpenedFor(db: Db, a: AgentId): int
  {
    SumBy(db.holds, HeldFor(db.mandates, a))
  }

  /** The processes that passed authorisation on one of the agent's mandates and have not reserved yet. */
  function Pending(w: World, a: AgentId): set<ProcessId>
  {
    set p | p in w.procs && w.procs[p].Authorized? && IsAgents(w.db.mandates, w.procs[p].request.mandate, a)
  }

  predicate AgentRevoked(db: Db, a: AgentId)
  {
    a < |db.agents| && db.agents[a].revoked
  }

  predicate HoldsNameMandates(db: Db)
  {
    forall h :: 0 <= h < |db.holds| ==> db.holds[h].mandate < |db.mandates|
  }

  lemma StaysRevoked(a: Db, b: Db, g: AgentId)
    requires History.Kept(a, b) && AgentRevoked(a, g)
    ensures AgentRevoked(b, g)
  {
  }

  // ----- nothing new is issued or authorised -----

  lemma IssuesNothing(db: Db, u: Unit, a: AgentId)
    requires AgentRevoked(db, a)
    ensures forall m :: |db.mandates| <= m < |Perform(db, u).mandates| ==> Perform(db, u).mandates[m].agent != a
  {
    History.RowsAreAdded(db, u);
    if u.Issue? {
      NewMandateHasLiveAgent(db, u.q, u.copy, u.now, u.later, a);
    }
  }

  lemma NewMandateHasLiveAgent(db: Db, q: Mandates.Issue, copy: MandateCopy, now: Time, later: Time, a: AgentId)
    requires AgentRevoked(db, a)
    ensures var after := Mandates.IssueMandate(db, q, copy, now, later).0.mandates;
            forall m :: |db.mandates| <= m < |after| ==> after[m].agent != a
  {
  }

  lemma AuthorizesNothing(db: Db, r: Request, now: Time, signatureOk: bool, copy: MandateCopy, checks: Checks, a: AgentId)
    requires AgentRevoked(db, a)
    requires Authorize(db, r, now, signatureOk, copy, checks).Allowed?
    ensures r.mandate < |db.mandates| && db.mandates[r.mandate].agent != a
  {
  }

  lemma AgentsMandateWasThere(a: Db, b: Db, m: MandateId, g: AgentId)
    requires History.Kept(a, b) && IsAgents(b.mandates, m, g)
    requires forall c :: |a.mandates| <= c < |b.mandates| ==> b.mandates[c].agent != g
    ensures IsAgents(a.mandates, m, g)
  {
    assert Mandates.Columns(b.mandates[m]) == Mandates.Columns(a.mandates[m]);
  }

  lemma StillPending(w: World, l: Label, a: AgentId, p: ProcessId)
    requires AgentRevoked(w.db, a) && p in Pending(Apply(w, l), a)
    ensures p in Pending(w, a) && w.procs[p] == Advance(w, l).procs[p]
  {
    var r := Advance(w, l).procs[p].request;
    History.StepFollows(w, l);
    IssuesNothing(w.db, UnitOf(w, l), a);
    AgentsMandateWasThere(w.db, Apply(w, l).db, r.mandate, a);
    Story.OnlyBeginAuthorizes(w, l, p);
    if !(p in w.procs && w.procs[p] == Advance(w, l).procs[p]) {
      AuthorizesNothing(w.db, r, l.now, l.signatureOk, l.copy, l.checks, a);
    }
  }

  // ----- holds opened -----

  /** Holds that are kept stay with the agent they were opened for. */
  lemma SameOpened(a: Db, b: Db, g: AgentId)
    requires HoldsNameMandates(a) && History.Kept(a, b)
    ensures SumBy(b.holds[..|a.holds|], HeldFor(b.mandates, g)) == OpenedFor(a, g)
  {
    forall h | 0 <= h < |a.holds|
      ensures HeldFor(b.mandates, g)(b.holds[..|a.holds|][h]) == HeldFor(a.mandates, g)(a.holds[h])
    {
      var m := a.holds[h].mandate;
      assert History.HoldContinues(a.holds[h], b.holds[h]);
      assert Mandates.Columns(b.mandates[m]).agent == Mandates.Columns(a.mandates[m]).agent;
    }
    SumEqual(b.holds[..|a.holds|], a.holds, HeldFor(b.mandates, g), HeldFor(a.mandates, g));
  }

  /** A unit opens one hold at most: the one its reservation asks for. */
  lemma UnitOpens(db: Db, u: Unit, g: AgentId)
    requires HoldsNameMandates(db)
    ensures var after := Perform(db, u);
            OpenedFor(after, g) <= OpenedFor(db, g) + One(u.Reserve? && IsAgents(db.mandates, u.r.mandate, g))
  {
    var after := Perform(db, u);
    History.UnitFollows(db, u);
    SameOpened(db, after, g);
    if |after.holds| == |db.holds| {
      assert after.holds[..|db.holds|] == after.holds;
    } else {
      History.RowsAreAdded(db, u);
      ReservationOpensOne(db, u.r, u.copy, u.now, u.later);
      OneMoreOpened(db, after, u.r.mandate, g);
    }
  }

  lemma OneMoreOpened(a: Db, b: Db, m: MandateId, g: AgentId)
    requires History.Kept(a, b) && |b.holds| == |a.holds| + 1 && b.holds[|a.holds|].mandate == m < |a.mandates|
    ensures OpenedFor(b, g) == SumBy(b.holds[..|a.holds|], HeldFor(b.mandates, g)) + One(IsAgents(a.mandates, m, g))
  {
    var first, last := b.holds[..|a.holds|], b.holds[|a.holds|];
    assert b.holds == first + [last];
    SumAppend(first, last, HeldFor(b.mandates, g));
    assert Mandates.Columns(b.mandates[m]).agent == Mandates.Columns(a.mandates[m]).agent;
  }

  lemma ReservationOpensOne(db: Db, r: Request, copy: MandateCopy, now: Time, later: Time)
    ensures var after := Perform(db, Reserve(r, copy, now, later));
            |after.holds| > |db.holds| ==>
              r.mandate < |db.mandates| && |after.holds| == |db.holds| + 1 && after.holds[|db.holds|].mandate == r.mandate
  {
  }

  /** The reserving process is no longer pending. */
  lemma ReservingLeavesPending(w: World, l: Label)
    requires UnitOf(w, l).Reserve?
    ensures l.Reserving? && l.p in w.procs && w.procs[l.p] == Authorized(UnitOf(w, l).r)
    ensures l.p in Advance(w, l).procs && !Advance(w, l).procs[l.p].Authorized?
  {
  }

  /** Each hold a step opens takes its process out of the pending ones. */
  lemma StepOpens(w: World, l: Label, a: AgentId)
    requires HoldsNameMandates(w.db) && AgentRevoked(w.db, a)
    ensures var after := Apply(w, l);
            OpenedFor(after.db, a) + |Pending(after, a)| <= OpenedFor(w.db, a) + |Pending(w, a)|
  {
    var u, after := UnitOf(w, l), Apply(w, l);
    UnitOpens(w.db, u, a);
    var pending, left := Pending(w, a), Pending(after, a);
    forall p | p in left
      ensures p in pending
    {
      StillPending(w, l, a, p);
    }
    if u.Reserve? && IsAgents(w.db.mandates, u.r.mandate, a) {
      ReservingLeavesPending(w, l);
      Fewer(left, pending - {l.p});
    } else {
      Fewer(left, pending);
    }
  }

  lemma {:induction false} Fewer<T>(a: set<T>, b: set<T>)
    requires a <= b
    ensures |a| <= |b|
  {
    assert b == a + (b - a);
  }

  // ----- runs -----

  lemma {:induction false} RunOpens(w: World, labels: seq<Label>, a: AgentId)
    requires Books(w.db) && AgentRevoked(w.db, a)
    ensures var after := Run(w, labels);
            OpenedFor(after.db, a) + |Pending(after, a)| <= OpenedFor(w.db, a) + |Pending(w, a)|
    decreases labels
  {
    if labels != [] {
      var next := Apply(w, labels[0]);
      StepOpens(w, labels[0], a);
      StepKeepsBooks(w, labels[0]);
      History.StepFollows(w, labels[0]);
      StaysRevoked(w.db, next.db, a);
      RunOpens(next, labels[1..], a);
    }
  }

  predicate NoneIssued(a: Db, b: Db, g: AgentId)
  {
    forall m :: |a.mandates| <= m < |b.mandates| ==> b.mandates[m].agent != g
  }

  lemma NoneIssuedTransitively(a: Db, b: Db, c: Db, g: AgentId)
    requires NoneIssued(a, b, g) && NoneIssued(b, c, g) && History.Kept(b, c)
    ensures NoneIssued(a, c, g)
  {
    forall m | |a.mandates| <= m < |c.mandates|
      ensures c.mandates[m].agent != g
    {
      assert m < |b.mandates| ==> Mandates.Columns(c.mandates[m]) == Mandates.Columns(b.mandates[m]);
    }
  }

  lemma {:induction false} RunIssuesNothing(w: World, labels: seq<Label>, a: AgentId)
    requires AgentRevoked(w.db, a)
    ensures NoneIssued(w.db, Run(w, labels).db, a)
    decreases labels
  {
    if labels != [] {
      var next := Apply(w, labels[0]);
      IssuesNothing(w.db, UnitOf(w, labels[0]), a);
      History.StepFollows(w, labels[0]);
      StaysRevoked(w.db, next.db, a);
      RunIssuesNothing(next, labels[1..], a);
      History.RunKeeps(next, labels[1..]);
      NoneIssuedTransitively(w.db, next.db, Run(next, labels[1..]).db, a);
    }
  }

  /**
   * From one state to a later one the agent was issued no mandate, and on its mandates at most n holds
   * were opened.
   */
  predicate OpensAtMost(a: Db, b: Db, g: AgentId, n: nat)
  {
    && NoneIssued(a, b, g)
    && |a.holds| <= |b.holds|
    && SumBy(b.holds[|a.holds|..], HeldFor(b.mandates, g)) <= n
    && (n == 0 ==> forall h :: |a.holds| <= h < |b.holds| ==> !IsAgents(b.mandates, b.holds[h].mandate, g))
  }

  lemma OpenedSince(a: Db, b: Db, g: AgentId, n: nat)
    requires HoldsNameMandates(a) && History.Kept(a, b) && NoneIssued(a, b, g)
    requires OpenedFor(b, g) <= OpenedFor(a, g) + n
    ensures OpensAtMost(a, b, g, n)
  {
    var first, since := b.holds[..|a.holds|], b.holds[|a.holds|..];
    assert b.holds == first + since;
    SumConcat(first, since, HeldFor(b.mandates, g));
    SameOpened(a, b, g);
    if n == 0 {
      NoneAmong(since, b.mandates, g);
      forall h | |a.holds| <= h < |b.holds|
        ensures !IsAgents(b.mandates, b.holds[h].mandate, g)
      {
        assert since[h - |a.holds|] == b.holds[h];
      }
    }
  }

  lemma NoneAmong(holds: seq<Hold>, mandates: seq<Mandate>, g: AgentId)
    requires SumBy(holds, HeldFor(mandates, g)) <= 0
    ensures forall h :: 0 <= h < |holds| ==> !IsAgents(mandates, holds[h].mandate, g)
  {
    SumBounds(holds, HeldFor(mandates, g));
    forall h | 0 <= h < |holds|
      ensures !IsAgents(mandates, holds[h].mandate, g)
    {
      assert HeldFor(mandates, g)(holds[h]) <= 0;
    }
  }

  lemma RevokedAgentIsStopped(w: World, labels: seq<Label>, a: AgentId)
    requires Books(w.db) && AgentRevoked(w.db, a)
    ensures OpensAtMost(w.db, Run(w, labels).db, a, |Pending(w, a)|)
  {
    RunOpens(w, labels, a);
    RunIssuesNothing(w, labels, a);
    History.RunKeeps(w, labels);
    OpenedSince(w.db, Run(w, labels).db, a, |Pending(w, a)|);
  }
}
