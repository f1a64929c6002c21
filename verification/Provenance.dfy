// Where rows come from: every attempt was authorised by a Begin of the run, with every check passed then;
// every mandate was issued by a step of the run, as it was asked for and with every check passed then.
module Provenance {
  import opened Model
  import opened LedgerSpec
  import opened Lifecycle
  import opened Invariants
  import opened Admission
  import Mandates
  import History
  import Story
  import Runs

  /** The state before step k of the run. */
  function StateAt(labels: seq<Label>, k: nat): Db
    requires k <= |labels|
  {
    Run(START, labels[..k]).db
  }

  lemma SameStates(labels: seq<Label>, l: Label, k: nat)
    requires k <= |labels|
    ensures StateAt(labels + [l], k) == StateAt(labels, k)
  {
    assert (labels + [l])[..k] == labels[..k];
  }

  lemma StateBeforeLast(front: seq<Label>, l: Label)
    ensures StateAt(front + [l], |front|) == Run(START, front).db
  {
    assert (front + [l])[..|front|] == front;
  }

  lemma StateAfterLast(labels: seq<Label>)
    ensures StateAt(labels, |labels|) == Run(START, labels).db
  {
    assert labels[..|labels|] == labels;
  }

  /** Step k began a call for r, and everything was in order: the answer to the call was to go on. */
  ghost predicate BegunFor(labels: seq<Label>, k: nat, p: ProcessId, r: Request)
  {
    && k < |labels| && labels[k].Begin? && labels[k].p == p && labels[k].request == r && labels[k].signatureOk
    && Answer(StateAt(labels, k), r, labels[k].now, true, labels[k].copy, labels[k].checks) == Allowed
  }

  ghost predicate WasBegun(labels: seq<Label>, p: ProcessId, r: Request)
  {
    exists k: nat :: BegunFor(labels, k, p, r)
  }

  lemma BegunStays(labels: seq<Label>, l: Label, p: ProcessId, r: Request)
    requires WasBegun(labels, p, r)
    ensures WasBegun(labels + [l], p, r)
  {
    var k: nat :| BegunFor(labels, k, p, r);
    SameStates(labels, l, k);
    assert BegunFor(labels + [l], k, p, r);
  }

  lemma AllowedWasSigned(db: Db, l: Label)
    requires l.Begin? && Delegated(db)
    requires Authorize(db, l.request, l.now, l.signatureOk, l.copy, l.checks).Allowed?
    ensures l.signatureOk && Answer(db, l.request, l.now, true, l.copy, l.checks) == Allowed
  {
    AuthorizeExactly(db, l.request, l.now, l.signatureOk, l.copy, l.checks);
  }

  lemma NewlyBegun(front: seq<Label>, l: Label)
    requires l.Begin? && Authorize(Run(START, front).db, l.request, l.now, l.signatureOk, l.copy, l.checks).Allowed?
    ensures WasBegun(front + [l], l.p, l.request)
  {
    var w := Runs.Reachable(front);
    AllowedWasSigned(w.db, l);
    StateBeforeLast(front, l);
    assert BegunFor(front + [l], |front|, l.p, l.request);
  }

  /** A process that is authorised for a request was begun for it. */
  lemma {:induction false} AuthorizedWasBegun(labels: seq<Label>, p: ProcessId)
    requires p in Run(START, labels).procs && Run(START, labels).procs[p].Authorized?
    ensures WasBegun(labels, p, Run(START, labels).procs[p].request)
    decreases |labels|
  {
    if labels != [] {
      var front, l := labels[..|labels| - 1], labels[|labels| - 1];
      assert labels == front + [l];
      Runs.OneMore(front, l);
      Story.OnlyBeginAuthorizes(Run(START, front), l, p);
      BegunBefore(front, l, p);
    }
  }

  lemma {:induction false} BegunBefore(front: seq<Label>, l: Label, p: ProcessId)
    requires var w := Run(START, front);
             p in Advance(w, l).procs && Advance(w, l).procs[p].Authorized?
    ensures WasBegun(front + [l], p, Advance(Run(START, front), l).procs[p].request)
    decreases |front| + 1, 0
  {
    var w := Run(START, front);
    Story.OnlyBeginAuthorizes(w, l, p);
    if p in w.procs && w.procs[p] == Advance(w, l).procs[p] {
      AuthorizedWasBegun(front, p);
      BegunStays(front, l, p, w.procs[p].request);
    } else {
      NewlyBegun(front, l);
    }
  }

  /** The attempt is for the call that was asked for. */
  predicate AsRequested(inv: Invocation, r: Request)
  {
    && inv.mandate == r.mandate && inv.tool == r.tool && inv.server == r.server && inv.amount == r.amount
    && inv.key == r.key && inv.hash == r.hash
  }

  ghost predicate WasAuthorized(labels: seq<Label>, inv: Invocation)
  {
    exists p, r :: WasBegun(labels, p, r) && AsRequested(inv, r)
  }

  lemma AuthorizedStays(labels: seq<Label>, l: Label, a: Invocation, b: Invocation)
    requires WasAuthorized(labels, a) && History.Continues(a, b)
    ensures WasAuthorized(labels + [l], b)
  {
    var p, r :| WasBegun(labels, p, r) && AsRequested(a, r);
    BegunStays(labels, l, p, r);
    assert AsRequested(b, r);
  }

  lemma AttemptContinues(w: World, l: Label, i: InvocationId)
    requires i < |w.db.invocations|
    ensures i < |Apply(w, l).db.invocations| && History.Continues(w.db.invocations[i], Apply(w, l).db.invocations[i])
  {
    History.StepFollows(w, l);
  }

  /** Every attempt is for a call that a Begin of the run authorised, signature and all. */
  lemma {:induction false} EveryAttemptWasAuthorized(labels: seq<Label>, i: InvocationId)
    requires i < |Run(START, labels).db.invocations|
    ensures WasAuthorized(labels, Run(START, labels).db.invocations[i])
    decreases |labels|
  {
    if labels != [] {
      var front, l := labels[..|labels| - 1], labels[|labels| - 1];
      assert labels == front + [l];
      Runs.OneMore(front, l);
      var before, after := Run(START, front).db.invocations, Run(START, labels).db.invocations;
      if i < |before| {
        EveryAttemptWasAuthorized(front, i);
        AttemptContinues(Run(START, front), l, i);
        AuthorizedStays(front, l, before[i], after[i]);
      } else {
        NewAttemptWasAuthorized(front, l, i);
      }
    }
  }

  lemma NewAttemptWasAuthorized(front: seq<Label>, l: Label, i: InvocationId)
    requires var w := Run(START, front);
             |w.db.invocations| <= i < |Apply(w, l).db.invocations|
    ensures WasAuthorized(front + [l], Apply(Run(START, front), l).db.invocations[i])
  {
    var w := Run(START, front);
    History.RowsAreAdded(w.db, UnitOf(w, l));
    var r := NewAttemptIsRequested(w, l, i);
    AuthorizedWasBegun(front, l.p);
    BegunStays(front, l, l.p, r);
  }

  lemma NewAttemptIsRequested(w: World, l: Label, i: InvocationId) returns (r: Request)
    requires |w.db.invocations| <= i < |Apply(w, l).db.invocations| && UnitOf(w, l).Reserve?
    ensures l.Reserving? && l.p in w.procs && w.procs[l.p] == Authorized(r)
    ensures AsRequested(Apply(w, l).db.invocations[i], r)
  {
    r := UnitOf(w, l).r;
    ReserveExactly(w.db, r, l.copy, l.now, l.later);
  }

  // ----- mandates -----

  /** The step issued mandate m: every check passed, and the row has the columns that were asked for. */
  ghost predicate Issues(before: Db, l: Label, after: Db, m: MandateId, row: Mandate)
  {
    && l.IssueStep? && m == |before.mandates|
    && CanIssue(before, l.q, l.parentCopy, l.now, l.later) && IssuedAs(before, after, l.q)
    && Mandates.Columns(row) == Mandates.Columns(after.mandates[m])
  }

  ghost predicate IssuedAt(labels: seq<Label>, k: nat, m: MandateId, row: Mandate)
  {
    k < |labels| && Issues(StateAt(labels, k), labels[k], StateAt(labels, k + 1), m, row)
  }

  ghost predicate WasIssued(labels: seq<Label>, m: MandateId, row: Mandate)
  {
    exists k: nat :: IssuedAt(labels, k, m, row)
  }

  lemma SameColumnsIssued(before: Db, l: Label, after: Db, m: MandateId, a: Mandate, b: Mandate)
    requires Issues(before, l, after, m, a) && Mandates.Columns(a) == Mandates.Columns(b)
    ensures Issues(before, l, after, m, b)
  {
  }

  lemma IssuedAtStays(labels: seq<Label>, l: Label, k: nat, m: MandateId, row: Mandate)
    requires IssuedAt(labels, k, m, row)
    ensures IssuedAt(labels + [l], k, m, row)
  {
    SameStates(labels, l, k);
    SameStates(labels, l, k + 1);
  }

  lemma IssuedStays(labels: seq<Label>, l: Label, m: MandateId, a: Mandate, b: Mandate)
    requires WasIssued(labels, m, a) && Mandates.Columns(a) == Mandates.Columns(b)
    ensures WasIssued(labels + [l], m, b)
  {
    var k: nat :| IssuedAt(labels, k, m, a);
    SameColumnsIssued(StateAt(labels, k), labels[k], StateAt(labels, k + 1), m, a, b);
    IssuedAtStays(labels, l, k, m, b);
  }

  /** Only an issue adds a mandate, and then it adds one, as asked. */
  lemma AddedMandateWasIssued(w: World, l: Label, m: MandateId)
    requires Delegated(w.db)
    requires |w.db.mandates| <= m < |Apply(w, l).db.mandates|
    ensures Issues(w.db, l, Apply(w, l).db, m, Apply(w, l).db.mandates[m])
  {
    History.RowsAreAdded(w.db, UnitOf(w, l));
    IssueExactly(w.db, l.q, l.parentCopy, l.now, l.later);
  }

  lemma NewlyIssued(front: seq<Label>, l: Label, m: MandateId)
    requires |Run(START, front).db.mandates| <= m < |Apply(Run(START, front), l).db.mandates|
    ensures WasIssued(front + [l], m, Apply(Run(START, front), l).db.mandates[m])
  {
    var w := Runs.Reachable(front);
    AddedMandateWasIssued(w, l, m);
    StateBeforeLast(front, l);
    StateAfterLast(front + [l]);
    Runs.OneMore(front, l);
    assert IssuedAt(front + [l], |front|, m, Apply(w, l).db.mandates[m]);
  }

  /** Every mandate was issued by a step of the run, and keeps the columns it was issued with. */
  lemma {:induction false} EveryMandateWasIssued(labels: seq<Label>, m: MandateId)
    requires m < |Run(START, labels).db.mandates|
    ensures WasIssued(labels, m, Run(START, labels).db.mandates[m])
    decreases |labels|
  {
    if labels != [] {
      var front, l := labels[..|labels| - 1], labels[|labels| - 1];
      assert labels == front + [l];
      Runs.OneMore(front, l);
      var before, after := Run(START, front).db.mandates, Run(START, labels).db.mandates;
      if m < |before| {
        EveryMandateWasIssued(front, m);
        History.StepFollows(Run(START, front), l);
        assert Mandates.Columns(after[m]) == Mandates.Columns(before[m]);
        IssuedStays(front, l, m, before[m], after[m]);
      } else {
        NewlyIssued(front, l, m);
      }
    }
  }

  /** What was asked for when the row was issued, proved as it had to be. */
  predicate AskedAndProved(db: Db, q: Mandates.Issue, row: Mandate)
  {
    && IsNewRow(db, q, row.(remaining := q.limit, callsUsed := 0, revoked := false))
    && (q.parent.Some? ==> q.parentSignatureOk)
    && (q.caller.Some? ==> q.caller.value.verifies)
  }

  lemma IssuesProved(before: Db, l: Label, after: Db, m: MandateId, row: Mandate)
    requires Issues(before, l, after, m, row)
    ensures AskedAndProved(before, l.q, row)
  {
    assert row.(remaining := l.q.limit, callsUsed := 0, revoked := false) == after.mandates[m];
  }

  /** So whoever had a child issued under a mandate had that mandate's signature verified, and its own proved. */
  lemma IssuedMandateWasProved(labels: seq<Label>, m: MandateId) returns (k: nat)
    requires m < |Run(START, labels).db.mandates|
    ensures k < |labels| && labels[k].IssueStep?
    ensures AskedAndProved(StateAt(labels, k), labels[k].q, Run(START, labels).db.mandates[m])
  {
    EveryMandateWasIssued(labels, m);
    var row := Run(START, labels).db.mandates[m];
    k :| IssuedAt(labels, k, m, row);
    IssuesProved(StateAt(labels, k), labels[k], StateAt(labels, k + 1), m, row);
  }
}
