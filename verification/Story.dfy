// What every step of processes, operators and billing workers keeps, the low-level helpers excluded.
module Story {
  import opened Model
  import opened LedgerSpec
  import opened Lifecycle
  import opened Invariants
  import Policy
  import Mandates
  import Universe
  import Outbox
  import History

  // ----- the dispatch barrier -----

  /** Statuses an attempt can have once its dispatch was committed. */
  predicate PastBarrier(status: InvocationStatus)
  {
    status != Reserved && status != InvReleased
  }

  predicate Distinct(log: seq<InvocationId>)
  {
    forall a, b :: 0 <= a < b < |log| ==> log[a] != log[b]
  }

  predicate Stands(w: World, pc: Pc)
  {
    match pc
    case Authorized(r) => r.mandate < |w.db.mandates|
    case HasAttempt(i) => i < |w.db.invocations|
    case Entered(i) => i in w.entered && i !in w.dispatched
    case Answered(i, _) => i in w.dispatched
    case Finished => true
  }

  predicate AllStand(w: World)
  {
    forall p :: p in w.procs ==> Stands(w, w.procs[p])
  }

  /** Of the processes about to call the provider no two are for one attempt. */
  predicate OneEntrant(procs: map<ProcessId, Pc>)
  {
    forall p, q | p in procs && q in procs && procs[p].Entered? && procs[q].Entered? ::
      procs[p].i == procs[q].i ==> p == q
  }

  predicate EnteredPast(entered: seq<InvocationId>, invocations: seq<Invocation>)
  {
    forall k :: 0 <= k < |entered| ==> entered[k] < |invocations| && PastBarrier(invocations[entered[k]].status)
  }

  /**
   * Every call to the provider follows its own won and committed reserved-to-executing update; no
   * attempt is entered twice or dispatched twice, and a dispatched one is never released unreconciled.
   */
  predicate Barrier(w: World)
  {
    && Distinct(w.entered) && Distinct(w.dispatched)
    && EnteredPast(w.entered, w.db.invocations)
    && (forall k :: 0 <= k < |w.dispatched| ==> w.dispatched[k] in w.entered)
    && AllStand(w) && OneEntrant(w.procs)
  }

  /** Rows are only added and attempts never come back over the barrier: who stood still stands. */
  lemma TablesKeepBarrier(w: World, db: Db)
    requires Barrier(w)
    requires |w.db.mandates| <= |db.mandates| && History.AttemptsContinue(w.db.invocations, db.invocations)
    ensures Barrier(w.(db := db))
  {
    var after := w.(db := db);
    forall k | 0 <= k < |w.entered|
      ensures w.entered[k] < |db.invocations| && PastBarrier(db.invocations[w.entered[k]].status)
    {
      assert History.Continues(w.db.invocations[w.entered[k]], db.invocations[w.entered[k]]);
    }
    forall p | p in w.procs
      ensures Stands(after, w.procs[p])
    {
      assert Stands(w, w.procs[p]);
    }
  }

  /** One process moved to a place where it stands, and is not about to call the provider. */
  lemma MoveKeepsBarrier(w: World, p: ProcessId, pc: Pc)
    requires Barrier(w) && Stands(w, pc) && !pc.Entered?
    ensures Barrier(Moved(w, p, pc))
  {
    var after := Moved(w, p, pc);
    forall q | q in after.procs
      ensures Stands(after, after.procs[q])
    {
      assert q != p ==> Stands(w, w.procs[q]);
    }
  }

  lemma MarkStep(w: World, p: ProcessId)
    requires p in w.procs && w.procs[p].HasAttempt?
    ensures Apply(w, Mark(p)) == AfterMark(w, p, w.procs[p].i).(db := MoveStatus(w.db, w.procs[p].i, {Reserved}, Executing))
  {
  }

  /** Only one process wins the update for an attempt, whoever else holds the same row. */
  lemma MarkKeepsBarrier(w: World, p: ProcessId)
    requires Barrier(w) && p in w.procs && w.procs[p].HasAttempt?
    ensures Barrier(Apply(w, Mark(p)))
  {
    var i := w.procs[p].i;
    assert Stands(w, w.procs[p]);
    MarkStep(w, p);
    if w.db.invocations[i].status == Reserved {
      ReservedIsNew(w, i);
      WinnerKeepsBarrier(w, p, i);
    } else {
      MoveKeepsBarrier(w, p, Finished);
    }
  }

  lemma ReservedIsNew(w: World, i: InvocationId)
    requires Barrier(w) && HasStatus(w.db, i, {Reserved})
    ensures i !in w.entered && i !in w.dispatched
  {
  }

  lemma WinnerKeepsBarrier(w: World, p: ProcessId, i: InvocationId)
    requires Barrier(w) && HasStatus(w.db, i, {Reserved}) && i !in w.entered && i !in w.dispatched
    ensures Barrier(AfterMark(w, p, i).(db := WithStatus(w.db, i, Executing)))
  {
    var after := AfterMark(w, p, i).(db := WithStatus(w.db, i, Executing));
    forall q | q in after.procs
      ensures Stands(after, after.procs[q])
    {
      assert q != p ==> Stands(w, w.procs[q]);
    }
    forall q | q in w.procs && w.procs[q].Entered?
      ensures w.procs[q].i != i
    {
      assert Stands(w, w.procs[q]);
    }
  }

  lemma CallStep(w: World, p: ProcessId, ok: bool)
    requires p in w.procs && w.procs[p].Entered?
    ensures Apply(w, CallProvider(p, ok))
            == Moved(w, p, Answered(w.procs[p].i, ok)).(dispatched := w.dispatched + [w.procs[p].i])
  {
  }

  lemma DispatchKeepsBarrier(w: World, p: ProcessId, ok: bool)
    requires Barrier(w) && p in w.procs && w.procs[p].Entered?
    ensures Barrier(Apply(w, CallProvider(p, ok)))
  {
    CallStep(w, p, ok);
    EntrantKeepsBarrier(w, p, ok);
  }

  /** The one entrant for an attempt calls the provider and is no longer about to. */
  lemma EntrantKeepsBarrier(w: World, p: ProcessId, ok: bool)
    requires Barrier(w) && p in w.procs && w.procs[p].Entered?
    ensures Barrier(Moved(w, p, Answered(w.procs[p].i, ok)).(dispatched := w.dispatched + [w.procs[p].i]))
  {
    var i := w.procs[p].i;
    var after := Moved(w, p, Answered(i, ok)).(dispatched := w.dispatched + [i]);
    assert Stands(w, w.procs[p]);
    forall q | q in after.procs
      ensures Stands(after, after.procs[q])
    {
      assert q != p ==> Stands(w, w.procs[q]);
    }
  }

  /** Where the other steps of a process take it, it stands once their unit is committed. */
  lemma ReservedStands(w: World, r: Request, copy: MandateCopy, now: Time, later: Time)
    ensures var pc, db := AfterReserve(w.db, r, copy, now, later), Perform(w.db, Reserve(r, copy, now, later));
            Stands(w.(db := db), pc) && !pc.Entered?
  {
  }

  lemma AuthorizedHasMandate(db: Db, r: Request, now: Time, signatureOk: bool, copy: MandateCopy, checks: Checks)
    requires Authorize(db, r, now, signatureOk, copy, checks).Allowed?
    ensures r.mandate < |db.mandates|
  {
  }

  lemma BeginKeepsBarrier(w: World, l: Label)
    requires Barrier(w) && l.Begin? && l.p !in w.procs
    ensures Barrier(Advance(w, l))
  {
    if Authorize(w.db, l.request, l.now, l.signatureOk, l.copy, l.checks).Allowed? {
      AuthorizedHasMandate(w.db, l.request, l.now, l.signatureOk, l.copy, l.checks);
      MoveKeepsBarrier(w, l.p, Authorized(l.request));
    } else {
      MoveKeepsBarrier(w, l.p, Finished);
    }
  }

  lemma ReservingKeepsBarrier(w: World, l: Label)
    requires Barrier(w) && l.Reserving? && l.p in w.procs && w.procs[l.p].Authorized?
    ensures Barrier(Apply(w, l))
  {
    var r, next := w.procs[l.p].request, w.(db := Apply(w, l).db);
    History.StepFollows(w, l);
    TablesKeepBarrier(w, next.db);
    ReservedStands(w, r, l.copy, l.now, l.later);
    MoveKeepsBarrier(next, l.p, AfterReserve(w.db, r, l.copy, l.now, l.later));
  }

  /** Steps that leave processes alone, or take one to a place that no table decides. */
  lemma AdvanceKeepsBarrier(w: World, l: Label)
    requires Barrier(w) && !l.Begin? && !l.Reserving? && !l.Mark? && !l.CallProvider?
    ensures Barrier(Advance(w, l))
  {
    if l.Attach? && l.p !in w.procs && l.i < |w.db.invocations| {
      MoveKeepsBarrier(w, l.p, HasAttempt(l.i));
    } else if l.Complete? && l.p in w.procs && w.procs[l.p].Answered? {
      MoveKeepsBarrier(w, l.p, Finished);
    } else if l.BillingStep? {
      assert Advance(w, l).procs == w.procs;
    }
  }

  lemma StepKeepsBarrier(w: World, l: Label)
    requires Barrier(w)
    ensures Barrier(Apply(w, l))
  {
    if l.Reserving? && l.p in w.procs && w.procs[l.p].Authorized? {
      ReservingKeepsBarrier(w, l);
    } else if l.Mark? && l.p in w.procs && w.procs[l.p].HasAttempt? {
      MarkKeepsBarrier(w, l.p);
    } else if l.CallProvider? && l.p in w.procs && w.procs[l.p].Entered? {
      DispatchKeepsBarrier(w, l.p, l.ok);
    } else {
      OtherStepKeepsBarrier(w, l);
    }
  }

  lemma OtherStepKeepsBarrier(w: World, l: Label)
    requires Barrier(w)
    requires l.Reserving? ==> l.p !in w.procs || !w.procs[l.p].Authorized?
    requires l.Mark? ==> l.p !in w.procs || !w.procs[l.p].HasAttempt?
    requires l.CallProvider? ==> l.p !in w.procs || !w.procs[l.p].Entered?
    ensures Barrier(Apply(w, l))
  {
    OtherAdvanceKeepsBarrier(w, l);
    History.StepFollows(w, l);
    TablesKeepBarrier(Advance(w, l), Apply(w, l).db);
  }

  lemma OtherAdvanceKeepsBarrier(w: World, l: Label)
    requires Barrier(w)
    requires l.Reserving? ==> l.p !in w.procs || !w.procs[l.p].Authorized?
    requires l.Mark? ==> l.p !in w.procs || !w.procs[l.p].HasAttempt?
    requires l.CallProvider? ==> l.p !in w.procs || !w.procs[l.p].Entered?
    ensures Barrier(Advance(w, l)) && Advance(w, l).db == w.db
  {
    if l.Begin? && l.p !in w.procs {
      BeginKeepsBarrier(w, l);
    } else if !l.Begin? && !l.Reserving? && !l.Mark? && !l.CallProvider? {
      AdvanceKeepsBarrier(w, l);
    }
  }

  // ----- one universe -----

  lemma ReserveKeepsUniverse(db: Db, r: Request, copy: MandateCopy, now: Time, later: Time)
    requires Universe.OneUniverse(db) && Reservable(db, r)
    ensures Universe.OneUniverse(ReserveCall(db, r, copy, now, later).0)
  {
    Universe.SameStorySameUniverse(db, Prepared(db, r));
    if ReserveCall(db, r, copy, now, later).1.Opened? {
      Universe.OpenKeepsUniverse(Prepared(db, r), r, now);
    } else {
      Universe.LogKeepsUniverse(Prepared(db, r),
                                Event(r.mandate, DenyEvent, r.amount, Some(db.mandates[r.mandate].remaining), None));
    }
  }

  lemma IssueKeepsUniverse(db: Db, q: Mandates.Issue, copy: MandateCopy, now: Time, later: Time)
    requires Universe.OneUniverse(db)
    ensures Universe.OneUniverse(Mandates.IssueMandate(db, q, copy, now, later).0)
  {
    var after := Mandates.IssueMandate(db, q, copy, now, later).0;
    if after.events != db.events {
      Universe.LogKeepsUniverse(db, after.events[|db.events|]);
    }
    Universe.SameStorySameUniverse(db.(events := after.events), after);
  }

  lemma DeliveryKeepsUniverse(db: Db, tickets: seq<Outbox.Ticket>, stripe: map<ReceiptId, int>, l: Outbox.Label)
    requires Universe.OneUniverse(db)
    ensures Universe.OneUniverse(Delivered(db, tickets, stripe, l))
  {
    if !l.Charge? {
      Outbox.DeliveryKeepsPayloads(Outbox.Desk(db.outbox, tickets, stripe), l);
      Universe.DeliveryKeepsUniverse(db, Delivered(db, tickets, stripe, l).outbox);
    }
  }

  lemma SucceedKeepsUniverse(db: Db, i: InvocationId, x: Ending)
    requires Universe.OneUniverse(db) && HasHold(db, i)
    ensures Universe.OneUniverse(FinalizeSuccess(db, HoldOf(db, i).value, i, x).0)
  {
    assert Universe.Paired(db, i);
    Universe.FinalizeSuccessKeepsUniverse(db, i, x);
  }

  lemma SuccessKeepsUniverse(db: Db, u: Unit)
    requires Universe.OneUniverse(db) && u.Succeed?
    ensures Universe.OneUniverse(Perform(db, u))
  {
    if HasHold(db, u.i) {
      SucceedKeepsUniverse(db, u.i, u.x);
    }
  }

  lemma RecoveryKeepsUniverse(db: Db, u: Unit)
    requires Universe.OneUniverse(db) && u.Recovery?
    ensures Universe.OneUniverse(Perform(db, u))
  {
    if u.i < |db.invocations| {
      Universe.RecoverKeepsUniverse(db, u.i, u.snapshot, u.release);
    }
  }

  lemma SettlingKeepsUniverse(db: Db, u: Unit)
    requires Universe.OneUniverse(db) && History.Settles(u)
    ensures Universe.OneUniverse(Perform(db, u))
  {
    if u.Succeed? {
      SuccessKeepsUniverse(db, u);
    } else if u.Recovery? {
      RecoveryKeepsUniverse(db, u);
    } else {
      EvidenceKeepsUniverse(db, u);
    }
  }

  lemma EvidenceKeepsUniverse(db: Db, u: Unit)
    requires Universe.OneUniverse(db) && (u.EvidenceCommit? || u.EvidenceRelease?)
    ensures Universe.OneUniverse(Perform(db, u))
  {
    if u.i < |db.invocations| {
      if u.EvidenceCommit? {
        Universe.ReconcileCommitKeepsUniverse(db, u.i, u.holdCopy, u.e, u.x);
      } else {
        Universe.ReconcileReleaseKeepsUniverse(db, u.i, u.holdCopy, u.e);
      }
    }
  }

  lemma AttemptUnitKeepsUniverse(db: Db, u: Unit)
    requires Universe.OneUniverse(db) && OnAttempts(u) && !History.Settles(u)
    ensures Universe.OneUniverse(Perform(db, u))
  {
    match u
    case Reserve(r, copy, now, later) =>
      if Reservable(db, r) {
        ReserveKeepsUniverse(db, r, copy, now, later);
      }
    case Enter(i) =>
      if HasStatus(db, i, {Reserved}) {
        Universe.OpenMoveKeepsUniverse(db, i, Executing);
      }
    case Fail(i) =>
      if HasStatus(db, i, {Executing}) {
        Universe.OpenMoveKeepsUniverse(db, i, ExecutedFail);
      }
  }

  predicate IsLowLevel(u: Unit)
  {
    u.LowCommit? || u.LowRelease?
  }

  /** Units that write no table of the story. */
  predicate IsSilent(u: Unit)
  {
    u.Idle? || u.RevokeMandate? || u.NewPrincipal? || u.NewAgent? || u.RevokeAgent?
  }

  lemma SilentKeepsUniverse(db: Db, u: Unit)
    requires Universe.OneUniverse(db) && IsSilent(u)
    ensures Universe.OneUniverse(Perform(db, u))
  {
    Universe.SameStorySameUniverse(db, Perform(db, u));
  }

  lemma IssueUnitKeepsUniverse(db: Db, u: Unit)
    requires Universe.OneUniverse(db) && u.Issue?
    ensures Universe.OneUniverse(Perform(db, u))
  {
    IssueKeepsUniverse(db, u.q, u.copy, u.now, u.later);
  }

  lemma OtherUnitKeepsUniverse(db: Db, u: Unit)
    requires Universe.OneUniverse(db) && !OnAttempts(u) && !IsLowLevel(u)
    ensures Universe.OneUniverse(Perform(db, u))
  {
    if IsSilent(u) {
      SilentKeepsUniverse(db, u);
    } else if u.Issue? {
      IssueUnitKeepsUniverse(db, u);
    } else if u.Deliver? {
      DeliveryKeepsUniverse(db, u.tickets, u.stripe, u.l);
    } else {
      Universe.LogKeepsUniverse(db, Event(u.m, DenyEvent, 0, Some(u.remaining), None));
    }
  }

  lemma UnitKeepsUniverse(db: Db, u: Unit)
    requires Universe.OneUniverse(db) && !IsLowLevel(u)
    ensures Universe.OneUniverse(Perform(db, u))
  {
    if History.Settles(u) {
      SettlingKeepsUniverse(db, u);
    } else if OnAttempts(u) {
      AttemptUnitKeepsUniverse(db, u);
    } else {
      OtherUnitKeepsUniverse(db, u);
    }
  }

  // ----- spending within policy -----

  /** A call the mandate's immutable terms permit. */
  predicate Permitted(mandates: seq<Mandate>, m: MandateId, tool: string, server: string, amount: int)
  {
    && m < |mandates|
    && Policy.Allows(mandates[m].tools, tool) && Policy.Allows(mandates[m].servers, server)
    && amount <= mandates[m].maxCall
  }

  predicate Unexpired(m: Mandate, at: Time)
  {
    m.expires.Some? ==> at < Policy.Instant(m.expires.value)
  }

  predicate LawfulAttempt(db: Db, i: InvocationId)
    requires i < |db.invocations|
  {
    var inv := db.invocations[i];
    && Permitted(db.mandates, inv.mandate, inv.tool, inv.server, inv.amount)
    && i < |db.holds| && Unexpired(db.mandates[inv.mandate], db.holds[i].at)
  }

  predicate LawfulRequest(db: Db, pc: Pc)
  {
    pc.Authorized? ==> Permitted(db.mandates, pc.request.mandate, pc.request.tool, pc.request.server, pc.request.amount)
  }

  predicate LawfulAttempts(db: Db)
  {
    forall i :: 0 <= i < |db.invocations| ==> LawfulAttempt(db, i)
  }

  predicate LawfulRequests(w: World)
  {
    forall p :: p in w.procs ==> LawfulRequest(w.db, w.procs[p])
  }

  predicate Lawful(w: World)
  {
    LawfulAttempts(w.db) && LawfulRequests(w)
  }

  /** Terms do not change, so what was permitted stays permitted. */
  lemma PermittedStays(before: seq<Mandate>, after: seq<Mandate>, m: MandateId, tool: string, server: string, amount: int)
    requires Mandates.Extends(before, after) && Permitted(before, m, tool, server, amount)
    ensures Permitted(after, m, tool, server, amount)
    ensures forall at :: Unexpired(before[m], at) ==> Unexpired(after[m], at)
  {
    assert Mandates.Columns(after[m]) == Mandates.Columns(before[m]);
  }

  lemma LawfulAttemptStays(a: Db, b: Db, i: InvocationId)
    requires History.Follows(a, b) && i < |a.invocations| && LawfulAttempt(a, i)
    ensures LawfulAttempt(b, i)
  {
    var inv := a.invocations[i];
    assert History.Continues(inv, b.invocations[i]) && History.HoldContinues(a.holds[i], b.holds[i]);
    PermittedStays(a.mandates, b.mandates, inv.mandate, inv.tool, inv.server, inv.amount);
  }

  lemma OpenedIsLawful(db: Db, r: Request, copy: MandateCopy, now: Time, later: Time)
    requires Permitted(db.mandates, r.mandate, r.tool, r.server, r.amount) && |db.holds| == |db.invocations|
    requires Reservable(db, r)
    ensures var after := ReserveCall(db, r, copy, now, later).0;
            forall i :: |db.invocations| <= i < |after.invocations| ==> LawfulAttempt(after, i)
  {
  }

  /** The attempts a step adds: none, or the one a permitted request opened. */
  lemma NewAttemptIsLawful(db: Db, u: Unit)
    requires |db.holds| == |db.invocations|
    requires u.Reserve? ==> Permitted(db.mandates, u.r.mandate, u.r.tool, u.r.server, u.r.amount)
    ensures var after := Perform(db, u);
            forall i :: |db.invocations| <= i < |after.invocations| ==> LawfulAttempt(after, i)
  {
    if u.Reserve? {
      if Reservable(db, u.r) {
        OpenedIsLawful(db, u.r, u.copy, u.now, u.later);
      }
    } else {
      History.RowsAreAdded(db, u);
    }
  }

  lemma UnitKeepsAttemptsLawful(db: Db, u: Unit)
    requires LawfulAttempts(db) && |db.holds| == |db.invocations|
    requires u.Reserve? ==> Permitted(db.mandates, u.r.mandate, u.r.tool, u.r.server, u.r.amount)
    ensures LawfulAttempts(Perform(db, u))
  {
    var after := Perform(db, u);
    History.UnitFollows(db, u);
    NewAttemptIsLawful(db, u);
    forall i | 0 <= i < |after.invocations|
      ensures LawfulAttempt(after, i)
    {
      if i < |db.invocations| {
        LawfulAttemptStays(db, after, i);
      }
    }
  }

  /** check_tool passed at authorisation, on terms that cannot change before the debit. */
  lemma AllowedIsPermitted(db: Db, r: Request, now: Time, signatureOk: bool, copy: MandateCopy, checks: Checks)
    requires Authorize(db, r, now, signatureOk, copy, checks).Allowed?
    ensures Permitted(db.mandates, r.mandate, r.tool, r.server, r.amount)
  {
  }

  /** Only Begin makes a process Authorized. */
  lemma OnlyBeginAuthorizes(w: World, l: Label, p: ProcessId)
    requires p in Advance(w, l).procs && Advance(w, l).procs[p].Authorized?
    ensures (p in w.procs && w.procs[p] == Advance(w, l).procs[p])
            || (l.Begin? && p == l.p && Authorize(w.db, l.request, l.now, l.signatureOk, l.copy, l.checks).Allowed?
                && Advance(w, l).procs[p] == Authorized(l.request))
  {
  }

  lemma RequestStaysLawful(w: World, l: Label, p: ProcessId)
    requires LawfulRequests(w) && p in Advance(w, l).procs
    ensures LawfulRequest(w.db, Advance(w, l).procs[p])
  {
    if Advance(w, l).procs[p].Authorized? {
      OnlyBeginAuthorizes(w, l, p);
      if p in w.procs && w.procs[p] == Advance(w, l).procs[p] {
        assert LawfulRequest(w.db, w.procs[p]);
      } else {
        AllowedIsPermitted(w.db, l.request, l.now, l.signatureOk, l.copy, l.checks);
      }
    }
  }

  lemma StepKeepsRequestsLawful(w: World, l: Label)
    requires LawfulRequests(w)
    ensures LawfulRequests(Apply(w, l))
  {
    var after := Apply(w, l);
    History.StepFollows(w, l);
    forall p | p in after.procs
      ensures LawfulRequest(after.db, after.procs[p])
    {
      RequestStaysLawful(w, l, p);
      if after.procs[p].Authorized? {
        var r := after.procs[p].request;
        PermittedStays(w.db.mandates, after.db.mandates, r.mandate, r.tool, r.server, r.amount);
      }
    }
  }

  lemma UnitIsPermitted(w: World, l: Label)
    requires LawfulRequests(w) && UnitOf(w, l).Reserve?
    ensures var r := UnitOf(w, l).r; Permitted(w.db.mandates, r.mandate, r.tool, r.server, r.amount)
  {
    assert LawfulRequest(w.db, w.procs[l.p]);
  }

  lemma StepKeepsLawful(w: World, l: Label)
    requires Lawful(w) && |w.db.holds| == |w.db.invocations|
    ensures Lawful(Apply(w, l))
  {
    if UnitOf(w, l).Reserve? {
      UnitIsPermitted(w, l);
    }
    UnitKeepsAttemptsLawful(w.db, UnitOf(w, l));
    StepKeepsRequestsLawful(w, l);
  }

  // ----- the billing desk -----

  /** The outbox is left alone or gains one fresh charge. */
  predicate ChargesAtMostOnce(before: seq<OutboxRow>, after: seq<OutboxRow>)
  {
    && |before| <= |after| <= |before| + 1 && after[..|before|] == before
    && (|after| > |before| ==>
          after[|before|] == FreshRow(|before|, after[|before|].amount, after[|before|].feeBps, after[|before|].account))
  }

  /** What a unit is to the billing outbox: one of its own steps, a new charge, or nothing. */
  function DeskLabels(u: Unit, before: seq<OutboxRow>, after: seq<OutboxRow>): seq<Outbox.Label>
  {
    if u.Deliver? then if u.l.Charge? then [] else [u.l]
    else if |after| > |before|
    then [Outbox.Charge(after[|before|].amount, after[|before|].feeBps, after[|before|].account)]
    else []
  }

  function DeskStep(w: World, l: Label): seq<Outbox.Label>
  {
    DeskLabels(UnitOf(w, l), w.db.outbox, Apply(w, l).db.outbox)
  }

  lemma FinalizeChargesAtMostOnce(db: Db, i: InvocationId, x: Ending)
    requires Universe.OneUniverse(db) && i < |db.invocations|
    ensures ChargesAtMostOnce(db.outbox, FinalizeSuccess(db, i, i, x).0.outbox)
  {
    Universe.NothingBilledYet(db, i);
  }

  lemma EvidenceChargesAtMostOnce(db: Db, i: InvocationId, copy: HoldStatus, e: Evidence, x: Ending)
    requires Universe.OneUniverse(db) && i < |db.invocations|
    ensures ChargesAtMostOnce(db.outbox, ReconcileCommit(db, i, copy, e, x).0.outbox)
  {
    assert Universe.Paired(db, i);
    Universe.NothingBilledYet(db, i);
    var (after, out) := ReconcileCommit(db, i, copy, e, x);
    if out.Won? {
      assert after.outbox == Settle(WithStatus(db, i, ReconciledCommitted), i, db.invocations[i], x).outbox;
    }
  }

  lemma RefundsLeaveOutbox(db: Db, u: Unit)
    requires u.Recovery? || u.EvidenceRelease?
    ensures Perform(db, u).outbox == db.outbox
  {
  }

  lemma OtherUnitsLeaveOutbox(db: Db, u: Unit)
    requires !u.Succeed? && !u.EvidenceCommit? && !u.Deliver?
    ensures Perform(db, u).outbox == db.outbox
  {
    if History.Settles(u) {
      RefundsLeaveOutbox(db, u);
    }
  }

  lemma SucceedChargesAtMostOnce(db: Db, u: Unit)
    requires Universe.OneUniverse(db) && u.Succeed?
    ensures ChargesAtMostOnce(db.outbox, Perform(db, u).outbox)
  {
    if HasHold(db, u.i) {
      assert Universe.Paired(db, u.i);
      FinalizeChargesAtMostOnce(db, u.i, u.x);
    }
  }

  lemma EvidenceUnitChargesAtMostOnce(db: Db, u: Unit)
    requires Universe.OneUniverse(db) && u.EvidenceCommit?
    ensures ChargesAtMostOnce(db.outbox, Perform(db, u).outbox)
  {
    if u.i < |db.invocations| {
      EvidenceChargesAtMostOnce(db, u.i, u.holdCopy, u.e, u.x);
    }
  }

  lemma UnitChargesAtMostOnce(db: Db, u: Unit)
    requires Universe.OneUniverse(db) && !u.Deliver?
    ensures ChargesAtMostOnce(db.outbox, Perform(db, u).outbox)
  {
    if u.Succeed? {
      SucceedChargesAtMostOnce(db, u);
    } else if u.EvidenceCommit? {
      EvidenceUnitChargesAtMostOnce(db, u);
    } else {
      OtherUnitsLeaveOutbox(db, u);
    }
  }

  lemma OneDeskLabel(d: Outbox.Desk, l: Outbox.Label)
    ensures Outbox.Run(d, [l]) == Outbox.Apply(d, l)
  {
    assert Outbox.Run(d, [l]) == Outbox.Run(Outbox.Apply(d, l), []);
  }

  lemma DeliveryIsDeskStep(w: World, bl: Outbox.Label)
    ensures DeskOf(Apply(w, BillingStep(bl))) == Outbox.Run(DeskOf(w), DeskStep(w, BillingStep(bl)))
  {
    BillingIsDeskStep(w, bl);
    OneDeskLabel(DeskOf(w), bl);
  }

  lemma BillingIsDeskStep(w: World, bl: Outbox.Label)
    ensures DeskStep(w, BillingStep(bl)) == if bl.Charge? then [] else [bl]
    ensures DeskOf(Apply(w, BillingStep(bl))) == if bl.Charge? then DeskOf(w) else Outbox.Apply(DeskOf(w), bl)
  {
  }

  lemma ChargeIsDeskStep(d: Outbox.Desk, u: Unit, after: seq<OutboxRow>)
    requires !u.Deliver? && ChargesAtMostOnce(d.rows, after)
    ensures Outbox.Run(d, DeskLabels(u, d.rows, after)) == d.(rows := after)
  {
    if |after| > |d.rows| {
      assert after == d.rows + [after[|d.rows|]];
      OneDeskLabel(d, DeskLabels(u, d.rows, after)[0]);
    }
  }

  /** Every step of the system is a step of the outbox system, a new charge, or invisible to it. */
  lemma StepIsDeskStep(w: World, l: Label)
    requires Universe.OneUniverse(w.db)
    ensures DeskOf(Apply(w, l)) == Outbox.Run(DeskOf(w), DeskStep(w, l))
  {
    if l.BillingStep? {
      DeliveryIsDeskStep(w, l.l);
    } else {
      UnitChargesAtMostOnce(w.db, UnitOf(w, l));
      OthersLeaveJobs(w, l);
      ChargeIsDeskStep(DeskOf(w), UnitOf(w, l), Apply(w, l).db.outbox);
    }
  }

  lemma OthersLeaveJobs(w: World, l: Label)
    requires !l.BillingStep?
    ensures !UnitOf(w, l).Deliver? && Advance(w, l).tickets == w.tickets && Advance(w, l).stripe == w.stripe
  {
  }

  // ----- all of it -----

  ghost predicate Story(w: World)
  {
    && Books(w.db)
    && Universe.OneUniverse(w.db)
    && Barrier(w)
    && Lawful(w)
    && Outbox.Sound(DeskOf(w))
  }

  lemma StepKeepsUniverse(w: World, l: Label)
    requires Universe.OneUniverse(w.db) && !IsHelper(l)
    ensures Universe.OneUniverse(Apply(w, l).db)
  {
    UnitKeepsUniverse(w.db, UnitOf(w, l));
  }

  lemma StepKeepsDesk(w: World, l: Label)
    requires Universe.OneUniverse(w.db) && Outbox.Sound(DeskOf(w))
    ensures Outbox.Sound(DeskOf(Apply(w, l)))
  {
    StepIsDeskStep(w, l);
    Outbox.RunIsSound(DeskOf(w), DeskStep(w, l));
  }

  lemma StepKeepsStory(w: World, l: Label)
    requires Story(w) && !IsHelper(l)
    ensures Story(Apply(w, l))
  {
    StepKeepsBooks(w, l);
    StepKeepsUniverse(w, l);
    StepKeepsBarrier(w, l);
    StepKeepsLawful(w, l);
    StepKeepsDesk(w, l);
  }

  lemma EmptyHasUniverse()
    ensures Universe.OneUniverse(EMPTY_DB)
  {
  }

  lemma StartHasStory()
    ensures Story(START)
  {
    EmptyHasBooks();
    EmptyHasUniverse();
  }
}
