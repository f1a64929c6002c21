// One universe: an attempt, its hold, its receipt, its charge, its events and its evidence always
// tell the same story, and money committed, receipted and charged is the same money.
module Universe {
  import opened Model
  import opened Sums
  import opened LedgerSpec

  /** The story an attempt's status tells about its hold. */
  function HoldStatusOf(status: InvocationStatus): HoldStatus
  {
    match status
    case Reserved => Held
    case Executing => Held
    case ExecutedOk => Held
    case ExecutedFail => Held
    case Ambiguous => Held
    case InvCommitted => Committed
    case ReconciledCommitted => Committed
    case InvReleased => Released
    case ReconciledReleased => Released
  }

  predicate IsOpen(status: InvocationStatus)
  {
    HoldStatusOf(status) == Held
  }

  function One(b: bool): int
  {
    if b then 1 else 0
  }

  function ReceiptFor(h: HoldId): Receipt -> int
  {
    (r: Receipt) => One(r.hold == h)
  }

  function EventFor(kind: EventKind, h: HoldId): Event -> int
  {
    (e: Event) => One(e.kind == kind && e.hold == Some(h))
  }

  function EvidenceFor(i: InvocationId, status: InvocationStatus): ReconciliationEvent -> int
  {
    (r: ReconciliationEvent) => One(r.invocation == i && r.toStatus == status)
  }

  function SettledAmount(): Hold -> int
  {
    (h: Hold) => if h.status == Committed then h.amount else 0
  }

  function ReceiptAmount(): Receipt -> int
  {
    (r: Receipt) => r.amount
  }

  function ChargeAmount(): OutboxRow -> int
  {
    (r: OutboxRow) => r.amount
  }

  /** The hold of an attempt is its own row, with the attempt's terms and story. */
  predicate Paired(db: Db, i: InvocationId)
    requires i < |db.invocations| && i < |db.holds|
  {
    var inv, hold := db.invocations[i], db.holds[i];
    && inv.hold == Some(i)
    && inv.status != ExecutedOk
    && hold.status == HoldStatusOf(inv.status)
    && hold.amount == inv.amount >= 0
    && hold.mandate == inv.mandate && hold.principal == inv.principal && hold.key == inv.key
  }

  /** Each ending leaves exactly its own traces, once. */
  predicate Traced(db: Db, i: InvocationId)
    requires i < |db.invocations|
  {
    var status := db.invocations[i].status;
    && SumBy(db.receipts, ReceiptFor(i)) == One(HoldStatusOf(status) == Committed)
    && SumBy(db.events, EventFor(ReserveEvent, i)) == 1
    && SumBy(db.events, EventFor(CommitEvent, i)) == One(HoldStatusOf(status) == Committed)
    && SumBy(db.events, EventFor(ReleaseEvent, i)) == One(HoldStatusOf(status) == Released)
    && SumBy(db.recons, EvidenceFor(i, ReconciledCommitted)) == One(status == ReconciledCommitted)
    && SumBy(db.recons, EvidenceFor(i, ReconciledReleased)) == One(status == ReconciledReleased)
  }

  /** Every receipt is for a committed hold and has its own charge of the same amount. */
  predicate Charged(db: Db, j: ReceiptId)
    requires j < |db.receipts| && j < |db.outbox|
  {
    var h := db.receipts[j].hold;
    && h < |db.holds| && db.holds[h].status == Committed && db.receipts[j].amount == db.holds[h].amount
    && db.outbox[j].receipt == j && db.outbox[j].amount == db.receipts[j].amount
  }

  /** What a reconciliation row must carry to justify its status. */
  predicate Evidenced(db: Db, r: ReconciliationEvent)
  {
    && r.invocation < |db.invocations|
    && r.evidenceRef != ""
    && (r.toStatus == ReconciledCommitted ==> r.evidence == DidExecute)
    && (r.toStatus == ReconciledReleased ==> r.evidence == DidNotExecute)
  }

  predicate OneUniverse(db: Db)
  {
    && |db.holds| == |db.invocations|
    && |db.outbox| == |db.receipts|
    && (forall i :: 0 <= i < |db.invocations| ==> Paired(db, i) && Traced(db, i))
    && (forall j :: 0 <= j < |db.receipts| ==> Charged(db, j))
    && (forall e :: 0 <= e < |db.events| && db.events[e].hold.Some? ==> db.events[e].hold.value < |db.holds|)
    && (forall r :: 0 <= r < |db.recons| ==> Evidenced(db, db.recons[r]))
    && SumBy(db.holds, SettledAmount()) == SumBy(db.receipts, ReceiptAmount())
  }

  /** Nothing an old receipt or evidence row refers to is taken back. */
  predicate TracesKept(a: Db, b: Db)
  {
    && |a.holds| <= |b.holds|
    && (forall h :: 0 <= h < |a.holds| && a.holds[h].status == Committed ==> b.holds[h] == a.holds[h])
    && a.receipts <= b.receipts
    && |a.outbox| <= |b.outbox|
    && (forall j :: 0 <= j < |a.outbox| ==>
          b.outbox[j].receipt == a.outbox[j].receipt && b.outbox[j].amount == a.outbox[j].amount)
    && |a.invocations| <= |b.invocations|
    && a.recons <= b.recons
  }

  lemma OldTracesStand(a: Db, b: Db)
    requires OneUniverse(a) && TracesKept(a, b)
    ensures forall j :: 0 <= j < |a.receipts| ==> j < |b.outbox| && Charged(b, j)
    ensures forall r :: 0 <= r < |a.recons| ==> Evidenced(b, b.recons[r])
  {
    forall j | 0 <= j < |a.receipts|
      ensures Charged(b, j)
    {
      assert Charged(a, j);
    }
    forall r | 0 <= r < |a.recons|
      ensures Evidenced(b, b.recons[r])
    {
      assert Evidenced(a, a.recons[r]);
    }
  }

  /** The tables this invariant reads. */
  predicate SameStory(a: Db, b: Db)
  {
    && a.holds == b.holds && a.invocations == b.invocations && a.receipts == b.receipts
    && a.outbox == b.outbox && a.events == b.events && a.recons == b.recons
  }

  lemma SameStorySameUniverse(a: Db, b: Db)
    requires OneUniverse(a) && SameStory(a, b)
    ensures OneUniverse(b)
  {
    forall i | 0 <= i < |b.invocations|
      ensures Paired(b, i) && Traced(b, i)
    {
      assert Paired(a, i) && Traced(a, i);
    }
    OldTracesStand(a, b);
  }

  /** A hold that is not committed has no receipt, and the next receipt has no charge yet. */
  lemma NothingBilledYet(db: Db, h: HoldId)
    requires OneUniverse(db)
    ensures h < |db.holds| && db.holds[h].status != Committed ==> !HasReceipt(db.receipts, h)
    ensures !HasOutboxRow(db.outbox, |db.receipts|)
  {
    forall j | 0 <= j < |db.receipts|
      ensures db.outbox[j].receipt != |db.receipts|
      ensures h < |db.holds| && db.holds[h].status != Committed ==> db.receipts[j].hold != h
    {
      assert Charged(db, j);
    }
  }

  /** An event that names no hold tells no new story. */
  lemma LogKeepsUniverse(db: Db, ev: Event)
    requires OneUniverse(db)
    requires ev.hold.None?
    ensures OneUniverse(db.(events := db.events + [ev]))
  {
    var after := db.(events := db.events + [ev]);
    forall i | 0 <= i < |db.invocations|
      ensures Paired(after, i) && Traced(after, i)
    {
      assert Paired(db, i) && Traced(db, i);
      SumAppend(db.events, ev, EventFor(ReserveEvent, i));
      SumAppend(db.events, ev, EventFor(CommitEvent, i));
      SumAppend(db.events, ev, EventFor(ReleaseEvent, i));
    }
    OldTracesStand(db, after);
  }

  /** Nothing refers to an attempt before it exists. */
  lemma FreshHasNoTraces(db: Db, i: InvocationId)
    requires OneUniverse(db) && i == |db.invocations|
    ensures SumBy(db.receipts, ReceiptFor(i)) == 0
    ensures forall kind :: SumBy(db.events, EventFor(kind, i)) == 0
    ensures forall status :: SumBy(db.recons, EvidenceFor(i, status)) == 0
  {
    forall j | 0 <= j < |db.receipts|
      ensures ReceiptFor(i)(db.receipts[j]) == 0
    {
      assert Charged(db, j);
    }
    SumZero(db.receipts, ReceiptFor(i));
    forall kind
      ensures SumBy(db.events, EventFor(kind, i)) == 0
    {
      SumZero(db.events, EventFor(kind, i));
    }
    forall status
      ensures SumBy(db.recons, EvidenceFor(i, status)) == 0
    {
      forall r | 0 <= r < |db.recons|
        ensures EvidenceFor(i, status)(db.recons[r]) == 0
      {
        assert Evidenced(db, db.recons[r]);
      }
      SumZero(db.recons, EvidenceFor(i, status));
    }
  }

  lemma OpenKeepsUniverse(db: Db, r: Request, now: Time)
    requires OneUniverse(db)
    requires r.mandate < |db.mandates| && r.amount >= 0
    ensures OneUniverse(Open(db, r, now))
  {
    var after := Open(db, r, now);
    var n, ev := |db.invocations|, after.events[|db.events|];
    FreshHasNoTraces(db, n);
    forall i | 0 <= i < |after.invocations|
      ensures Paired(after, i) && Traced(after, i)
    {
      if i < n {
        assert Paired(db, i) && Traced(db, i);
      }
      SumAppend(db.events, ev, EventFor(ReserveEvent, i));
      SumAppend(db.events, ev, EventFor(CommitEvent, i));
      SumAppend(db.events, ev, EventFor(ReleaseEvent, i));
    }
    OldTracesStand(db, after);
    SumAppend(db.holds, after.holds[n], SettledAmount());
  }

  /** Moving between open statuses tells the same story. */
  lemma OpenMoveKeepsUniverse(db: Db, i: InvocationId, status: InvocationStatus)
    requires OneUniverse(db)
    requires i < |db.invocations| && IsOpen(db.invocations[i].status) && IsOpen(status) && status != ExecutedOk
    ensures OneUniverse(WithStatus(db, i, status))
  {
    var after := WithStatus(db, i, status);
    forall k | 0 <= k < |after.invocations|
      ensures Paired(after, k) && Traced(after, k)
    {
      assert Paired(db, k) && Traced(db, k);
    }
    OldTracesStand(db, after);
  }

  /** The evidence rows a step may add for attempt i. */
  predicate EvidenceStep(db: Db, recons: seq<ReconciliationEvent>, i: InvocationId, to: InvocationStatus)
  {
    if to in {ReconciledCommitted, ReconciledReleased}
    then
      && |recons| == |db.recons| + 1
      && recons[..|db.recons|] == db.recons
      && recons[|db.recons|].invocation == i && recons[|db.recons|].toStatus == to
      && Evidenced(db, recons[|db.recons|])
    else recons == db.recons
  }

  lemma EvidenceCounts(db: Db, recons: seq<ReconciliationEvent>, i: InvocationId, to: InvocationStatus,
                       k: InvocationId, status: InvocationStatus)
    requires EvidenceStep(db, recons, i, to)
    requires status in {ReconciledCommitted, ReconciledReleased}
    ensures SumBy(recons, EvidenceFor(k, status)) == SumBy(db.recons, EvidenceFor(k, status)) + One(k == i && status == to)
  {
  }

  predicate IsEnding(status: InvocationStatus)
  {
    !IsOpen(status)
  }

  /** The next event says that hold i ended so. */
  predicate EndLogged(a: Db, b: Db, i: InvocationId, ended: HoldStatus)
  {
    && |b.events| == |a.events| + 1 && b.events[..|a.events|] == a.events
    && b.events[|a.events|].kind == (if ended == Committed then CommitEvent else ReleaseEvent)
    && b.events[|a.events|].hold == Some(i)
  }

  /** A commit adds one receipt and its charge; a release adds neither. */
  predicate BilledOnce(a: Db, b: Db, i: InvocationId, ended: HoldStatus)
    requires i < |a.invocations|
  {
    var inv := a.invocations[i];
    if ended == Committed then
      && b.receipts == a.receipts + [Receipt(inv.principal, inv.mandate, i, inv.amount)]
      && |b.outbox| == |a.outbox| + 1 && b.outbox[..|a.outbox|] == a.outbox
      && b.outbox[|a.outbox|].receipt == |a.receipts| && b.outbox[|a.outbox|].amount == inv.amount
    else b.receipts == a.receipts && b.outbox == a.outbox
  }

  /** Attempt i and its hold end with status `to`, and every table hears of it once. */
  predicate Ends(a: Db, b: Db, i: InvocationId, to: InvocationStatus)
    requires i < |a.invocations| && i < |a.holds|
  {
    && b.invocations == a.invocations[i := a.invocations[i].(status := to)]
    && b.holds == a.holds[i := a.holds[i].(status := HoldStatusOf(to))]
    && EndLogged(a, b, i, HoldStatusOf(to))
    && BilledOnce(a, b, i, HoldStatusOf(to))
    && EvidenceStep(a, b.recons, i, to)
  }

  lemma EndedIsPaired(a: Db, b: Db, i: InvocationId, to: InvocationStatus, k: InvocationId)
    requires OneUniverse(a) && i < |a.invocations| && k < |a.invocations|
    requires IsEnding(to) && Ends(a, b, i, to)
    ensures Paired(b, k)
  {
    assert Paired(a, i) && Paired(a, k);
  }

  lemma EndedIsTraced(a: Db, b: Db, i: InvocationId, to: InvocationStatus, k: InvocationId)
    requires OneUniverse(a) && i < |a.invocations| && k < |a.invocations|
    requires IsOpen(a.invocations[i].status) && IsEnding(to) && Ends(a, b, i, to)
    ensures Traced(b, k)
  {
    assert Traced(a, i) && Traced(a, k);
    EndedIsLogged(a, b, i, HoldStatusOf(to), k);
    EndedIsReceipted(a, b, i, HoldStatusOf(to), k);
    EvidenceCounts(a, b.recons, i, to, k, ReconciledCommitted);
    EvidenceCounts(a, b.recons, i, to, k, ReconciledReleased);
  }

  lemma EndedIsReceipted(a: Db, b: Db, i: InvocationId, ended: HoldStatus, k: InvocationId)
    requires i < |a.invocations| && BilledOnce(a, b, i, ended)
    ensures SumBy(b.receipts, ReceiptFor(k)) == SumBy(a.receipts, ReceiptFor(k)) + One(k == i && ended == Committed)
  {
    if ended == Committed {
      SumAppend(a.receipts, b.receipts[|a.receipts|], ReceiptFor(k));
    }
  }

  lemma EndedIsLogged(a: Db, b: Db, i: InvocationId, ended: HoldStatus, k: InvocationId)
    requires EndLogged(a, b, i, ended)
    ensures SumBy(b.events, EventFor(ReserveEvent, k)) == SumBy(a.events, EventFor(ReserveEvent, k))
    ensures SumBy(b.events, EventFor(CommitEvent, k)) == SumBy(a.events, EventFor(CommitEvent, k)) + One(k == i && ended == Committed)
    ensures SumBy(b.events, EventFor(ReleaseEvent, k)) == SumBy(a.events, EventFor(ReleaseEvent, k)) + One(k == i && ended != Committed)
  {
    var ev := b.events[|a.events|];
    assert b.events == a.events + [ev];
    SumAppend(a.events, ev, EventFor(ReserveEvent, k));
    SumAppend(a.events, ev, EventFor(CommitEvent, k));
    SumAppend(a.events, ev, EventFor(ReleaseEvent, k));
  }

  /** A settled hold adds its amount to what is committed as its receipt adds to what is receipted. */
  lemma EndedIsPaid(a: Db, b: Db, i: InvocationId, to: InvocationStatus)
    requires OneUniverse(a) && i < |a.invocations| && IsOpen(a.invocations[i].status)
    requires IsEnding(to) && Ends(a, b, i, to)
    ensures SumBy(b.holds, SettledAmount()) == SumBy(b.receipts, ReceiptAmount())
  {
    assert Paired(a, i);
    SumUpdate(a.holds, i, b.holds[i], SettledAmount());
    if HoldStatusOf(to) == Committed {
      SumAppend(a.receipts, b.receipts[|a.receipts|], ReceiptAmount());
    }
  }

  lemma EndedIsCharged(a: Db, b: Db, i: InvocationId, to: InvocationStatus)
    requires OneUniverse(a) && i < |a.invocations| && IsOpen(a.invocations[i].status)
    requires IsEnding(to) && Ends(a, b, i, to)
    ensures |b.outbox| == |b.receipts| && forall j :: 0 <= j < |b.receipts| ==> Charged(b, j)
    ensures forall r :: 0 <= r < |b.recons| ==> Evidenced(b, b.recons[r])
  {
    assert Paired(a, i);
    OldTracesStand(a, b);
  }

  /** Ending an open attempt once, in every table, keeps one universe. */
  lemma EndKeepsUniverse(a: Db, b: Db, i: InvocationId, to: InvocationStatus)
    requires OneUniverse(a) && i < |a.invocations| && IsOpen(a.invocations[i].status)
    requires IsEnding(to) && Ends(a, b, i, to)
    ensures OneUniverse(b)
  {
    forall k | 0 <= k < |b.invocations|
      ensures Paired(b, k) && Traced(b, k)
    {
      EndedIsPaired(a, b, i, to, k);
      EndedIsTraced(a, b, i, to, k);
    }
    EndedIsPaid(a, b, i, to);
    EndedIsCharged(a, b, i, to);
  }

  /** Committing an open attempt with its bill, and its evidence if an operator did it. */
  function Settled(db: Db, i: InvocationId, to: InvocationStatus, x: Ending, recons: seq<ReconciliationEvent>): Db
    requires i < |db.invocations| && i < |db.holds|
  {
    Settle(WithStatus(db, i, to), i, db.invocations[i], x).(recons := recons)
  }

  lemma SettleKeepsUniverse(db: Db, i: InvocationId, to: InvocationStatus, x: Ending, recons: seq<ReconciliationEvent>)
    requires OneUniverse(db)
    requires i < |db.invocations| && IsOpen(db.invocations[i].status)
    requires to in {InvCommitted, ReconciledCommitted}
    requires EvidenceStep(db, recons, i, to)
    ensures OneUniverse(Settled(db, i, to, x, recons))
  {
    NothingBilledYet(db, i);
    assert Ends(db, Settled(db, i, to, x, recons), i, to);
    EndKeepsUniverse(db, Settled(db, i, to, x, recons), i, to);
  }

  /** Releasing an open attempt, and its evidence if an operator did it. */
  function Unwound(db: Db, i: InvocationId, to: InvocationStatus, recons: seq<ReconciliationEvent>): Db
    requires i < |db.invocations| && i < |db.holds|
  {
    Unwind(WithStatus(db, i, to), i, db.invocations[i]).(recons := recons)
  }

  lemma UnwindKeepsUniverse(db: Db, i: InvocationId, to: InvocationStatus, recons: seq<ReconciliationEvent>)
    requires OneUniverse(db)
    requires i < |db.invocations| && IsOpen(db.invocations[i].status)
    requires to in {InvReleased, ReconciledReleased}
    requires EvidenceStep(db, recons, i, to)
    ensures OneUniverse(Unwound(db, i, to, recons))
  {
    assert Ends(db, Unwound(db, i, to, recons), i, to);
    EndKeepsUniverse(db, Unwound(db, i, to, recons), i, to);
  }

  /** Delivery progress of the outbox is no part of the story: only receipt and amount are. */
  lemma DeliveryKeepsUniverse(db: Db, outbox: seq<OutboxRow>)
    requires OneUniverse(db)
    requires |outbox| == |db.outbox|
    requires forall j :: 0 <= j < |outbox| ==> outbox[j].receipt == db.outbox[j].receipt && outbox[j].amount == db.outbox[j].amount
    ensures OneUniverse(db.(outbox := outbox))
  {
    var after := db.(outbox := outbox);
    forall i | 0 <= i < |after.invocations|
      ensures Paired(after, i) && Traced(after, i)
    {
      assert Paired(db, i) && Traced(db, i);
    }
    OldTracesStand(db, after);
  }

  // ----- the committed units -----

  lemma FinalizeSuccessKeepsUniverse(db: Db, i: InvocationId, x: Ending)
    requires OneUniverse(db) && i < |db.invocations|
    ensures OneUniverse(FinalizeSuccess(db, i, i, x).0)
    ensures !FinalizeSuccess(db, i, i, x).1.Aborted?
  {
    NothingBilledYet(db, i);
    assert Paired(db, i);
    if FinalizeSuccess(db, i, i, x).1.Won? {
      SettleKeepsUniverse(db, i, InvCommitted, x, db.recons);
    }
  }

  lemma FinalizeReleaseKeepsUniverse(db: Db, i: InvocationId)
    requires OneUniverse(db) && i < |db.invocations|
    ensures OneUniverse(FinalizeRelease(db, i, HoldOf(db, i), {Reserved}).0)
  {
    assert Paired(db, i);
    if FinalizeRelease(db, i, HoldOf(db, i), {Reserved}).1.Won? {
      UnwindKeepsUniverse(db, i, InvReleased, db.recons);
    }
  }

  lemma RecoverKeepsUniverse(db: Db, i: InvocationId, snapshot: InvocationStatus, release: bool)
    requires OneUniverse(db) && i < |db.invocations|
    ensures OneUniverse(RecoverReserved(db, i, snapshot, release))
  {
    FinalizeReleaseKeepsUniverse(db, i);
    if HasStatus(db, i, {Reserved, Executing}) {
      OpenMoveKeepsUniverse(db, i, Ambiguous);
    }
  }

  lemma ReconcileCommitKeepsUniverse(db: Db, i: InvocationId, copy: HoldStatus, e: Evidence, x: Ending)
    requires OneUniverse(db) && i < |db.invocations|
    ensures OneUniverse(ReconcileCommit(db, i, copy, e, x).0)
  {
    var (after, out) := ReconcileCommit(db, i, copy, e, x);
    assert Paired(db, i);
    NothingBilledYet(db, i);
    if out.Won? {
      SettleKeepsUniverse(db, i, ReconciledCommitted, x, after.recons);
    }
  }

  lemma ReconcileReleaseKeepsUniverse(db: Db, i: InvocationId, copy: HoldStatus, e: Evidence)
    requires OneUniverse(db) && i < |db.invocations|
    ensures OneUniverse(ReconcileRelease(db, i, copy, e).0)
  {
    var (after, out) := ReconcileRelease(db, i, copy, e);
    assert Paired(db, i);
    if out.Won? {
      UnwindKeepsUniverse(db, i, ReconciledReleased, after.recons);
    }
  }

  // ----- what the invariant means -----

  function ChargeFor(receipts: seq<Receipt>, h: HoldId): OutboxRow -> int
  {
    (row: OutboxRow) => One(row.receipt < |receipts| && receipts[row.receipt].hold == h)
  }

  /** An attempt is in exactly one universe, and all tables agree which. */
  lemma UniverseReadOff(db: Db, i: InvocationId)
    requires OneUniverse(db) && i < |db.invocations|
    ensures var status := db.invocations[i].status;
            var committed := HoldStatusOf(status) == Committed;
            && db.holds[i].status == HoldStatusOf(status)
            && SumBy(db.receipts, ReceiptFor(i)) == SumBy(db.outbox, ChargeFor(db.receipts, i))
               == SumBy(db.events, EventFor(CommitEvent, i)) == One(committed)
            && SumBy(db.events, EventFor(ReleaseEvent, i)) == One(HoldStatusOf(status) == Released)
  {
    assert Paired(db, i) && Traced(db, i);
    forall j | 0 <= j < |db.receipts|
      ensures ReceiptFor(i)(db.receipts[j]) == ChargeFor(db.receipts, i)(db.outbox[j])
    {
      assert Charged(db, j);
    }
    SumEqual(db.receipts, db.outbox, ReceiptFor(i), ChargeFor(db.receipts, i));
  }

  /** Money committed, receipted and enqueued for billing is the same money. */
  lemma BillingAgrees(db: Db)
    requires OneUniverse(db)
    ensures SumBy(db.holds, SettledAmount()) == SumBy(db.receipts, ReceiptAmount()) == SumBy(db.outbox, ChargeAmount())
  {
    forall j | 0 <= j < |db.receipts|
      ensures ReceiptAmount()(db.receipts[j]) == ChargeAmount()(db.outbox[j])
    {
      assert Charged(db, j);
    }
    SumEqual(db.receipts, db.outbox, ReceiptAmount(), ChargeAmount());
  }
}
