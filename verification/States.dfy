// What the books and the story say of a single state. Runs.dfy states each for every reachable one.
module States {
  import opened Model
  import opened Sums
  import opened LedgerSpec
  import opened Lifecycle
  import opened Invariants
  import opened Story
  import Policy
  import SignedState
  import Mandates
  import Money
  import Universe
  import Keys
  import Outbox
  import History

  // ----- attempts and claims -----

  /** An attempt keeps its terms, and once committed or released it stays as it ended. */
  predicate Outlives(a: Invocation, b: Invocation)
  {
    b == a.(status := b.status) && (!Universe.IsOpen(a.status) ==> b.status == a.status)
  }

  predicate AttemptsExtend(before: seq<Invocation>, after: seq<Invocation>)
  {
    |before| <= |after| && forall i :: 0 <= i < |before| ==> Outlives(before[i], after[i])
  }

  lemma ExtendsTransitively(a: seq<Invocation>, b: seq<Invocation>, c: seq<Invocation>)
    requires History.AttemptsContinue(a, b) && AttemptsExtend(b, c)
    ensures AttemptsExtend(a, c)
  {
    forall i | 0 <= i < |a|
      ensures Outlives(a[i], c[i])
    {
      assert History.Continues(a[i], b[i]) && Outlives(b[i], c[i]);
    }
  }

  /** The attempt was committed, and every other attempt with its key was released. */
  predicate ChargedAlone(db: Db, i: InvocationId)
  {
    && i < |db.invocations|
    && Universe.HoldStatusOf(db.invocations[i].status) == Committed
    && forall j :: 0 <= j < |db.invocations| && j != i && Keys.SameKey(db.invocations[i], db.invocations[j])
         ==> Universe.HoldStatusOf(db.invocations[j].status) == Released
  }

  /** Under one key at most the committed attempt is live: all others were released. */
  lemma CommittedIsAlone(db: Db, i: InvocationId, j: InvocationId)
    requires KeysHeld(db) && i < |db.invocations| && j < |db.invocations| && i != j
    requires Keys.IsLive(db.invocations[i]) && Keys.SameKey(db.invocations[i], db.invocations[j])
    ensures Universe.HoldStatusOf(db.invocations[j].status) == Released
  {
    var ck := ClaimKeyOf(db.invocations[i].principal, db.invocations[i].key);
    Keys.LiveAttemptIsAlone(db.invocations, db.claims, i, ck);
    assert Keys.UsesKey(db.invocations[j], ck);
  }

  lemma CommittedStaysAlone(a: Db, b: Db, i: InvocationId)
    requires KeysHeld(b) && AttemptsExtend(a.invocations, b.invocations)
    requires i < |a.invocations| && Universe.HoldStatusOf(a.invocations[i].status) == Committed
    ensures ChargedAlone(b, i)
  {
    assert Outlives(a.invocations[i], b.invocations[i]);
    forall j | 0 <= j < |b.invocations| && j != i && Keys.SameKey(b.invocations[i], b.invocations[j])
      ensures Universe.HoldStatusOf(b.invocations[j].status) == Released
    {
      CommittedIsAlone(b, i, j);
    }
  }

  /** A claim exists exactly while one attempt with its key is live, and tells how that one ended. */
  predicate ClaimFollowsAttempts(db: Db, ck: ClaimKey)
  {
    && (ck in db.claims <==> exists i :: 0 <= i < |db.invocations| && Keys.HoldsClaim(db.invocations[i], ck))
    && (forall i, j | 0 <= i < |db.invocations| && 0 <= j < |db.invocations| ::
          Keys.HoldsClaim(db.invocations[i], ck) && Keys.HoldsClaim(db.invocations[j], ck) ==> i == j)
    && (forall i | 0 <= i < |db.invocations| && Keys.HoldsClaim(db.invocations[i], ck) ::
          db.claims[ck].status == ClaimCompleted <==> Universe.HoldStatusOf(db.invocations[i].status) == Committed)
  }

  lemma ClaimsFollow(db: Db, ck: ClaimKey)
    requires KeysHeld(db)
    ensures ClaimFollowsAttempts(db, ck)
  {
    Keys.ClaimIsHeldByOne(db.invocations, db.claims, ck);
    forall i | 0 <= i < |db.invocations| && Keys.HoldsClaim(db.invocations[i], ck)
      ensures db.claims[ck].status == ClaimCompleted <==> Universe.HoldStatusOf(db.invocations[i].status) == Committed
    {
      assert Keys.ClaimTellsEnding(db.invocations, db.claims, i);
    }
  }

  /** The key is claimed by a completed operation that stored no result. */
  predicate EndedWithoutResult(db: Db, ck: ClaimKey)
  {
    Keys.CompletedFor(db.claims, ck) && !Present(db.claims[ck].result)
  }

  /**
   * The key is closed: neither claim check replays it or lets a call through. A call with it is told
   * that it conflicts, if its hash differs from the one stored, and otherwise to wait.
   */
  ghost predicate IsClosed(db: Db, ck: ClaimKey, stored: Option<string>, r: Request)
  {
    && ck in db.claims
    && LoadIdem(db, ck.principal, r)
       == (if Present(stored) && stored != r.hash then Denied(IdempotencyConflict, true) else Denied(InProgress, false))
    && ExistingClaim(db.claims[ck], r.hash)
       == ReserveDenied(if Present(stored) && Present(r.hash) && stored != r.hash then IdempotencyConflict else InProgress)
    && (Reservable(db, r) && db.mandates[r.mandate].principal == ck.principal ==>
          forall copy, now, later :: ReserveCall(db, r, copy, now, later).1.ReserveDenied?)
  }

  lemma EndedWithoutResultIsClosed(db: Db, ck: ClaimKey, r: Request)
    requires EndedWithoutResult(db, ck) && r.key == Some(ck.key) && ck.key != ""
    ensures IsClosed(db, ck, db.claims[ck].hash, r)
  {
  }

  /** Reconciling with no result to store, as the HTTP route does, ends the key without one. */
  lemma CommitWithoutResult(db: Db, i: InvocationId, copy: HoldStatus, e: Evidence, x: Ending)
    requires i < |db.invocations| && Present(db.invocations[i].key) && x.result.None?
    requires ReconcileCommit(db, i, copy, e, x).1.Won?
    ensures var after := Perform(db, EvidenceCommit(i, copy, e, x));
            var ck := ClaimKeyOf(db.invocations[i].principal, db.invocations[i].key);
            EndedWithoutResult(after, ck)
            && (Present(db.invocations[i].hash) ==> after.claims[ck].hash == db.invocations[i].hash)
  {
    EconomicsComplete(WithStatus(db, i, ReconciledCommitted), HoldOf(db, i).value, db.invocations[i], x);
  }

  // ----- dispatch -----

  /** An operator recorded, with a reference, that the attempt did not execute. */
  predicate ProvedNotExecuted(db: Db, i: InvocationId)
  {
    exists r :: 0 <= r < |db.recons|
      && db.recons[r].invocation == i && db.recons[r].toStatus == ReconciledReleased
      && db.recons[r].evidence == DidNotExecute && db.recons[r].evidenceRef != ""
  }

  lemma ReleaseByReconciliationIsProved(db: Db, i: InvocationId)
    requires Universe.OneUniverse(db) && i < |db.invocations| && db.invocations[i].status == ReconciledReleased
    ensures ProvedNotExecuted(db, i)
  {
    assert Universe.Traced(db, i);
    var weight := Universe.EvidenceFor(i, ReconciledReleased);
    if forall r :: 0 <= r < |db.recons| ==> weight(db.recons[r]) == 0 {
      SumZero(db.recons, weight);
    } else {
      var r :| 0 <= r < |db.recons| && weight(db.recons[r]) != 0;
      assert Universe.Evidenced(db, db.recons[r]);
    }
  }

  predicate ReleasedOnProof(db: Db, i: InvocationId)
  {
    i < |db.invocations| && db.invocations[i].status == ReconciledReleased && ProvedNotExecuted(db, i)
  }

  /** The attempt was entered by a committed update, and if its hold was released, then on proof. */
  predicate DispatchedSafely(w: World, i: InvocationId)
  {
    && i in w.entered && i < |w.db.invocations| && i < |w.db.holds|
    && w.db.invocations[i].status != Reserved
    && (w.db.holds[i].status == Released ==> ReleasedOnProof(w.db, i))
  }

  lemma DispatchIsSafe(w: World, i: InvocationId)
    requires Universe.OneUniverse(w.db) && Barrier(w) && i in w.dispatched
    ensures DispatchedSafely(w, i)
  {
    assert i in w.entered && i < |w.db.invocations| && PastBarrier(w.db.invocations[i].status);
    assert Universe.Paired(w.db, i);
    if w.db.holds[i].status == Released {
      ReleaseByReconciliationIsProved(w.db, i);
    }
  }

  lemma EarlierDispatchWasReleased(w: World, i: InvocationId, j: InvocationId)
    requires Universe.OneUniverse(w.db) && Barrier(w) && KeysHeld(w.db)
    requires i in w.dispatched && j in w.dispatched && i < j && j < |w.db.invocations|
    requires Keys.SameKey(w.db.invocations[i], w.db.invocations[j])
    ensures ReleasedOnProof(w.db, i)
  {
    DispatchIsSafe(w, i);
    assert Universe.Paired(w.db, i);
  }

  // ----- billing -----

  /**
   * Committed holds, receipts and charges are the same money; Stripe metered no more than that, and
   * exactly that if every charge is sent.
   */
  predicate BilledOnce(w: World)
  {
    var spent := SumBy(w.db.holds, Universe.SettledAmount());
    && spent == SumBy(w.db.receipts, Universe.ReceiptAmount()) == SumBy(w.db.outbox, Universe.ChargeAmount())
    && (forall r :: r in w.stripe ==> r < |w.db.receipts|)
    && 0 <= Outbox.MeterTotal(w.stripe, |w.db.receipts|) <= spent
    && ((forall j :: 0 <= j < |w.db.outbox| ==> w.db.outbox[j].status == Sent)
          ==> Outbox.MeterTotal(w.stripe, |w.db.receipts|) == spent)
  }

  lemma BillingAgrees(w: World)
    requires Universe.OneUniverse(w.db) && Outbox.Sound(DeskOf(w))
    ensures BilledOnce(w)
  {
    var d := DeskOf(w);
    Universe.BillingAgrees(w.db);
    forall j | 0 <= j < |d.rows|
      ensures d.rows[j].amount >= 0
    {
      assert Universe.Charged(w.db, j);
      assert Universe.Paired(w.db, w.db.receipts[j].hold);
    }
    Outbox.MeterNeverExceedsCharges(d, |d.rows|);
    assert d.rows[..|d.rows|] == d.rows;
    SumEqual(d.rows, d.rows, Outbox.ChargedAmount(), Universe.ChargeAmount());
  }

  // ----- policy -----

  /** The attempt's price and date are within what mandate a allows, and so are its tool and server unless one escapes. */
  predicate SpendWithin(db: Db, i: InvocationId, a: MandateId)
    requires i < |db.invocations| && a < |db.mandates|
  {
    var inv, ancestor := db.invocations[i], db.mandates[a];
    && i < |db.holds| && inv.amount <= ancestor.maxCall
    && Unexpired(ancestor, db.holds[i].at)
    && (!Mandates.EscapesOnChain(db.mandates, Mandates.Tools, inv.mandate, a) ==> Policy.Allows(ancestor.tools, inv.tool))
    && (!Mandates.EscapesOnChain(db.mandates, Mandates.Servers, inv.mandate, a) ==> Policy.Allows(ancestor.servers, inv.server))
  }

  lemma SpendIsWithin(db: Db, i: InvocationId, a: MandateId)
    requires Delegated(db) && i < |db.invocations| && LawfulAttempt(db, i)
    requires a < |db.mandates| && Mandates.OnChain(db.mandates, db.invocations[i].mandate, a)
    ensures SpendWithin(db, i, a)
  {
    var inv := db.invocations[i];
    Mandates.LimitsNarrowDownTheTree(db.agents, db.mandates, inv.mandate, a);
    if !Mandates.EscapesOnChain(db.mandates, Mandates.Tools, inv.mandate, a) {
      Mandates.NoEscapeStaysWithin(db.agents, db.mandates, Mandates.Tools, inv.mandate, a, inv.tool);
    }
    if !Mandates.EscapesOnChain(db.mandates, Mandates.Servers, inv.mandate, a) {
      Mandates.NoEscapeStaysWithin(db.agents, db.mandates, Mandates.Servers, inv.mandate, a, inv.server);
    }
  }

  /** What a spend asks of a mandate's list of that kind. */
  function NameOn(inv: Invocation, which: Mandates.ListName): string
  {
    if which.Tools? then inv.tool else inv.server
  }

  /** The spend is on the list of its mandate and of every ancestor. */
  ghost predicate ListedUpTheChain(db: Db, inv: Invocation, which: Mandates.ListName)
  {
    forall a: MandateId :: a < |db.mandates| && Mandates.OnChain(db.mandates, inv.mandate, a)
      ==> Policy.Allows(Mandates.ListOf(db.mandates[a], which), NameOn(inv, which))
  }

  lemma SpendIsListed(db: Db, i: InvocationId, root: MandateId, which: Mandates.ListName)
    requires Delegated(db) && i < |db.invocations| && LawfulAttempt(db, i)
    requires Mandates.IsRoot(db.mandates, root) && Mandates.OnChain(db.mandates, db.invocations[i].mandate, root)
    ensures ListedUpTheChain(db, db.invocations[i], which)
            <==> !Mandates.EscapesOnChain(db.mandates, which, db.invocations[i].mandate, root)
  {
    var inv := db.invocations[i];
    if Mandates.EscapesOnChain(db.mandates, which, inv.mandate, root) {
      var e := Mandates.EscapeHasEmptyAncestor(db.mandates, which, inv.mandate, root);
      assert !Policy.Allows(Mandates.ListOf(db.mandates[e], which), NameOn(inv, which));
    } else {
      forall a: MandateId | a < |db.mandates| && Mandates.OnChain(db.mandates, inv.mandate, a)
        ensures Policy.Allows(Mandates.ListOf(db.mandates[a], which), NameOn(inv, which))
      {
        Mandates.EscapeBelow(db.mandates, which, inv.mandate, a, root);
        Mandates.NoEscapeStaysWithin(db.agents, db.mandates, which, inv.mandate, a, NameOn(inv, which));
      }
    }
  }

  // ----- revoked mandates -----

  /** From one state to a later one, nothing was newly held, debited or escrowed on mandate m. */
  predicate NothingSpent(a: Db, b: Db, m: MandateId)
  {
    && |a.holds| <= |b.holds| && (forall h :: |a.holds| <= h < |b.holds| ==> b.holds[h].mandate != m)
    && |a.mandates| <= |b.mandates| && (forall c :: |a.mandates| <= c < |b.mandates| ==> b.mandates[c].parent != Some(m))
    && |a.events| <= |b.events|
    && (forall e :: |a.events| <= e < |b.events| && b.events[e].mandate == m ==>
          !b.events[e].kind.ReserveEvent? && !b.events[e].kind.EscrowEvent?)
  }

  lemma RevokedSpendsNothing(a: Db, b: Db, m: MandateId)
    requires History.Kept(a, b) && History.IsRevoked(a.mandates, m)
    ensures NothingSpent(a, b, m) && History.IsRevoked(b.mandates, m)
  {
  }

  /** With no new hold or child, a mandate's balance can only be refunded. */
  lemma RevokedKeepsItsMoney(a: Db, b: Db, m: MandateId)
    requires MoneyConserved(a) && MoneyConserved(b) && History.Kept(a, b) && History.IsRevoked(a.mandates, m)
    ensures m < |b.mandates| && b.mandates[m].remaining >= a.mandates[m].remaining
  {
    RevokedSpendsNothing(a, b, m);
    assert Money.Balanced(a.mandates, a.holds, a.events, m) && Money.Balanced(b.mandates, b.holds, b.events, m);
    assert Mandates.Columns(b.mandates[m]).limit == Mandates.Columns(a.mandates[m]).limit;
    SumPrefix(b.holds, |a.holds|, Money.LiveAmount(m));
    forall h | 0 <= h < |a.holds|
      ensures Money.LiveAmount(m)(b.holds[..|a.holds|][h]) <= Money.LiveAmount(m)(a.holds[h])
    {
      assert History.HoldContinues(a.holds[h], b.holds[h]);
    }
    SumAtMost(b.holds[..|a.holds|], a.holds, Money.LiveAmount(m), Money.LiveAmount(m));
    SameChildren(a, b, m);
  }

  lemma SameChildren(a: Db, b: Db, m: MandateId)
    requires Mandates.Extends(a.mandates, b.mandates) && NothingSpent(a, b, m)
    ensures SumBy(b.mandates, Money.ChildLimit(m)) == SumBy(a.mandates, Money.ChildLimit(m))
  {
    SumPrefix(b.mandates, |a.mandates|, Money.ChildLimit(m));
    forall c | 0 <= c < |a.mandates|
      ensures Money.ChildLimit(m)(b.mandates[..|a.mandates|][c]) == Money.ChildLimit(m)(a.mandates[c])
    {
      assert Mandates.Columns(b.mandates[c]).limit == Mandates.Columns(a.mandates[c]).limit;
      assert Mandates.Columns(b.mandates[c]).parent == Mandates.Columns(a.mandates[c]).parent;
    }
    SumEqual(b.mandates[..|a.mandates|], a.mandates, Money.ChildLimit(m), Money.ChildLimit(m));
  }

  // ----- signed state -----

  /** A row verifies for good; other columns under its signature verify exactly if they state its terms. */
  lemma SignedStateStays(a: Db, b: Db, m: MandateId, altered: Mandate)
    requires Delegated(a) && Delegated(b) && History.Kept(a, b)
    requires m < |a.mandates| && altered.signed == a.mandates[m].signed
    ensures m < |b.mandates| && SignedState.Check(b.mandates[m])
    ensures SignedState.Check(altered) <==> SignedState.SameTerms(a.mandates[m], altered)
  {
    assert Mandates.WellDelegatedRow(b.agents, b.mandates, m);
    assert Mandates.WellDelegatedRow(a.agents, a.mandates, m);
    SignedState.CheckAcceptsIffSameTerms(a.mandates[m], altered);
  }

  lemma VerifiesForGood(a: Db, b: Db, m: MandateId, signatureOk: bool)
    requires Delegated(a) && Delegated(b) && History.Kept(a, b) && m < |a.mandates|
    ensures m < |b.mandates| && b.mandates[m].key == a.mandates[m].key
    ensures a.mandates[m].key in Mandates.BoundKeys(a.principals, a.mandates[m].principal)
    ensures Mandates.VerifyStored(b.principals, b.mandates[m], signatureOk)
            == if signatureOk then None else Some(MandateForged)
  {
    assert Mandates.WellDelegatedRow(b.agents, b.mandates, m);
    assert Mandates.Columns(b.mandates[m]).key == Mandates.Columns(a.mandates[m]).key;
  }
}
