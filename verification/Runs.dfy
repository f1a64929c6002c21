// The main results: what holds in every state any interleaving reaches, and over whole runs.
module Runs {
  import opened Model
  import opened Sums
  import opened LedgerSpec
  import opened Lifecycle
  import opened Invariants
  import opened Story
  import SignedState
  import Identity
  import Mandates
  import Money
  import Universe
  import Keys
  import Fees
  import Nonces
  import Outbox
  import Retries
  import Revocation
  import History
  import opened States

  lemma {:induction false} RunKeepsBooks(w: World, labels: seq<Label>)
    requires Books(w.db)
    ensures Books(Run(w, labels).db)
    ensures Keys.CompletedKept(w.db.claims, Run(w, labels).db.claims)
    decreases labels
  {
    if labels != [] {
      StepKeepsBooks(w, labels[0]);
      RunKeepsBooks(Apply(w, labels[0]), labels[1..]);
    }
  }

  lemma {:induction false} RunKeepsAttempts(w: World, labels: seq<Label>)
    ensures AttemptsExtend(w.db.invocations, Run(w, labels).db.invocations)
    decreases labels
  {
    if labels != [] {
      var next := Apply(w, labels[0]);
      History.StepFollows(w, labels[0]);
      RunKeepsAttempts(next, labels[1..]);
      ExtendsTransitively(w.db.invocations, next.db.invocations, Run(next, labels[1..]).db.invocations);
    }
  }

  /** The invariance rule: what every step but the helpers' keeps, every such run keeps. */
  lemma {:induction false} Invariance(p: World -> bool, w: World, labels: seq<Label>)
    requires forall v: World, l: Label :: p(v) && !IsHelper(l) ==> p(Apply(v, l))
    requires p(w) && NoHelpers(labels)
    ensures p(Run(w, labels))
    decreases labels
  {
    if labels != [] {
      Invariance(p, Apply(w, labels[0]), labels[1..]);
    }
  }

  lemma RunKeepsStory(w: World, labels: seq<Label>)
    requires Story.Story(w) && NoHelpers(labels)
    ensures Story.Story(Run(w, labels))
  {
    forall v: World, l: Label | Story.Story(v) && !IsHelper(l)
      ensures Story.Story(Apply(v, l))
    {
      StepKeepsStory(v, l);
    }
    Invariance(Story.Story, w, labels);
  }

  lemma Reachable(labels: seq<Label>) returns (w: World)
    ensures w == Run(START, labels)
    ensures Books(w.db)
    ensures NoHelpers(labels) ==> Story.Story(w)
  {
    w := Run(START, labels);
    EmptyHasBooks();
    RunKeepsBooks(START, labels);
    if NoHelpers(labels) {
      StartHasStory();
      RunKeepsStory(START, labels);
    }
  }

  /** Two points of one run: both have the books, and the later one keeps the earlier one's rows. */
  lemma ReachableLater(before: seq<Label>, rest: seq<Label>) returns (w: World, later: World)
    ensures w == Run(START, before) && later == Run(START, before + rest)
    ensures Books(w.db) && Books(later.db) && History.Kept(w.db, later.db)
  {
    w := Reachable(before);
    later := Run(w, rest);
    RunKeepsBooks(w, rest);
    History.RunKeeps(w, rest);
    RunInTwoParts(START, before, rest);
  }

  // ----- money -----

  /**
   * Conservation, whatever is interleaved, the low-level helpers included: every mandate's limit is
   * what is left, held, committed or escrowed to children; the limit is exactly the money in the
   * whole subtree, which bounds what is ever spent there; the counter counts the live holds within
   * its cap; and the log replays to the balance, each entry to its own.
   */
  lemma MoneyIsConserved(labels: seq<Label>)
    ensures var db := Run(START, labels).db;
            && (forall m: MandateId :: m < |db.mandates| ==>
                  && Money.Balanced(db.mandates, db.holds, db.events, m)
                  && Money.SubtreeMoney(db.mandates, db.holds, m) == db.mandates[m].limit
                  && 0 <= Money.SubtreeSpent(db.mandates, db.holds, m) <= db.mandates[m].limit)
            && (forall e: nat :: e < |db.events| ==> Money.Replays(db.mandates, db.events, e))
            && (forall h: HoldId :: h < |db.holds| && db.holds[h].status == Held ==>
                  db.holds[h].mandate < |db.mandates| && db.mandates[db.holds[h].mandate].callsUsed > 0)
  {
    var w := Reachable(labels);
    var db := w.db;
    forall m: MandateId | m < |db.mandates|
      ensures Money.SubtreeMoney(db.mandates, db.holds, m) == db.mandates[m].limit
      ensures 0 <= Money.SubtreeSpent(db.mandates, db.holds, m) <= db.mandates[m].limit
    {
      Money.LimitIsTheMoneyInTheSubtree(db.mandates, db.holds, db.events, m);
    }
    forall h: HoldId | h < |db.holds| && db.holds[h].status == Held
      ensures db.mandates[db.holds[h].mandate].callsUsed > 0
    {
      Money.RefundNeverClamps(db.mandates, db.holds, db.events, h);
    }
  }

  // ----- one universe -----

  /** Exactly one ending per attempt, and hold, receipt, charge and log agree on it. */
  lemma OneUniverseAlways(labels: seq<Label>, i: InvocationId)
    requires NoHelpers(labels) && i < |Run(START, labels).db.invocations|
    ensures var db := Run(START, labels).db;
            var ending := Universe.HoldStatusOf(db.invocations[i].status);
            && db.invocations[i].hold == Some(i) && i < |db.holds|
            && db.holds[i].status == ending
            && SumBy(db.receipts, Universe.ReceiptFor(i)) == Universe.One(ending == Committed)
            && SumBy(db.outbox, Universe.ChargeFor(db.receipts, i)) == Universe.One(ending == Committed)
            && SumBy(db.events, Universe.EventFor(CommitEvent, i)) == Universe.One(ending == Committed)
            && SumBy(db.events, Universe.EventFor(ReleaseEvent, i)) == Universe.One(ending == Released)
  {
    var w := Reachable(labels);
    assert Universe.Paired(w.db, i) && Universe.Traced(w.db, i);
    Universe.UniverseReadOff(w.db, i);
  }

  /** How often an attempt's status changes in a run. */
  function ChangesOf(w: World, labels: seq<Label>, i: InvocationId): nat
    requires i < |w.db.invocations|
    decreases labels
  {
    if labels == [] then 0
    else
      var next := Apply(w, labels[0]);
      assert i < |next.db.invocations| by { History.StepFollows(w, labels[0]); }
      (if next.db.invocations[i].status != w.db.invocations[i].status then 1 else 0) + ChangesOf(next, labels[1..], i)
  }

  /** A step that changes an attempt's status moves it up the status graph. */
  lemma StepClimbs(w: World, l: Label, i: InvocationId)
    requires i < |w.db.invocations|
    ensures i < |Apply(w, l).db.invocations|
    ensures var a, b := w.db.invocations[i].status, Apply(w, l).db.invocations[i].status;
            a == b || History.Rank(a) < History.Rank(b)
  {
    History.StepFollows(w, l);
    assert History.Continues(w.db.invocations[i], Apply(w, l).db.invocations[i]);
  }

  /** Status changes follow an acyclic graph: from any point on an attempt changes at most three times. */
  lemma {:induction false} AtMostThreeChanges(w: World, labels: seq<Label>, i: InvocationId)
    requires i < |w.db.invocations|
    ensures i < |Run(w, labels).db.invocations|
    ensures History.Rank(w.db.invocations[i].status) + ChangesOf(w, labels, i)
            <= History.Rank(Run(w, labels).db.invocations[i].status) <= 3
    decreases labels
  {
    if labels != [] {
      StepClimbs(w, labels[0], i);
      AtMostThreeChanges(Apply(w, labels[0]), labels[1..], i);
    }
  }

  // ----- one charge per key -----

  /**
   * A completed claim is never deleted, reopened or rewritten; the attempt that was committed under
   * a key stays committed, and no other attempt with that key is ever committed.
   */
  lemma AtMostOneChargePerKey(before: seq<Label>, rest: seq<Label>, i: InvocationId)
    requires i < |Run(START, before).db.invocations|
    requires Universe.HoldStatusOf(Run(START, before).db.invocations[i].status) == Committed
    ensures Keys.CompletedKept(Run(START, before).db.claims, Run(START, before + rest).db.claims)
    ensures ChargedAlone(Run(START, before + rest).db, i)
  {
    var w := Reachable(before);
    RunKeepsBooks(w, rest);
    RunKeepsAttempts(w, rest);
    RunInTwoParts(START, before, rest);
    CommittedStaysAlone(w.db, Run(w, rest).db, i);
  }

  /** A claim exists exactly while one attempt with its key is not released, and tells how it ended. */
  lemma ClaimsFollowAttempts(labels: seq<Label>, ck: ClaimKey)
    ensures ClaimFollowsAttempts(Run(START, labels).db, ck)
  {
    var w := Reachable(labels);
    ClaimsFollow(w.db, ck);
  }

  /** Completing an attempt finds the claim its own attempt inserted: the branch that inserts one is never reached. */
  lemma CompletionFindsItsClaim(labels: seq<Label>, i: InvocationId)
    requires i < |Run(START, labels).db.invocations|
    requires var inv := Run(START, labels).db.invocations[i]; Universe.IsOpen(inv.status) && Present(inv.key)
    ensures var db := Run(START, labels).db;
            var ck := ClaimKeyOf(db.invocations[i].principal, db.invocations[i].key);
            ck in db.claims && db.claims[ck].status == ClaimInProgress && db.claims[ck].hash == db.invocations[i].hash
  {
    var w := Reachable(labels);
    Keys.CompletionFindsItsClaim(w.db, i);
  }

  /** A key that a completed operation left without a result is closed for good, in every later state. */
  lemma ClaimWithoutResultIsNeverReplayed(before: seq<Label>, rest: seq<Label>, ck: ClaimKey, r: Request)
    requires EndedWithoutResult(Run(START, before).db, ck)
    requires r.key == Some(ck.key) && ck.key != ""
    ensures IsClosed(Run(START, before + rest).db, ck, Run(START, before).db.claims[ck].hash, r)
  {
    var w := Reachable(before);
    RunKeepsBooks(w, rest);
    RunInTwoParts(START, before, rest);
    EndedWithoutResultIsClosed(Run(START, before + rest).db, ck, r);
  }

  lemma OneMore(before: seq<Label>, l: Label)
    ensures Run(START, before + [l]) == Apply(Run(START, before), l)
  {
    RunInTwoParts(START, before, [l]);
    assert Run(Run(START, before), [l]) == Run(Apply(Run(START, before), l), []);
  }

  /** The HTTP reconcile route passes no result, so a keyed attempt it commits is never replayed. */
  lemma RouteCommitIsNeverReplayed(before: seq<Label>, l: Label, rest: seq<Label>, r: Request)
    requires l.CommitByEvidence? && l.x.result.None? && l.i < |Run(START, before).db.invocations|
    requires ReconcileCommit(Run(START, before).db, l.i, l.holdCopy, l.e, l.x).1.Won?
    requires Present(r.key) && r.key == Run(START, before).db.invocations[l.i].key
    ensures var ck := ClaimKeyOf(Run(START, before).db.invocations[l.i].principal, r.key);
            ck in Run(START, before + [l]).db.claims
            && IsClosed(Run(START, before + [l] + rest).db, ck, Run(START, before + [l]).db.claims[ck].hash, r)
  {
    var db := Run(START, before).db;
    OneMore(before, l);
    CommitWithoutResult(db, l.i, l.holdCopy, l.e, l.x);
    ClaimWithoutResultIsNeverReplayed(before + [l], rest, ClaimKeyOf(db.invocations[l.i].principal, r.key), r);
  }

  // ----- nonces -----

  /**
   * A nonce is used at most once for a principal, by a mandate or by an attempt; and once it is
   * recorded, be it by a call that was then denied, nothing ever uses it again.
   */
  lemma NoNonceIsUsedTwice(before: seq<Label>, rest: seq<Label>, n: Nonce)
    ensures var early, late := Run(START, before).db, Run(START, before + rest).db;
            && Nonces.UsesOf(late.mandates, late.holds, n) <= Universe.One(n in late.nonces)
            && (n in early.nonces ==>
                  n in late.nonces
                  && Nonces.UsesOf(late.mandates, late.holds, n) <= Nonces.UsesOf(early.mandates, early.holds, n))
  {
    var w := Reachable(before + rest);
    assert Nonces.UsesOf(w.db.mandates, w.db.holds, n) <= Universe.One(n in w.db.nonces);
    RunInTwoParts(START, before, rest);
    if n in Run(START, before).db.nonces {
      Nonces.RecordedNonceIsUsedUp(Run(START, before), rest, n);
    }
  }

  // ----- the dispatch barrier -----

  /**
   * Each attempt reaches the provider at most once, and only after its own dispatch was committed.
   * A dispatched attempt that was refunded was refunded on evidence that it did not execute; so of
   * two dispatched attempts with one key, the earlier was reconciled and released on such evidence.
   */
  lemma DispatchIsAtMostOnceAndNeverRefundedBlindly(labels: seq<Label>)
    requires NoHelpers(labels)
    ensures var w := Run(START, labels);
            && Distinct(w.dispatched)
            && (forall i :: i in w.dispatched ==> DispatchedSafely(w, i))
            && (forall i, j | i in w.dispatched && j in w.dispatched && i < j && j < |w.db.invocations| ::
                  Keys.SameKey(w.db.invocations[i], w.db.invocations[j]) ==> ReleasedOnProof(w.db, i))
  {
    var w := Reachable(labels);
    forall i | i in w.dispatched
      ensures DispatchedSafely(w, i)
    {
      DispatchIsSafe(w, i);
    }
    forall i, j | i in w.dispatched && j in w.dispatched && i < j && j < |w.db.invocations|
        && Keys.SameKey(w.db.invocations[i], w.db.invocations[j])
      ensures ReleasedOnProof(w.db, i)
    {
      EarlierDispatchWasReleased(w, i, j);
    }
  }

  // ----- billing -----

  /**
   * Committed holds, receipts and charges are the same money; Stripe never meters more than that,
   * however often charges are reposted, and exactly that once every charge is sent.
   */
  lemma BillingAgreesEndToEnd(labels: seq<Label>)
    requires NoHelpers(labels)
    ensures BilledOnce(Run(START, labels))
  {
    var w := Reachable(labels);
    BillingAgrees(w);
  }

  /** The outbox run inside a run of the system. */
  function DeskTrace(w: World, labels: seq<Label>): seq<Outbox.Label>
    decreases labels
  {
    if labels == [] then [] else DeskStep(w, labels[0]) + DeskTrace(Apply(w, labels[0]), labels[1..])
  }

  /** The system refines the outbox: every result about outbox runs holds of the outbox in the system. */
  lemma {:induction false} SystemRefinesOutbox(w: World, labels: seq<Label>)
    requires Universe.OneUniverse(w.db) && NoHelpers(labels)
    ensures DeskOf(Run(w, labels)) == Outbox.Run(DeskOf(w), DeskTrace(w, labels))
    decreases labels
  {
    if labels != [] {
      var next := Apply(w, labels[0]);
      StepIsDeskStep(w, labels[0]);
      StepKeepsUniverse(w, labels[0]);
      SystemRefinesOutbox(next, labels[1..]);
      Retries.RunInTwoParts(DeskOf(w), DeskStep(w, labels[0]), DeskTrace(next, labels[1..]), 0);
    }
  }

  /** In every state: attempt counts match statuses, and no row is being sent without a claim time. */
  lemma OutboxRowsAreAlwaysSound(labels: seq<Label>, j: OutboxId)
    requires NoHelpers(labels) && j < |Run(START, labels).db.outbox|
    ensures Outbox.RowOk(Run(START, labels).db.outbox[j])
  {
    var w := Reachable(labels);
    assert w.db.outbox[j] == DeskOf(w).rows[j];
  }

  /**
   * Retries end in the system as they do in the outbox. Every row was last charged or requeued at one
   * point of the outbox's run; from there it was retried as promised exactly with current copies, and
   * from a charge its count tells as much. In a timely run all copies are current.
   */
  lemma RetriesEndInTheSystem(labels: seq<Label>, oid: OutboxId, clock: Time, lease: int)
    returns (before: seq<Outbox.Label>, start: Outbox.Label, rest: seq<Outbox.Label>)
    requires NoHelpers(labels) && oid < |Run(START, labels).db.outbox|
    ensures DeskTrace(START, labels) == before + [start] + rest
    ensures Retries.Starts(Outbox.Run(Outbox.EMPTY, before), start, oid)
    ensures DeskOf(Run(START, labels)) == Outbox.Run(Retries.After(before, start), rest)
    ensures Retries.RetriedThroughout(Retries.After(before, start), rest, oid)
    ensures start.Charge? ==> Retries.RetriedExactly(Retries.After(before, start), rest, oid)
    ensures lease >= 1 && Retries.Timely(Outbox.EMPTY, DeskTrace(START, labels), clock, lease)
            ==> Retries.CopiesCurrent(Retries.After(before, start), rest, oid)
  {
    StartHasStory();
    SystemRefinesOutbox(START, labels);
    before, start, rest := Retries.EveryRowWasRetried(DeskTrace(START, labels), oid, clock, lease);
  }

  lemma StartsOver(w: World, d: Outbox.Desk, requeue: Outbox.Label, rest: seq<Label>, oid: OutboxId)
    requires Universe.OneUniverse(w.db) && NoHelpers(rest)
    requires Outbox.Sound(d) && Outbox.Requeues(d, requeue, oid) && DeskOf(w) == Outbox.Apply(d, requeue)
    requires Retries.NeverRequeued(DeskOf(w), DeskTrace(w, rest), oid)
    ensures DeskOf(Run(w, rest)) == Outbox.Run(DeskOf(w), DeskTrace(w, rest))
    ensures Retries.RetriedThroughout(DeskOf(w), DeskTrace(w, rest), oid)
  {
    SystemRefinesOutbox(w, rest);
    Retries.RetriesStartOver(d, requeue, DeskTrace(w, rest), oid);
  }

  lemma RequeuedDesk(before: seq<Label>, requeue: Outbox.Label)
    requires requeue.Requeue?
    ensures DeskOf(Run(START, before + [BillingStep(requeue)])) == Outbox.Apply(DeskOf(Run(START, before)), requeue)
  {
    OneMore(before, BillingStep(requeue));
    BillingIsDeskStep(Run(START, before), requeue);
  }

  lemma ReachedSoundly(labels: seq<Label>)
    requires NoHelpers(labels)
    ensures Outbox.Sound(DeskOf(Run(START, labels)))
  {
    var w := Reachable(labels);
  }

  lemma ReachedInOneUniverse(labels: seq<Label>)
    requires NoHelpers(labels)
    ensures Universe.OneUniverse(Run(START, labels).db)
  {
    var w := Reachable(labels);
  }

  /** From any point of a system run at which a row is requeued, until it is requeued again. */
  lemma RequeuedRowsStartOver(before: seq<Label>, requeue: Outbox.Label, rest: seq<Label>, oid: OutboxId)
    requires NoHelpers(before) && NoHelpers(rest)
    requires Outbox.Requeues(DeskOf(Run(START, before)), requeue, oid)
    requires var w := Run(START, before + [BillingStep(requeue)]);
             Retries.NeverRequeued(DeskOf(w), DeskTrace(w, rest), oid)
    ensures var w := Run(START, before + [BillingStep(requeue)]);
            && DeskOf(Run(w, rest)) == Outbox.Run(DeskOf(w), DeskTrace(w, rest))
            && Retries.RetriedThroughout(DeskOf(w), DeskTrace(w, rest), oid)
  {
    RequeuedDesk(before, requeue);
    ReachedSoundly(before);
    ReachedInOneUniverse(before + [BillingStep(requeue)]);
    StartsOver(Run(START, before + [BillingStep(requeue)]), DeskOf(Run(START, before)), requeue, rest, oid);
  }

  /**
   * Platform fees are counted once: every receipt has one charge, on the account of the principal
   * that paid, and an account's fees are exactly the fees of its charges, each at the rate in force
   * when it was enqueued.
   */
  lemma FeesAccumulateOncePerReceipt(labels: seq<Label>)
    ensures var db := Run(START, labels).db;
            && |db.outbox| == |db.receipts|
            && (forall j :: 0 <= j < |db.receipts| ==>
                  && db.outbox[j].receipt == j && db.outbox[j].amount == db.receipts[j].amount
                  && db.receipts[j].principal < |db.principals|
                  && db.outbox[j].account == Some(db.principals[db.receipts[j].principal].account))
            && (forall a :: 0 <= a < |db.accounts| ==> db.accounts[a].fees == SumBy(db.outbox, Fees.FeeFor(a)))
  {
    var w := Reachable(labels);
    assert Fees.Accounted(w.db);
  }

  // ----- policy and delegation -----

  /**
   * Every hold was for a call that its own mandate and every ancestor price and date allow, and
   * whose tool and server they list, as far up as no unrestricted child sits under an empty list.
   */
  lemma EverySpendIsWithinTheWholeChain(labels: seq<Label>, i: InvocationId, a: MandateId)
    requires NoHelpers(labels) && i < |Run(START, labels).db.invocations|
    requires var db := Run(START, labels).db;
             a < |db.mandates| && Mandates.OnChain(db.mandates, db.invocations[i].mandate, a)
    ensures SpendWithin(Run(START, labels).db, i, a)
  {
    var w := Reachable(labels);
    SpendIsWithin(w.db, i, a);
  }

  /**
   * For tools and for servers, exactly: a spend is listed by its mandate and every ancestor if and
   * only if no unrestricted child was issued under an empty list on its chain to the root.
   */
  lemma SpendIsListedExactlyWithoutEscape(labels: seq<Label>, i: InvocationId, root: MandateId, which: Mandates.ListName)
    requires NoHelpers(labels) && i < |Run(START, labels).db.invocations|
    requires var db := Run(START, labels).db;
             Mandates.IsRoot(db.mandates, root) && Mandates.OnChain(db.mandates, db.invocations[i].mandate, root)
    ensures var db := Run(START, labels).db;
            ListedUpTheChain(db, db.invocations[i], which)
            <==> !Mandates.EscapesOnChain(db.mandates, which, db.invocations[i].mandate, root)
  {
    var w := Reachable(labels);
    SpendIsListed(w.db, i, root, which);
  }

  /** Chains of mandates stay within one principal, with agents descending alongside. */
  lemma DelegationStaysInsideOnePrincipal(labels: seq<Label>, d: MandateId, a: MandateId)
    requires var db := Run(START, labels).db; d < |db.mandates| && Mandates.OnChain(db.mandates, d, a)
    ensures var db := Run(START, labels).db;
            && a <= d && Mandates.Narrows(db.mandates[d], db.mandates[a])
            && db.mandates[d].agent < |db.agents|
            && db.agents[db.mandates[d].agent].principal == db.mandates[d].principal
            && Identity.SelfOrDescendant(db.agents, db.mandates[d].agent, db.mandates[a].agent)
  {
    var w := Reachable(labels);
    var db := w.db;
    Mandates.LimitsNarrowDownTheTree(db.agents, db.mandates, d, a);
    assert Mandates.WellDelegatedRow(db.agents, db.mandates, d);
  }

  /**
   * A mandate that is revoked stays revoked, and in no later run is a hold opened, a child issued or
   * money taken from it; its old holds may still be settled, and its children spend what they have.
   */
  lemma RevokedMandateNeverSpends(before: seq<Label>, rest: seq<Label>, m: MandateId)
    requires m < |Run(START, before).db.mandates| && Run(START, before).db.mandates[m].revoked
    ensures var early, late := Run(START, before).db, Run(START, before + rest).db;
            && NothingSpent(early, late, m)
            && late.mandates[m].revoked && late.mandates[m].remaining >= early.mandates[m].remaining
  {
    var w, later := ReachableLater(before, rest);
    RevokedSpendsNothing(w.db, later.db, m);
    RevokedKeepsItsMoney(w.db, later.db, m);
  }

  /** Revocation is closed downwards, so the one-level check is as good as the whole chain. */
  lemma RevocationReachesEveryDescendant(labels: seq<Label>, d: AgentId)
    requires d < |Run(START, labels).db.agents|
    ensures var agents := Run(START, labels).db.agents;
            && (forall a: AgentId :: a < |agents| && Identity.SelfOrDescendant(agents, d, a) && agents[a].revoked
                  ==> agents[d].revoked)
            && (Identity.RequireLiveAgent(agents, d).None?
                <==> forall a: AgentId :: a < |agents| && Identity.SelfOrDescendant(agents, d, a) ==> !agents[a].revoked)
  {
    var w := Reachable(labels);
    var agents := w.db.agents;
    forall a: AgentId | a < |agents| && Identity.SelfOrDescendant(agents, d, a) && agents[a].revoked
      ensures agents[d].revoked
    {
      Identity.RevokedBelow(agents, d, a);
    }
    Identity.LiveAgentSeesWholeChain(agents, d);
  }

  /**
   * Revoking an agent stops it and every agent below it: none of them is ever issued a mandate again,
   * and on its mandates no more holds are opened than there were processes that had passed
   * authorisation and not reserved yet. With none of those, none at all.
   */
  lemma RevokedAgentSpendsOnlyWhatWasAuthorized(before: seq<Label>, rest: seq<Label>, a: AgentId, d: AgentId)
    requires Revocation.AgentRevoked(Run(START, before).db, a) && d < |Run(START, before).db.agents|
    requires Identity.SelfOrDescendant(Run(START, before).db.agents, d, a)
    ensures var w := Run(START, before);
            Revocation.OpensAtMost(w.db, Run(START, before + rest).db, d, |Revocation.Pending(w, d)|)
  {
    var w := Reachable(before);
    Identity.RevokedBelow(w.db.agents, d, a);
    Revocation.RevokedAgentIsStopped(w, rest, d);
    RunInTwoParts(START, before, rest);
  }

  /**
   * A mandate's key is for good, bound to its principal when it was issued: the issuer's, or the one
   * the principal registered. So in every later state its row passes verification exactly if its signature does.
   */
  lemma MandatesAlwaysVerify(before: seq<Label>, rest: seq<Label>, m: MandateId, signatureOk: bool)
    requires m < |Run(START, before).db.mandates|
    ensures var early, late := Run(START, before).db, Run(START, before + rest).db;
            && m < |late.mandates| && late.mandates[m].key == early.mandates[m].key
            && early.mandates[m].key in Mandates.BoundKeys(early.principals, early.mandates[m].principal)
            && Mandates.VerifyStored(late.principals, late.mandates[m], signatureOk)
               == if signatureOk then None else Some(MandateForged)
  {
    var w, later := ReachableLater(before, rest);
    VerifiesForGood(w.db, later.db, m, signatureOk);
  }

  /**
   * A sub-budget bounds what a descendant holds as far as the descendant asks for one of its own: a
   * limit within its own sub-budget is within that of every ancestor.
   */
  lemma SubBudgetsBoundLimits(labels: seq<Label>, d: MandateId, a: MandateId)
    requires var db := Run(START, labels).db; d < |db.mandates| && Mandates.OnChain(db.mandates, d, a)
    ensures var db := Run(START, labels).db;
            && a < |db.mandates| && db.mandates[d].maxSub.Some? && db.mandates[a].maxSub.Some?
            && (db.mandates[d].limit <= db.mandates[d].maxSub.value ==> db.mandates[d].limit <= db.mandates[a].maxSub.value)
  {
    var w := Reachable(labels);
    Mandates.LimitsNarrowDownTheTree(w.db.agents, w.db.mandates, d, a);
  }

  /**
   * A mandate's signed state verifies from its insert on, whatever the ledger does to the row; and a
   * row with other columns under that signature passes exactly when the terms are the same.
   */
  lemma SignedStateSurvivesEveryRun(before: seq<Label>, rest: seq<Label>, m: MandateId, altered: Mandate)
    requires m < |Run(START, before).db.mandates|
    requires altered.signed == Run(START, before).db.mandates[m].signed
    ensures m < |Run(START, before + rest).db.mandates|
    ensures SignedState.Check(Run(START, before + rest).db.mandates[m])
    ensures SignedState.Check(altered) <==> SignedState.SameTerms(Run(START, before).db.mandates[m], altered)
  {
    var w, later := ReachableLater(before, rest);
    SignedStateStays(w.db, later.db, m, altered);
  }
}
