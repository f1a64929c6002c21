// Conservation: every cent of a mandate's limit is unspent, held, committed or escrowed to a child,
// the call counter counts the live holds, and the event log replays to the balance.
module Money {
  import opened Model
  import opened Sums
  import opened LedgerSpec
  import opened Mandates
  import Forest

  /** Money a mandate's own holds keep from its balance. */
  function LiveAmount(m: MandateId): Hold -> int
  {
    (h: Hold) => if h.mandate == m && h.status != Released then h.amount else 0
  }

  function LiveCount(m: MandateId): Hold -> int
  {
    (h: Hold) => if h.mandate == m && h.status != Released then 1 else 0
  }

  function CommittedAmount(m: MandateId): Hold -> int
  {
    (h: Hold) => if h.mandate == m && h.status == Committed then h.amount else 0
  }

  function ChildLimit(p: MandateId): Mandate -> int
  {
    (c: Mandate) => if c.parent == Some(p) then c.limit else 0
  }

  /** What an event did to a mandate's balance. */
  function Movement(m: MandateId): Event -> int
  {
    (e: Event) =>
      if e.mandate != m then 0
      else match e.kind
        case ReserveEvent => -e.amount
        case EscrowEvent => -e.amount
        case ReleaseEvent => e.amount
        case CommitEvent => 0
        case DenyEvent => 0
  }

  predicate MovesMoney(e: Event)
  {
    e.kind.ReserveEvent? || e.kind.EscrowEvent? || e.kind.ReleaseEvent?
  }

  function Max(a: int, b: int): int
  {
    if a < b then b else a
  }

  /** The books of one mandate. */
  predicate Balanced(mandates: seq<Mandate>, holds: seq<Hold>, events: seq<Event>, m: MandateId)
    requires m < |mandates|
  {
    var row := mandates[m];
    && 0 <= row.remaining
    && 0 <= row.limit
    && row.limit == row.remaining + SumBy(holds, LiveAmount(m)) + SumBy(mandates, ChildLimit(m))
    && row.callsUsed == SumBy(holds, LiveCount(m))
    && (row.maxCalls.Some? ==> row.callsUsed <= Max(0, row.maxCalls.value))
    && row.remaining == row.limit + SumBy(events, Movement(m))
  }

  /** An event that moved money recorded the balance its own prefix of the log replays to. */
  predicate Replays(mandates: seq<Mandate>, events: seq<Event>, e: nat)
    requires e < |events|
  {
    var m := events[e].mandate;
    MovesMoney(events[e]) ==>
      m < |mandates|
      && events[e].remainingAfter == Some(mandates[m].limit + SumBy(events[..e + 1], Movement(m)))
  }

  predicate Conserved(mandates: seq<Mandate>, holds: seq<Hold>, events: seq<Event>)
  {
    && (forall h :: 0 <= h < |holds| ==> holds[h].mandate < |mandates| && holds[h].amount >= 0)
    && (forall m :: 0 <= m < |mandates| && mandates[m].parent.Some? ==> mandates[m].parent.value < m)
    && (forall m :: 0 <= m < |mandates| ==> Balanced(mandates, holds, events, m))
    && (forall e :: 0 <= e < |events| ==> Replays(mandates, events, e))
  }

  // ----- one lemma per kind of update -----

  lemma LogKeepsRecords(before: seq<Mandate>, after: seq<Mandate>, events: seq<Event>, ev: Event)
    requires Extends(before, after)
    requires forall e :: 0 <= e < |events| ==> Replays(before, events, e)
    requires MovesMoney(ev) ==>
               ev.mandate < |after|
               && ev.remainingAfter == Some(after[ev.mandate].limit + SumBy(events + [ev], Movement(ev.mandate)))
    ensures forall e :: 0 <= e < |events + [ev]| ==> Replays(after, events + [ev], e)
  {
    forall e | 0 <= e < |events + [ev]|
      ensures Replays(after, events + [ev], e)
    {
      if e < |events| {
        assert (events + [ev])[..e + 1] == events[..e + 1];
        assert Replays(before, events, e);
        if MovesMoney(events[e]) {
          assert Columns(after[events[e].mandate]) == Columns(before[events[e].mandate]);
        }
      } else {
        assert (events + [ev])[..e + 1] == events + [ev];
      }
    }
  }

  /** Rewriting a row's balance, counter or revocation leaves every sum over children as it was. */
  lemma ChildLimitsUnmoved(mandates: seq<Mandate>, p: MandateId, row: Mandate, m: MandateId)
    requires p < |mandates| && Columns(row) == Columns(mandates[p])
    ensures SumBy(mandates[p := row], ChildLimit(m)) == SumBy(mandates, ChildLimit(m))
  {
    SumUpdate(mandates, p, row, ChildLimit(m));
    assert row.parent == Columns(row).parent && row.limit == Columns(row).limit;
  }

  lemma DebitBalances(db: Db, m: MandateId, amount: int, key: Option<string>, nonce: Option<string>, now: Time, k: MandateId)
    requires m < |db.mandates| && k < |db.mandates| && amount >= 0 && Debitable(db.mandates[m], amount, now)
    requires Conserved(db.mandates, db.holds, db.events)
    ensures var after := DebitHold(db, m, amount, key, nonce, now);
            Balanced(after.mandates, after.holds, after.events, k)
  {
    var after := DebitHold(db, m, amount, key, nonce, now);
    var hold := after.holds[|db.holds|];
    assert Balanced(db.mandates, db.holds, db.events, k);
    SumAppend(db.holds, hold, LiveAmount(k));
    SumAppend(db.holds, hold, LiveCount(k));
    SumAppend(db.events, after.events[|db.events|], Movement(k));
    ChildLimitsUnmoved(db.mandates, m, after.mandates[m], k);
  }

  lemma DebitConserves(db: Db, m: MandateId, amount: int, key: Option<string>, nonce: Option<string>, now: Time)
    requires m < |db.mandates| && amount >= 0 && Debitable(db.mandates[m], amount, now)
    requires Conserved(db.mandates, db.holds, db.events)
    ensures var after := DebitHold(db, m, amount, key, nonce, now);
            Conserved(after.mandates, after.holds, after.events)
  {
    var after := DebitHold(db, m, amount, key, nonce, now);
    var ev := after.events[|db.events|];
    forall k: MandateId | k < |db.mandates|
      ensures Balanced(after.mandates, after.holds, after.events, k)
    {
      DebitBalances(db, m, amount, key, nonce, now, k);
    }
    assert db.events + [ev] == after.events && Balanced(after.mandates, after.holds, after.events, m);
    LogKeepsRecords(db.mandates, after.mandates, db.events, ev);
  }

  lemma CommitConserves(db: Db, h: HoldId, seen: Option<int>)
    requires IsHeld(db, h)
    requires Conserved(db.mandates, db.holds, db.events)
    ensures var after := CommitHold(db, h, seen);
            Conserved(after.mandates, after.holds, after.events)
  {
    var after := CommitHold(db, h, seen);
    var ev := after.events[|db.events|];
    forall k: MandateId | k < |db.mandates|
      ensures Balanced(after.mandates, after.holds, after.events, k)
    {
      assert Balanced(db.mandates, db.holds, db.events, k);
      SumUpdate(db.holds, h, after.holds[h], LiveAmount(k));
      SumUpdate(db.holds, h, after.holds[h], LiveCount(k));
      SumAppend(db.events, ev, Movement(k));
    }
    LogKeepsRecords(db.mandates, after.mandates, db.events, ev);
  }

  /** While a hold is held its mandate's counter is positive: the clamp in the refund never fires. */
  lemma RefundNeverClamps(mandates: seq<Mandate>, holds: seq<Hold>, events: seq<Event>, h: HoldId)
    requires Conserved(mandates, holds, events)
    requires h < |holds| && holds[h].status == Held
    ensures mandates[holds[h].mandate].callsUsed > 0
  {
    var m := holds[h].mandate;
    assert Balanced(mandates, holds, events, m);
    SumBounds(holds, LiveCount(m));
    assert LiveCount(m)(holds[h]) == 1;
  }

  lemma ReleaseBalances(db: Db, h: HoldId, k: MandateId)
    requires IsHeld(db, h) && k < |db.mandates|
    requires Conserved(db.mandates, db.holds, db.events)
    ensures var after := ReleaseHold(db, h);
            Balanced(after.mandates, after.holds, after.events, k)
  {
    var after := ReleaseHold(db, h);
    var ev, m := after.events[|db.events|], db.holds[h].mandate;
    RefundNeverClamps(db.mandates, db.holds, db.events, h);
    assert Balanced(db.mandates, db.holds, db.events, k);
    SumUpdate(db.holds, h, after.holds[h], LiveAmount(k));
    SumUpdate(db.holds, h, after.holds[h], LiveCount(k));
    SumAppend(db.events, ev, Movement(k));
    ChildLimitsUnmoved(db.mandates, m, after.mandates[m], k);
  }

  lemma ReleaseConserves(db: Db, h: HoldId)
    requires IsHeld(db, h)
    requires Conserved(db.mandates, db.holds, db.events)
    ensures var after := ReleaseHold(db, h);
            Conserved(after.mandates, after.holds, after.events)
  {
    var after := ReleaseHold(db, h);
    var ev, m := after.events[|db.events|], db.holds[h].mandate;
    forall k: MandateId | k < |db.mandates|
      ensures Balanced(after.mandates, after.holds, after.events, k)
    {
      ReleaseBalances(db, h, k);
    }
    assert db.events + [ev] == after.events && Balanced(after.mandates, after.holds, after.events, m);
    LogKeepsRecords(db.mandates, after.mandates, db.events, ev);
  }

  /** Releasing a reserved attempt gives back exactly what opening it took: balance, counter and key. */
  lemma ReleaseUndoesReserve(db: Db, r: Request, copy: MandateCopy, now: Time, later: Time)
    requires r.mandate < |db.mandates| && db.mandates[r.mandate].callsUsed >= 0
    requires ReserveAndCommit(db, r, copy, now, later).1.Opened?
    ensures var (taken, out) := ReserveAndCommit(db, r, copy, now, later);
            var (given, end) := FinalizeRelease(taken, out.invocation, Some(out.hold), {Reserved});
            && end.Won?
            && given.mandates == db.mandates && given.claims == db.claims
            && |given.events| == |db.events| + 2 && given.events[..|db.events|] == db.events
            && given.holds[..|db.holds|] == db.holds && given.holds[out.hold].status == Released
  {
    var (taken, out) := ReserveAndCommit(db, r, copy, now, later);
    var inv := taken.invocations[out.invocation];
    assert FinalizeRelease(taken, out.invocation, Some(out.hold), {Reserved}).1.Won?;
    var row := db.mandates[r.mandate];
    assert Refunded(Debited(row, r.amount), r.amount) == row;
    assert taken.mandates[r.mandate := row] == db.mandates;
    assert ClearedClaims(taken.claims, inv) == db.claims;
  }

  lemma DenyConserves(db: Db, m: MandateId, amount: int, remaining: Option<int>)
    requires Conserved(db.mandates, db.holds, db.events)
    ensures Conserved(db.mandates, db.holds, DenyLogged(db, m, amount, remaining).events)
  {
    var ev := Event(m, DenyEvent, amount, remaining, None);
    forall k: MandateId | k < |db.mandates|
      ensures Balanced(db.mandates, db.holds, db.events + [ev], k)
    {
      assert Balanced(db.mandates, db.holds, db.events, k);
      SumAppend(db.events, ev, Movement(k));
    }
    LogKeepsRecords(db.mandates, db.mandates, db.events, ev);
  }

  lemma RevokeConserves(db: Db, m: MandateId)
    requires Conserved(db.mandates, db.holds, db.events)
    ensures Conserved(RevokeMandate(db, m).mandates, db.holds, db.events)
  {
    if m < |db.mandates| {
      var after := RevokeMandate(db, m).mandates;
      forall k: MandateId | k < |db.mandates|
        ensures Balanced(after, db.holds, db.events, k)
      {
        assert Balanced(db.mandates, db.holds, db.events, k);
        ChildLimitsUnmoved(db.mandates, m, after[m], k);
      }
      forall e: nat | e < |db.events|
        ensures Replays(after, db.events, e)
      {
        assert Replays(db.mandates, db.events, e);
      }
    }
  }

  /** Inserting a row leaves every other mandate's books as they were, but for its parent's child sum. */
  lemma InsertedBooks(db: Db, row: Mandate, m: MandateId)
    requires Conserved(db.mandates, db.holds, db.events)
    requires row.parent.Some? ==> row.parent.value < |db.mandates|
    requires row.remaining == row.limit >= 0 && row.callsUsed == 0
    ensures m < |db.mandates| ==>
              SumBy(db.mandates + [row], ChildLimit(m))
              == SumBy(db.mandates, ChildLimit(m)) + (if row.parent == Some(m) then row.limit else 0)
    ensures m == |db.mandates| ==> Balanced(db.mandates + [row], db.holds, db.events, m)
  {
    SumAppend(db.mandates, row, ChildLimit(m));
    if m == |db.mandates| {
      SumZero(db.mandates, ChildLimit(m));
      SumZero(db.holds, LiveAmount(m));
      SumZero(db.holds, LiveCount(m));
      forall e | 0 <= e < |db.events|
        ensures Movement(m)(db.events[e]) == 0
      {
        assert Replays(db.mandates, db.events, e);
      }
      SumZero(db.events, Movement(m));
    }
  }

  lemma RootConserves(db: Db, q: Issue)
    requires Conserved(db.mandates, db.holds, db.events)
    requires q.parent.None? && q.limit >= 0
    ensures Conserved(Inserted(db, q).mandates, db.holds, db.events)
  {
    var after := Inserted(db, q).mandates;
    forall k: MandateId | k < |after|
      ensures Balanced(after, db.holds, db.events, k)
    {
      InsertedBooks(db, NewMandate(db.principals, q), k);
      assert k < |db.mandates| ==> Balanced(db.mandates, db.holds, db.events, k);
    }
    forall e: nat | e < |db.events|
      ensures Replays(after, db.events, e)
    {
      assert Replays(db.mandates, db.events, e);
    }
  }

  lemma ChildBalances(db: Db, q: Issue, k: MandateId)
    requires Conserved(db.mandates, db.holds, db.events)
    requires q.parent.Some? && q.parent.value < |db.mandates| && k <= |db.mandates|
    requires 0 <= q.limit <= db.mandates[q.parent.value].remaining
    ensures var after := Escrowed(Inserted(db, q), q.parent.value, q.limit);
            Balanced(after.mandates, after.holds, after.events, k)
  {
    var inserted := Inserted(db, q);
    var p := q.parent.value;
    var after := Escrowed(inserted, p, q.limit);
    InsertedBooks(db, NewMandate(db.principals, q), k);
    SumAppend(db.events, after.events[|db.events|], Movement(k));
    ChildLimitsUnmoved(inserted.mandates, p, after.mandates[p], k);
    assert k < |db.mandates| ==> Balanced(db.mandates, db.holds, db.events, k);
  }

  lemma ChildConserves(db: Db, q: Issue)
    requires Conserved(db.mandates, db.holds, db.events)
    requires q.parent.Some? && q.parent.value < |db.mandates|
    requires 0 <= q.limit <= db.mandates[q.parent.value].remaining
    ensures var after := Escrowed(Inserted(db, q), q.parent.value, q.limit);
            Conserved(after.mandates, after.holds, after.events)
  {
    var inserted := Inserted(db, q);
    var p := q.parent.value;
    var after := Escrowed(inserted, p, q.limit);
    var ev := after.events[|db.events|];
    forall k: MandateId | k < |after.mandates|
      ensures Balanced(after.mandates, after.holds, after.events, k)
    {
      ChildBalances(db, q, k);
    }
    assert db.events + [ev] == after.events && Balanced(after.mandates, after.holds, after.events, p);
    LogKeepsRecords(db.mandates, after.mandates, db.events, ev);
  }

  lemma IssueConserves(db: Db, q: Issue, copy: MandateCopy, now: Time, later: Time)
    requires Conserved(db.mandates, db.holds, db.events)
    ensures var after := IssueMandate(db, q, copy, now, later).0;
            Conserved(after.mandates, after.holds, after.events)
  {
    if IssueMandate(db, q, copy, now, later).1.Issued? {
      if q.parent.None? {
        RootConserves(db, q);
      } else {
        ChildConserves(db, q);
      }
    }
  }

  // ----- the whole delegation subtree -----

  /** A mandate's own share of the money: what it has left and what its live holds keep. */
  function OwnShare(mandates: seq<Mandate>, holds: seq<Hold>, m: MandateId): int
  {
    if m < |mandates| then mandates[m].remaining + SumBy(holds, LiveAmount(m)) else 0
  }

  /** The shares of every mandate at or below m. */
  function SubtreeMoney(mandates: seq<Mandate>, holds: seq<Hold>, m: MandateId): int
  {
    SumTo(|mandates|, (d: nat) => if OnChain(mandates, d, m) then OwnShare(mandates, holds, d) else 0)
  }

  /** What has been committed anywhere at or below m. */
  function SubtreeSpent(mandates: seq<Mandate>, holds: seq<Hold>, m: MandateId): int
  {
    SumTo(|mandates|, (d: nat) => if OnChain(mandates, d, m) then SumBy(holds, CommittedAmount(d)) else 0)
  }

  /** Limits less children's limits, over the part of the subtree of m among the first k mandates. */
  function Retained(mandates: seq<Mandate>, m: MandateId, k: nat): nat -> int
    requires k <= |mandates|
  {
    (d: nat) =>
      if d < |mandates| && OnChain(mandates, d, m)
      then mandates[d].limit - SumBy(mandates[..k], ChildLimit(d))
      else 0
  }

  /** Adding the subtree up, every limit but m's own is cancelled by the parent that escrowed it. */
  lemma {:induction false} EscrowTelescopes(mandates: seq<Mandate>, m: MandateId, k: nat)
    requires forall c :: 0 <= c < |mandates| && mandates[c].parent.Some? ==> mandates[c].parent.value < c
    requires m < |mandates| && k <= |mandates|
    ensures SumTo(k, Retained(mandates, m, k)) == if m < k then mandates[m].limit else 0
  {
    if k > 0 {
      var c := k - 1;
      EscrowTelescopes(mandates, m, c);
      EarlierRetained(mandates, m, c);
      NoChildYet(mandates, c);
      RootOfSubtree(mandates, m, c);
      assert Retained(mandates, m, k)(c) == if OnChain(mandates, c, m) then mandates[c].limit else 0;
    }
  }

  /** Counting mandate c moves the earlier part of the sum by its limit if its parent is in the subtree. */
  lemma EarlierRetained(mandates: seq<Mandate>, m: MandateId, c: nat)
    requires c < |mandates|
    requires mandates[c].parent.Some? ==> mandates[c].parent.value < c
    ensures SumTo(c, Retained(mandates, m, c + 1))
            == SumTo(c, Retained(mandates, m, c))
               - (if mandates[c].parent.Some? && OnChain(mandates, mandates[c].parent.value, m) then mandates[c].limit else 0)
  {
    var now, earlier := Retained(mandates, m, c + 1), Retained(mandates, m, c);
    NextRetained(mandates, m, c);
    if mandates[c].parent.Some? {
      SumToDiffersAt(c, mandates[c].parent.value, now, earlier);
    } else {
      SumToEqual(c, now, earlier);
    }
  }

  /** One more mandate counts against its parent alone. */
  lemma NextRetained(mandates: seq<Mandate>, m: MandateId, c: nat)
    requires c < |mandates|
    ensures forall d: nat ::
              Retained(mandates, m, c + 1)(d)
              == Retained(mandates, m, c)(d)
                 - (if d < |mandates| && OnChain(mandates, d, m) then ChildLimit(d)(mandates[c]) else 0)
  {
    assert mandates[..c + 1] == mandates[..c] + [mandates[c]];
    forall d: nat
      ensures SumBy(mandates[..c + 1], ChildLimit(d)) == SumBy(mandates[..c], ChildLimit(d)) + ChildLimit(d)(mandates[c])
    {
      SumAppend(mandates[..c], mandates[c], ChildLimit(d));
    }
  }

  /** Every mandate below m, but m itself, has its parent there too. */
  lemma RootOfSubtree(mandates: seq<Mandate>, m: MandateId, c: MandateId)
    requires c < |mandates|
    requires mandates[c].parent.Some? ==> mandates[c].parent.value < c
    ensures OnChain(mandates, c, m) ==> m <= c
    ensures c != m ==> (OnChain(mandates, c, m) <==> mandates[c].parent.Some? && OnChain(mandates, mandates[c].parent.value, m))
    ensures c == m && mandates[c].parent.Some? ==> !OnChain(mandates, mandates[c].parent.value, m)
  {
    var links := MandateLinks(mandates);
    if OnChain(mandates, c, m) {
      Forest.UnderIsLater(links, c, m);
    }
    if mandates[c].parent.Some? && OnChain(mandates, mandates[c].parent.value, m) {
      Forest.UnderIsLater(links, mandates[c].parent.value, m);
    }
  }

  /** Children come after their parent. */
  lemma NoChildYet(mandates: seq<Mandate>, c: MandateId)
    requires c < |mandates|
    requires forall d :: 0 <= d < |mandates| && mandates[d].parent.Some? ==> mandates[d].parent.value < d
    ensures SumBy(mandates[..c + 1], ChildLimit(c)) == 0
  {
    var early := mandates[..c + 1];
    assert forall d :: 0 <= d < |early| ==> ChildLimit(c)(early[d]) == 0;
    SumZero(early, ChildLimit(c));
  }

  /**
   * Tree conservation: a mandate's limit is exactly the money at and below it, and what has been
   * committed at and below it never exceeds that limit.
   */
  lemma LimitIsTheMoneyInTheSubtree(mandates: seq<Mandate>, holds: seq<Hold>, events: seq<Event>, m: MandateId)
    requires Conserved(mandates, holds, events)
    requires m < |mandates|
    ensures SubtreeMoney(mandates, holds, m) == mandates[m].limit
    ensures 0 <= SubtreeSpent(mandates, holds, m) <= mandates[m].limit
  {
    var n := |mandates|;
    var shares := (d: nat) => if OnChain(mandates, d, m) then OwnShare(mandates, holds, d) else 0;
    var spent := (d: nat) => if OnChain(mandates, d, m) then SumBy(holds, CommittedAmount(d)) else 0;
    EscrowTelescopes(mandates, m, n);
    assert mandates[..n] == mandates;
    forall d: nat | d < n
      ensures Retained(mandates, m, n)(d) == shares(d)
      ensures 0 <= spent(d) <= shares(d)
    {
      assert Balanced(mandates, holds, events, d);
      SumBounds(holds, CommittedAmount(d));
      SumAtMost(holds, holds, CommittedAmount(d), LiveAmount(d));
    }
    SumToEqual(n, Retained(mandates, m, n), shares);
    SumToAtMost(n, spent, shares);
    SumToNonNegative(n, spent);
  }

  lemma {:induction false} SumToNonNegative(n: nat, f: nat -> int)
    requires forall i: nat :: i < n ==> f(i) >= 0
    ensures SumTo(n, f) >= 0
  {
    if n > 0 {
      SumToNonNegative(n - 1, f);
    }
  }
}
