// Used nonces: one per principal, shared by mandates and by the attempts made under them.
module Nonces {
  import opened Model
  import opened Sums
  import opened LedgerSpec
  import opened Lifecycle
  import opened Universe
  import History
  import Mandates

  function IssuedWith(n: Nonce): Mandate -> int
  {
    (m: Mandate) => One(Nonce(m.principal, m.nonce) == n)
  }

  function OpenedWith(n: Nonce): Hold -> int
  {
    (h: Hold) => One(Present(h.nonce) && Nonce(h.principal, h.nonce.value) == n)
  }

  /** How often a nonce was used: by mandates issued with it and attempts opened with it. */
  function UsesOf(mandates: seq<Mandate>, holds: seq<Hold>, n: Nonce): int
  {
    SumBy(mandates, IssuedWith(n)) + SumBy(holds, OpenedWith(n))
  }

  /** No nonce is used twice, and only a recorded one is used. */
  ghost predicate UsedOnce(mandates: seq<Mandate>, holds: seq<Hold>, nonces: set<Nonce>)
  {
    forall n: Nonce :: UsesOf(mandates, holds, n) <= One(n in nonces)
  }

  /** A nonce is used at most once, by the unit that records it, and never after that. */
  predicate UsedWhenRecorded(a: Db, b: Db, n: Nonce)
  {
    && a.nonces <= b.nonces
    && UsesOf(b.mandates, b.holds, n) <= UsesOf(a.mandates, a.holds, n) + One(n !in a.nonces && n in b.nonces)
  }

  /** Rows that are kept use what they used. */
  lemma SameUses(a: Db, b: Db, n: Nonce)
    requires Mandates.Extends(a.mandates, b.mandates) && |a.mandates| == |b.mandates|
    requires History.HoldsContinue(a.holds, b.holds) && |a.holds| == |b.holds|
    ensures UsesOf(b.mandates, b.holds, n) == UsesOf(a.mandates, a.holds, n)
  {
    forall m | 0 <= m < |a.mandates|
      ensures IssuedWith(n)(a.mandates[m]) == IssuedWith(n)(b.mandates[m])
    {
      assert Mandates.Columns(b.mandates[m]).nonce == Mandates.Columns(a.mandates[m]).nonce;
      assert Mandates.Columns(b.mandates[m]).principal == Mandates.Columns(a.mandates[m]).principal;
    }
    forall h | 0 <= h < |a.holds|
      ensures OpenedWith(n)(a.holds[h]) == OpenedWith(n)(b.holds[h])
    {
      assert History.HoldContinues(a.holds[h], b.holds[h]);
    }
    SumEqual(a.mandates, b.mandates, IssuedWith(n), IssuedWith(n));
    SumEqual(a.holds, b.holds, OpenedWith(n), OpenedWith(n));
  }

  /** A call uses its nonce in the transaction that records it. */
  lemma ReserveUses(db: Db, r: Request, copy: MandateCopy, now: Time, later: Time, n: Nonce)
    requires Reservable(db, r)
    ensures UsedWhenRecorded(db, ReserveCall(db, r, copy, now, later).0, n)
  {
    var after := ReserveCall(db, r, copy, now, later).0;
    History.ReserveFollows(db, r, copy, now, later);
    if ReserveCall(db, r, copy, now, later).1.Opened? {
      SameUses(db, after.(holds := db.holds), n);
      SumAppend(db.holds, after.holds[|db.holds|], OpenedWith(n));
    }
  }

  lemma IssueUses(db: Db, q: Mandates.Issue, copy: MandateCopy, now: Time, later: Time, n: Nonce)
    ensures UsedWhenRecorded(db, Mandates.IssueMandate(db, q, copy, now, later).0, n)
  {
    var after := Mandates.IssueMandate(db, q, copy, now, later).0;
    if Mandates.IssueMandate(db, q, copy, now, later).1.Issued? {
      SumAppend(db.mandates, Mandates.NewMandate(db.principals, q), IssuedWith(n));
      SameUses(Mandates.Inserted(db, q), after, n);
    }
  }

  lemma UnitUses(db: Db, u: Unit, n: Nonce)
    ensures UsedWhenRecorded(db, Perform(db, u), n)
  {
    if u.Reserve? {
      if Reservable(db, u.r) {
        ReserveUses(db, u.r, u.copy, u.now, u.later, n);
      }
    } else if u.Issue? {
      IssueUses(db, u.q, u.copy, u.now, u.later, n);
    } else {
      History.RowsAreAdded(db, u);
      History.UnitFollows(db, u);
      SameUses(db, Perform(db, u), n);
    }
  }

  lemma UnitKeepsUses(db: Db, u: Unit)
    requires UsedOnce(db.mandates, db.holds, db.nonces)
    ensures UsedOnce(Perform(db, u).mandates, Perform(db, u).holds, Perform(db, u).nonces)
  {
    forall n: Nonce
      ensures UsesOf(Perform(db, u).mandates, Perform(db, u).holds, n) <= One(n in Perform(db, u).nonces)
    {
      UnitUses(db, u, n);
      assert UsesOf(db.mandates, db.holds, n) <= One(n in db.nonces);
    }
  }

  /** Once recorded, a nonce is used by nothing new. */
  lemma {:induction false} RecordedNonceIsUsedUp(w: World, labels: seq<Label>, n: Nonce)
    requires n in w.db.nonces
    ensures n in Run(w, labels).db.nonces
    ensures UsesOf(Run(w, labels).db.mandates, Run(w, labels).db.holds, n) <= UsesOf(w.db.mandates, w.db.holds, n)
    decreases labels
  {
    if labels != [] {
      UnitUses(w.db, UnitOf(w, labels[0]), n);
      RecordedNonceIsUsedUp(Apply(w, labels[0]), labels[1..], n);
    }
  }
}
