// Idempotency: one claim per principal and key, held by exactly one attempt that is not released.
module Keys {
  import opened Model
  import opened Sums
  import opened LedgerSpec
  import opened Universe

  predicate UsesKey(inv: Invocation, ck: ClaimKey)
  {
    Present(inv.key) && ClaimKeyOf(inv.principal, inv.key) == ck
  }

  predicate IsLive(inv: Invocation)
  {
    HoldStatusOf(inv.status) != Released
  }

  /** The attempt holds the claim on its key. */
  predicate HoldsClaim(inv: Invocation, ck: ClaimKey)
  {
    UsesKey(inv, ck) && IsLive(inv)
  }

  function LiveWith(ck: ClaimKey): Invocation -> int
  {
    (inv: Invocation) => One(HoldsClaim(inv, ck))
  }

  predicate CompletedFor(claims: map<ClaimKey, Claim>, ck: ClaimKey)
  {
    ck in claims && claims[ck].status == ClaimCompleted
  }

  /** A claim says completed exactly when the attempt that holds it is committed, and carries that attempt's hash. */
  predicate ClaimTellsEnding(invocations: seq<Invocation>, claims: map<ClaimKey, Claim>, i: InvocationId)
    requires i < |invocations|
  {
    var inv := invocations[i];
    Present(inv.key) && IsLive(inv) ==>
      var ck := ClaimKeyOf(inv.principal, inv.key);
      && (CompletedFor(claims, ck) <==> HoldStatusOf(inv.status) == Committed)
      && (ck in claims ==> claims[ck].hash == inv.hash)
  }

  predicate SameKey(a: Invocation, b: Invocation)
  {
    Present(a.key) && Present(b.key) && a.principal == b.principal && a.key == b.key
  }

  ghost predicate OneChargePerKey(invocations: seq<Invocation>, claims: map<ClaimKey, Claim>)
  {
    && (forall ck: ClaimKey :: SumBy(invocations, LiveWith(ck)) == One(ck in claims))
    && (forall i :: 0 <= i < |invocations| ==> ClaimTellsEnding(invocations, claims, i))
    && (forall i, j :: 0 <= i < j < |invocations| && SameKey(invocations[i], invocations[j])
          ==> !IsLive(invocations[i]))
  }

  /** Completed claims stay, with the result they were completed with. */
  ghost predicate CompletedKept(before: map<ClaimKey, Claim>, after: map<ClaimKey, Claim>)
  {
    forall ck :: CompletedFor(before, ck) ==> ck in after && after[ck] == before[ck]
  }

  /** Two different attempts are never both live under one key. */
  lemma LiveAttemptIsAlone(invocations: seq<Invocation>, claims: map<ClaimKey, Claim>, i: InvocationId, ck: ClaimKey)
    requires OneChargePerKey(invocations, claims)
    requires i < |invocations| && UsesKey(invocations[i], ck) && IsLive(invocations[i])
    ensures ck in claims
    ensures forall j :: 0 <= j < |invocations| && j != i && UsesKey(invocations[j], ck) ==> !IsLive(invocations[j])
  {
    SumBounds(invocations, LiveWith(ck));
    assert LiveWith(ck)(invocations[i]) == 1;
    assert SumBy(invocations, LiveWith(ck)) == One(ck in claims);
    forall j | 0 <= j < |invocations| && j != i && UsesKey(invocations[j], ck)
      ensures !IsLive(invocations[j])
    {
      var first, second := if i < j then i else j, if i < j then j else i;
      assert LiveWith(ck)(invocations[first]) + LiveWith(ck)(invocations[second]) <= 1;
    }
  }

  /** Without a claim every attempt with the key has been released. */
  lemma NoClaimNoLiveAttempt(invocations: seq<Invocation>, claims: map<ClaimKey, Claim>, ck: ClaimKey)
    requires OneChargePerKey(invocations, claims)
    requires ck !in claims
    ensures forall j :: 0 <= j < |invocations| && UsesKey(invocations[j], ck) ==> !IsLive(invocations[j])
  {
    SumBounds(invocations, LiveWith(ck));
    assert SumBy(invocations, LiveWith(ck)) == 0;
    forall j | 0 <= j < |invocations| && UsesKey(invocations[j], ck)
      ensures !IsLive(invocations[j])
    {
      assert LiveWith(ck)(invocations[j]) <= 0;
    }
  }

  lemma OpenKeepsKeys(db: Db, r: Request, now: Time)
    requires r.mandate < |db.mandates| && !Claimed(db, r)
    requires OneChargePerKey(db.invocations, db.claims)
    ensures OneChargePerKey(Open(db, r, now).invocations, Open(db, r, now).claims)
    ensures CompletedKept(db.claims, Open(db, r, now).claims)
  {
    var after := Open(db, r, now);
    var inv := NewInvocation(db, r);
    forall ck: ClaimKey
      ensures SumBy(after.invocations, LiveWith(ck)) == One(ck in after.claims)
    {
      SumAppend(db.invocations, inv, LiveWith(ck));
      assert SumBy(db.invocations, LiveWith(ck)) == One(ck in db.claims);
    }
    if Present(r.key) {
      NoClaimNoLiveAttempt(db.invocations, db.claims, ClaimKeyOf(inv.principal, r.key));
    }
    forall i | 0 <= i < |after.invocations|
      ensures ClaimTellsEnding(after.invocations, after.claims, i)
    {
      assert i < |db.invocations| ==> ClaimTellsEnding(db.invocations, db.claims, i);
    }
  }

  /** Rewriting one attempt's status, and the claims accordingly, keeps the count of live attempts. */
  lemma StatusKeepsOrder(invocations: seq<Invocation>, claims: map<ClaimKey, Claim>, i: InvocationId, to: InvocationStatus)
    requires OneChargePerKey(invocations, claims)
    requires i < |invocations| && IsLive(invocations[i])
    ensures var after := invocations[i := invocations[i].(status := to)];
            && (forall ck: ClaimKey ::
                  SumBy(after, LiveWith(ck))
                  == One(ck in claims) - One(UsesKey(invocations[i], ck) && HoldStatusOf(to) == Released))
            && (forall a, b :: 0 <= a < b < |after| && SameKey(after[a], after[b]) ==> !IsLive(after[a]))
  {
    var after := invocations[i := invocations[i].(status := to)];
    forall ck: ClaimKey
      ensures SumBy(after, LiveWith(ck)) == One(ck in claims) - One(UsesKey(invocations[i], ck) && HoldStatusOf(to) == Released)
    {
      SumUpdate(invocations, i, after[i], LiveWith(ck));
      assert SumBy(invocations, LiveWith(ck)) == One(ck in claims);
    }
    forall a, b | 0 <= a < b < |after| && SameKey(after[a], after[b])
      ensures !IsLive(after[a])
    {
      assert SameKey(invocations[a], invocations[b]);
      assert !IsLive(invocations[a]);
    }
  }

  lemma OpenMoveKeepsKeys(db: Db, i: InvocationId, status: InvocationStatus)
    requires OneChargePerKey(db.invocations, db.claims)
    requires i < |db.invocations| && IsOpen(db.invocations[i].status) && IsOpen(status)
    ensures OneChargePerKey(WithStatus(db, i, status).invocations, db.claims)
  {
    var after := WithStatus(db, i, status).invocations;
    StatusKeepsOrder(db.invocations, db.claims, i, status);
    forall k | 0 <= k < |after|
      ensures ClaimTellsEnding(after, db.claims, k)
    {
      assert ClaimTellsEnding(db.invocations, db.claims, k);
    }
    forall ck: ClaimKey
      ensures SumBy(after, LiveWith(ck)) == One(ck in db.claims)
    {
    }
  }

  /** Completing finds the claim its own attempt inserted: the insert branch is never taken. */
  lemma CompletionFindsItsClaim(db: Db, i: InvocationId)
    requires OneChargePerKey(db.invocations, db.claims)
    requires i < |db.invocations| && IsOpen(db.invocations[i].status) && Present(db.invocations[i].key)
    ensures var ck := ClaimKeyOf(db.invocations[i].principal, db.invocations[i].key);
            ck in db.claims && db.claims[ck].status == ClaimInProgress && db.claims[ck].hash == db.invocations[i].hash
  {
    var inv := db.invocations[i];
    LiveAttemptIsAlone(db.invocations, db.claims, i, ClaimKeyOf(inv.principal, inv.key));
    assert ClaimTellsEnding(db.invocations, db.claims, i);
  }

  lemma SettleKeepsKeys(db: Db, i: InvocationId, to: InvocationStatus, result: Option<string>)
    requires OneChargePerKey(db.invocations, db.claims)
    requires i < |db.invocations| && IsOpen(db.invocations[i].status) && HoldStatusOf(to) == Committed
    ensures var claims := CompletedClaims(db.claims, db.invocations[i], result);
            OneChargePerKey(WithStatus(db, i, to).invocations, claims) && CompletedKept(db.claims, claims)
  {
    var after, inv := WithStatus(db, i, to).invocations, db.invocations[i];
    var claims := CompletedClaims(db.claims, inv, result);
    StatusKeepsOrder(db.invocations, db.claims, i, to);
    if Present(inv.key) {
      CompletionFindsItsClaim(db, i);
      LiveAttemptIsAlone(db.invocations, db.claims, i, ClaimKeyOf(inv.principal, inv.key));
    }
    forall k | 0 <= k < |after|
      ensures ClaimTellsEnding(after, claims, k)
    {
      assert ClaimTellsEnding(db.invocations, db.claims, k);
      assert k != i ==> after[k] == db.invocations[k];
    }
    forall ck: ClaimKey
      ensures SumBy(after, LiveWith(ck)) == One(ck in claims)
    {
    }
  }

  lemma UnwindKeepsKeys(db: Db, i: InvocationId, to: InvocationStatus)
    requires OneChargePerKey(db.invocations, db.claims)
    requires i < |db.invocations| && IsOpen(db.invocations[i].status) && HoldStatusOf(to) == Released
    ensures var claims := ClearedClaims(db.claims, db.invocations[i]);
            OneChargePerKey(WithStatus(db, i, to).invocations, claims) && CompletedKept(db.claims, claims)
  {
    var after, inv := WithStatus(db, i, to).invocations, db.invocations[i];
    var claims := ClearedClaims(db.claims, inv);
    StatusKeepsOrder(db.invocations, db.claims, i, to);
    if Present(inv.key) {
      CompletionFindsItsClaim(db, i);
      LiveAttemptIsAlone(db.invocations, db.claims, i, ClaimKeyOf(inv.principal, inv.key));
    }
    forall k | 0 <= k < |after|
      ensures ClaimTellsEnding(after, claims, k)
    {
      assert ClaimTellsEnding(db.invocations, db.claims, k);
      assert k != i ==> after[k] == db.invocations[k];
    }
    forall ck: ClaimKey
      ensures SumBy(after, LiveWith(ck)) == One(ck in claims)
    {
    }
  }

  /** A claim exists exactly when some attempt holds it, and then exactly one does. */
  lemma ClaimIsHeldByOne(invocations: seq<Invocation>, claims: map<ClaimKey, Claim>, ck: ClaimKey)
    requires OneChargePerKey(invocations, claims)
    ensures ck in claims <==> exists i :: 0 <= i < |invocations| && HoldsClaim(invocations[i], ck)
    ensures forall i, j | 0 <= i < |invocations| && 0 <= j < |invocations| ::
              HoldsClaim(invocations[i], ck) && HoldsClaim(invocations[j], ck) ==> i == j
  {
    assert SumBy(invocations, LiveWith(ck)) == One(ck in claims);
    if forall i :: 0 <= i < |invocations| ==> !HoldsClaim(invocations[i], ck) {
      SumZero(invocations, LiveWith(ck));
    }
    forall i | 0 <= i < |invocations| && HoldsClaim(invocations[i], ck)
      ensures ck in claims
      ensures forall j :: 0 <= j < |invocations| && HoldsClaim(invocations[j], ck) ==> i == j
    {
      LiveAttemptIsAlone(invocations, claims, i, ck);
    }
  }
}
