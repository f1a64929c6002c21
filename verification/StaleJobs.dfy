// Two runs of the outbox in which a worker completes from an old copy: one loses an attempt, the other
// ends a requeued row at its first failure.
module StaleJobs {
  import opened Model
  import opened Outbox
  import opened Retries

  const LEASE := 30 * SECOND
  const HOUR := 60 * MINUTE

  lemma TwoSteps(d: Desk, a: Label, b: Label, oid: OutboxId)
    ensures Run(d, [a, b]) == Apply(Apply(d, a), b)
    ensures CompletionsOf(d, [a, b], oid) == Completion(d, a, oid) + Completion(Apply(d, a), b, oid)
    ensures CopiesCurrent(d, [a, b], oid) <==> CopyIsCurrent(d, a, oid) && CopyIsCurrent(Apply(d, a), b, oid)
  {
    assert [a, b][1..] == [b] && [b][1..] == [];
    assert Run(Apply(d, a), [b]) == Run(Apply(Apply(d, a), b), []);
    assert CompletionsOf(Apply(d, a), [b], oid)
        == Completion(Apply(d, a), b, oid) + CompletionsOf(Apply(Apply(d, a), b), [], oid);
    assert CopiesCurrent(Apply(d, a), [b], oid) <==> CopyIsCurrent(Apply(d, a), b, oid);
  }

  lemma OneStep(d: Desk, a: Label, oid: OutboxId)
    ensures Run(d, [a]) == Apply(d, a) && CompletionsOf(d, [a], oid) == Completion(d, a, oid)
  {
    assert Run(d, [a]) == Run(Apply(d, a), []);
    assert CompletionsOf(d, [a], oid) == Completion(d, a, oid) + CompletionsOf(Apply(d, a), [], oid);
  }

  /** Claimed again, a row is ended by whichever job completes first, from that job's own copy. */
  lemma OldJobWritesItsCopy(d: Desk, t: nat, now: Time, lease: int, oid: OutboxId)
    requires Working(d, t) && d.tickets[t].oid == oid && d.tickets[t].result.Some?
    requires Claims(d, ClaimRow(oid, now, lease), oid)
    ensures var ls := [ClaimRow(oid, now, lease), Finish(t, now)];
            && |Run(d, ls).rows| == |d.rows| && CompletionsOf(d, ls, oid) == 1
            && Run(d, ls).rows[oid]
               == EndedRow(ClaimedRow(d.rows[oid], now), d.tickets[t].attempts + 1, d.tickets[t].result.value, now)
            && (CopiesCurrent(d, ls, oid) <==> d.tickets[t].attempts == d.rows[oid].attempts)
  {
    TwoSteps(d, ClaimRow(oid, now, lease), Finish(t, now), oid);
  }

  /** After a requeue an old job's copy can be ahead: its one failure ends the row for good. */
  lemma OldJobEndsARequeuedRow(d: Desk, t: nat, now: Time, lease: int)
    requires Working(d, t) && d.rows[d.tickets[t].oid].status == Dead
    requires d.tickets[t].attempts == MAX_ATTEMPTS - 1 && d.tickets[t].result == Some(PostFailed)
    ensures var oid := d.tickets[t].oid;
            var requeued := Apply(d, Requeue(Some(oid), now));
            var ls := [ClaimRow(oid, now, lease), Finish(t, now)];
            && requeued.rows[oid].attempts == 0 && CompletionsOf(requeued, ls, oid) == 1
            && |Run(requeued, ls).rows| == |d.rows| && Run(requeued, ls).rows[oid].status == Dead
            && !CopiesCurrent(requeued, ls, oid)
  {
    OldJobWritesItsCopy(Apply(d, Requeue(Some(d.tickets[t].oid), now)), t, now, lease, d.tickets[t].oid);
  }

  // ----- failing cycles -----

  /** The one row is due, after n failures by as many jobs. */
  predicate Due(d: Desk, n: nat, now: Time)
  {
    && |d.rows| == 1 && |d.tickets| == n < MAX_ATTEMPTS
    && d.rows[0].attempts == n && d.rows[0].status in {Pending, Failed}
    && (d.rows[0].nextAttempt.None? || d.rows[0].nextAttempt.value <= now)
  }

  function Cycle(t: nat): seq<Label>
  {
    [ClaimRow(0, t * HOUR, LEASE), Post(t, PostFailed, false)] + [Finish(t, t * HOUR)]
  }

  /** An hour is enough backoff for any failure but the eighth. */
  lemma CycleFails(d: Desk, n: nat)
    requires Due(d, n, n * HOUR) && n + 1 < MAX_ATTEMPTS
    ensures Due(Run(d, Cycle(n)), n + 1, (n + 1) * HOUR)
  {
    var claim, post, finish := ClaimRow(0, n * HOUR, LEASE), Post(n, PostFailed, false), Finish(n, n * HOUR);
    TwoSteps(d, claim, post, 0);
    var posted := Run(d, [claim, post]);
    assert posted.rows == [ClaimedRow(d.rows[0], n * HOUR)];
    assert posted.tickets == d.tickets + [Ticket(0, n, n * HOUR, Some(PostFailed), true)];
    RunInTwoParts(d, [claim, post], [finish], 0);
    OneStep(posted, finish, 0);
  }

  function Failures(n: nat): seq<Label>
  {
    if n == 0 then [] else Failures(n - 1) + Cycle(n - 1)
  }

  function Fresh(): Desk
  {
    After([], Charge(5, 0, None))
  }

  lemma {:induction false} FailuresReach(n: nat)
    requires n < MAX_ATTEMPTS
    ensures Due(Run(Fresh(), Failures(n)), n, n * HOUR)
  {
    if n > 0 {
      FailuresReach(n - 1);
      CycleFails(Run(Fresh(), Failures(n - 1)), n - 1);
      RunInTwoParts(Fresh(), Failures(n - 1), Cycle(n - 1), 0);
    }
  }

  // ----- two jobs on one row -----

  /** One worker outlives its lease; another takes the row over and fails. */
  function Overlap(n: nat, now: Time): seq<Label>
  {
    [ClaimRow(0, now, LEASE), Post(n, PostFailed, false)]
    + ([ClaimRow(0, now + LEASE, LEASE), Post(n + 1, PostFailed, false)] + [Finish(n + 1, now + LEASE)])
  }

  lemma OverlapLeavesAnOldJob(d: Desk, n: nat, now: Time)
    requires Due(d, n, now)
    ensures var e := Run(d, Overlap(n, now));
            && CompletionsOf(d, Overlap(n, now), 0) == 1
            && Working(e, n) && e.tickets[n] == Ticket(0, n, now, Some(PostFailed), true)
            && e.rows == [EndedRow(ClaimedRow(d.rows[0], now + LEASE), n + 1, PostFailed, now + LEASE)]
  {
    var finish := Finish(n + 1, now + LEASE);
    FirstJob(d, n, now);
    var d2 := Run(d, [ClaimRow(0, now, LEASE), Post(n, PostFailed, false)]);
    SecondJob(d2, n, now);
    var second := [ClaimRow(0, now + LEASE, LEASE), Post(n + 1, PostFailed, false)];
    var d4 := Run(d2, second);
    RunInTwoParts(d2, second, [finish], 0);
    OneStep(d4, finish, 0);
    RunInTwoParts(d, [ClaimRow(0, now, LEASE), Post(n, PostFailed, false)], second + [finish], 0);
  }

  lemma FirstJob(d: Desk, n: nat, now: Time)
    requires Due(d, n, now)
    ensures var ls := [ClaimRow(0, now, LEASE), Post(n, PostFailed, false)];
            && CompletionsOf(d, ls, 0) == 0 && Run(d, ls).rows == [ClaimedRow(d.rows[0], now)]
            && Run(d, ls).tickets == d.tickets + [Ticket(0, n, now, Some(PostFailed), true)]
  {
    TwoSteps(d, ClaimRow(0, now, LEASE), Post(n, PostFailed, false), 0);
  }

  /** A lease later the row can be taken over. */
  lemma SecondJob(d: Desk, n: nat, now: Time)
    requires |d.rows| == 1 && d.rows[0].status == Sending && d.rows[0].claimedAt == Some(now)
    requires |d.tickets| == n + 1 && d.rows[0].attempts == n
    ensures var ls := [ClaimRow(0, now + LEASE, LEASE), Post(n + 1, PostFailed, false)];
            && CompletionsOf(d, ls, 0) == 0 && Run(d, ls).rows == [ClaimedRow(d.rows[0], now + LEASE)]
            && Run(d, ls).tickets == d.tickets + [Ticket(0, n, now + LEASE, Some(PostFailed), true)]
  {
    TwoSteps(d, ClaimRow(0, now + LEASE, LEASE), Post(n + 1, PostFailed, false), 0);
  }

  /** Two completed attempts, and a count of one: the taker's failure, then the old job's from its old copy. */
  lemma StaleCompletionIsNotCounted()
    ensures var ls := Overlap(0, 0) + [ClaimRow(0, 90 * SECOND, LEASE), Finish(0, 90 * SECOND)];
            CompletionsOf(Fresh(), ls, 0) == 2 && |Run(Fresh(), ls).rows| == 1
            && Run(Fresh(), ls).rows[0].attempts == 1
  {
    var overlapped, late := Run(Fresh(), Overlap(0, 0)), [ClaimRow(0, 90 * SECOND, LEASE), Finish(0, 90 * SECOND)];
    OverlapLeavesAnOldJob(Fresh(), 0, 0);
    OldJobWritesItsCopy(overlapped, 0, 90 * SECOND, LEASE, 0);
    RunInTwoParts(Fresh(), Overlap(0, 0), late, 0);
  }

  /** n failures an hour apart, then two jobs on the next attempt, of which one fails. */
  function FailuresAndAnOverlap(n: nat): seq<Label>
  {
    [Charge(5, 0, None)] + (Failures(n) + Overlap(n, n * HOUR))
  }

  lemma FailedWithAnOldJob(n: nat)
    requires n < MAX_ATTEMPTS
    ensures var d := Run(EMPTY, FailuresAndAnOverlap(n));
            && Working(d, n) && d.tickets[n] == Ticket(0, n, n * HOUR, Some(PostFailed), true)
            && |d.rows| == 1 && (n + 1 == MAX_ATTEMPTS ==> d.rows[0].status == Dead)
  {
    FailuresReach(n);
    OverlapLeavesAnOldJob(Run(Fresh(), Failures(n)), n, n * HOUR);
    RunInTwoParts(Fresh(), Failures(n), Overlap(n, n * HOUR), 0);
    OneStep(EMPTY, Charge(5, 0, None), 0);
    RunInTwoParts(EMPTY, [Charge(5, 0, None)], Failures(n) + Overlap(n, n * HOUR), 0);
  }

  /** A run from an empty outbox in which a requeued row is dead again after one completed attempt. */
  lemma OneFailureEndsARequeuedRow(n: nat, now: Time)
    requires n == MAX_ATTEMPTS - 1
    ensures var before, requeue := FailuresAndAnOverlap(n), Requeue(Some(0), now);
            var requeued, ls := After(before, requeue), [ClaimRow(0, now, LEASE), Finish(n, now)];
            && Requeues(Run(EMPTY, before), requeue, 0)
            && |requeued.rows| == 1 && requeued.rows[0].attempts == 0
            && CompletionsOf(requeued, ls, 0) == 1 && !CopiesCurrent(requeued, ls, 0)
            && |Run(requeued, ls).rows| == 1 && Run(requeued, ls).rows[0].status == Dead
  {
    FailedWithAnOldJob(n);
    OldJobEndsARequeuedRow(Run(EMPTY, FailuresAndAnOverlap(n)), n, now, LEASE);
  }
}
