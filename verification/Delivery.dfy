// What each step of the billing outbox does to a row, written out, and how Stripe's answers decide which
// charges end as sent.
module Delivery {
  import opened Model
  import opened Outbox

  // ----- one step -----

  /** A row is taken if it is due and not used up, or if its claim is a lease old. */
  predicate CanTake(d: Desk, oid: OutboxId, now: Time, lease: int)
  {
    && oid < |d.rows|
    && var row := d.rows[oid];
    || ((row.status == Pending || row.status == Failed)
        && row.attempts < 8 && (row.nextAttempt.Some? ==> row.nextAttempt.value <= now))
    || (row.status == Sending && (row.claimedAt.Some? ==> row.claimedAt.value + lease <= now))
  }

  lemma ClaimExactly(d: Desk, oid: OutboxId, now: Time, lease: int)
    ensures Apply(d, ClaimRow(oid, now, lease))
            == if !CanTake(d, oid, now, lease) then d
               else Desk(d.rows[oid := d.rows[oid].(status := Sending, claimedAt := Some(now))],
                         d.tickets + [Ticket(oid, d.rows[oid].attempts, now, None, true)], d.stripe)
  {
  }

  /** Stripe records an answered key once, for the amount charged, and may record one it answered with an error. */
  lemma PostExactly(d: Desk, t: nat, result: PostResult, recorded: bool)
    ensures var after := Apply(d, Post(t, result, recorded));
            if !(t < |d.tickets| && d.tickets[t].open && d.tickets[t].oid < |d.rows| && d.tickets[t].result.None?)
            then after == d
            else
              var row := d.rows[d.tickets[t].oid];
              && after.rows == d.rows && after.tickets == d.tickets[t := d.tickets[t].(result := Some(result))]
              && after.stripe == (if row.receipt !in d.stripe && (result == PostOk || (result == PostFailed && recorded))
                                  then d.stripe[row.receipt := if row.amount < 0 then 0 else row.amount] else d.stripe)
  {
  }

  lemma RefreshExactly(d: Desk, t: nat)
    requires t < |d.tickets| && d.tickets[t].oid < |d.rows|
    ensures var ticket, row := d.tickets[t], d.rows[d.tickets[t].oid];
            Apply(d, Refresh(t))
            == if !ticket.open then d
               else d.(tickets := d.tickets[t := if row.status == Sending then ticket.(attempts := row.attempts)
                                                 else ticket.(open := false)])
  {
  }

  lemma RequeueExactly(d: Desk, only: Option<OutboxId>, now: Time)
    ensures var after := Apply(d, Requeue(only, now));
            && after == d.(rows := after.rows) && |after.rows| == |d.rows|
            && forall j: OutboxId :: j < |d.rows| ==>
                 after.rows[j] == if d.rows[j].status == Dead && (only == None || only == Some(j))
                                  then d.rows[j].(status := Pending, attempts := 0, nextAttempt := Some(now), claimedAt := None)
                                  else d.rows[j]
  {
  }

  /** 1, 2, 4, 8, 16, 32 minutes, then an hour. */
  function Backoff(n: int): int
  {
    if n <= 1 then 1 else if n == 2 then 2 else if n == 3 then 4 else if n == 4 then 8
    else if n == 5 then 16 else if n == 6 then 32 else 60
  }

  lemma {:induction false} PowersGrow(m: nat, n: nat)
    requires m <= n
    ensures Pow2(m) <= Pow2(n)
    decreases n
  {
    if m < n {
      PowersGrow(m, n - 1);
    }
  }

  lemma BackoffExactly(n: int)
    ensures BackoffMinutes(n) == Backoff(n)
  {
    assert Pow2(1) == 2 && Pow2(2) == 4 && Pow2(3) == 8 && Pow2(4) == 16 && Pow2(5) == 32 && Pow2(6) == 64;
    if n > 6 {
      PowersGrow(6, n - 1);
    }
  }

  /** How the answer to a job ends the row it is for: `n` is the job's number of attempts, this one included. */
  function EndedBy(row: OutboxRow, n: int, answer: PostResult, now: Time): OutboxRow
  {
    var done := row.(attempts := n, claimedAt := Some(now), nextAttempt := None);
    if answer == PostOk then done.(status := Sent)
    else if answer == PostNoop then done.(status := Noop)
    else if n < 8 then done.(status := Failed, nextAttempt := Some(now + Backoff(n) * 60 * 1_000_000))
    else done.(status := Dead)
  }

  /** A completing job ends its own row by its own answer, and touches nothing else. */
  lemma FinishExactly(d: Desk, t: nat, now: Time)
    requires t < |d.tickets| && d.tickets[t].oid < |d.rows|
    ensures var ticket, oid := d.tickets[t], d.tickets[t].oid;
            Apply(d, Finish(t, now))
            == if !ticket.open || ticket.result.None? then d
               else Desk(if d.rows[oid].status != Sending then d.rows
                         else d.rows[oid := EndedBy(d.rows[oid], ticket.attempts + 1, ticket.result.value, now)],
                         d.tickets[t := ticket.(open := false)], d.stripe)
  {
    BackoffExactly(d.tickets[t].attempts + 1);
  }

  // ----- Stripe's answers over a run -----

  /** The answer to the job that last completed the row. */
  function LastAnswer(d: Desk, labels: seq<Label>, oid: OutboxId, last: Option<PostResult>): Option<PostResult>
    decreases labels
  {
    if labels == [] then last
    else LastAnswer(Apply(d, labels[0]), labels[1..], oid,
                    if Completes(d, labels[0], oid) then d.tickets[labels[0].ticket].result else last)
  }

  /** The row tells the last answer: sent if it was ok, a no-op if it was that, and otherwise neither. */
  predicate Tells(d: Desk, oid: OutboxId, last: Option<PostResult>)
  {
    if oid >= |d.rows| then last.None?
    else
      && (d.rows[oid].status == Sent <==> last == Some(PostOk))
      && (d.rows[oid].status == Noop <==> last == Some(PostNoop))
      && (d.rows[oid].status == Failed || d.rows[oid].status == Dead ==> last == Some(PostFailed))
  }

  lemma StepTells(d: Desk, l: Label, oid: OutboxId, last: Option<PostResult>)
    requires Tells(d, oid, last)
    ensures Tells(Apply(d, l), oid, if Completes(d, l, oid) then d.tickets[l.ticket].result else last)
  {
  }

  lemma {:induction false} RunTells(d: Desk, labels: seq<Label>, oid: OutboxId, last: Option<PostResult>)
    requires Tells(d, oid, last)
    ensures Tells(Run(d, labels), oid, LastAnswer(d, labels, oid, last))
    decreases labels
  {
    if labels != [] {
      StepTells(d, labels[0], oid, last);
      RunTells(Apply(d, labels[0]), labels[1..], oid,
               if Completes(d, labels[0], oid) then d.tickets[labels[0].ticket].result else last);
    }
  }

  /** Over any run from an empty outbox a row is sent exactly if its last completion was answered ok. */
  lemma SentExactlyIfAnsweredOk(labels: seq<Label>, oid: OutboxId)
    requires oid < |Run(EMPTY, labels).rows|
    ensures var status, last := Run(EMPTY, labels).rows[oid].status, LastAnswer(EMPTY, labels, oid, None);
            && (status == Sent <==> last == Some(PostOk))
            && (status == Noop <==> last == Some(PostNoop))
            && (status == Failed || status == Dead ==> last == Some(PostFailed))
  {
    RunTells(EMPTY, labels, oid, None);
  }

  /** A row that can be taken, posted with an ok answer and completed undisturbed is sent and metered. */
  lemma OkIsDelivered(d: Desk, oid: OutboxId, now: Time, lease: int)
    requires Sound(d) && CanTake(d, oid, now, lease)
    ensures var t := |d.tickets|;
            var after := Apply(Apply(Apply(d, ClaimRow(oid, now, lease)), Post(t, PostOk, true)), Finish(t, now));
            && |after.rows| == |d.rows| && after.rows[oid].status == Sent
            && after.rows[oid].attempts == d.rows[oid].attempts + 1
            && d.rows[oid].receipt in after.stripe
            && after.stripe[d.rows[oid].receipt] == (if d.rows[oid].amount < 0 then 0 else d.rows[oid].amount)
  {
    var t := |d.tickets|;
    var taken := Apply(d, ClaimRow(oid, now, lease));
    ClaimExactly(d, oid, now, lease);
    assert MeterOk(d, oid);
    var posted := Apply(taken, Post(t, PostOk, true));
    PostExactly(taken, t, PostOk, true);
    FinishExactly(posted, t, now);
  }
}
