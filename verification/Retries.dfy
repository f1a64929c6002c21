// "After 8 attempts the row is dead": what the retries of a charge come to when workers complete late,
// from copies of the row older than its last completion.
module Retries {
  import opened Model
  import opened Outbox

  // ----- counting completed attempts -----

  function Completion(d: Desk, l: Label, oid: OutboxId): nat
  {
    if Completes(d, l, oid) then 1 else 0
  }

  function CompletionsOf(d: Desk, labels: seq<Label>, oid: OutboxId): nat
    decreases labels
  {
    if labels == [] then 0
    else Completion(d, labels[0], oid) + CompletionsOf(Apply(d, labels[0]), labels[1..], oid)
  }

  predicate NeverRequeued(d: Desk, labels: seq<Label>, oid: OutboxId)
    decreases labels
  {
    labels != [] ==> !Requeues(d, labels[0], oid) && NeverRequeued(Apply(d, labels[0]), labels[1..], oid)
  }

  /** The completing worker's copy of the count is the row's. */
  predicate CopyIsCurrent(d: Desk, l: Label, oid: OutboxId)
  {
    Completes(d, l, oid) ==> d.tickets[l.ticket].attempts == d.rows[oid].attempts
  }

  /** Nobody completes the row in the run from a copy older than its last completion. */
  predicate CopiesCurrent(d: Desk, labels: seq<Label>, oid: OutboxId)
    decreases labels
  {
    labels != [] ==> CopyIsCurrent(d, labels[0], oid) && CopiesCurrent(Apply(d, labels[0]), labels[1..], oid)
  }

  /** The row's count is at most c, and no open job brings c to it unless it is there already. */
  predicate Behind(d: Desk, oid: OutboxId, c: int)
  {
    && oid < |d.rows| && d.rows[oid].attempts <= c
    && forall t :: 0 <= t < |d.tickets| && d.tickets[t].open && d.tickets[t].oid == oid ==>
         d.tickets[t].attempts <= c && (d.tickets[t].attempts == c ==> d.rows[oid].attempts == c)
  }

  /** One step moves the bound with the completions, and stays on it only with a current copy. */
  lemma StepKeepsBehind(d: Desk, l: Label, oid: OutboxId, c: int)
    requires Behind(d, oid, c) && !Requeues(d, l, oid)
    ensures var next := c + Completion(d, l, oid);
            && Behind(Apply(d, l), oid, next)
            && (Apply(d, l).rows[oid].attempts == next <==> d.rows[oid].attempts == c && CopyIsCurrent(d, l, oid))
  {
    if l.Finish? && Working(d, l.ticket) {
      assert d.tickets[l.ticket].oid == oid ==> d.tickets[l.ticket].attempts <= c;
    }
  }

  /**
   * The count never exceeds the completed attempts, and equals them exactly when every completion
   * was from a current copy.
   */
  lemma {:induction false} CountIsExactWithCurrentCopies(d: Desk, labels: seq<Label>, oid: OutboxId, c: int)
    requires Behind(d, oid, c) && NeverRequeued(d, labels, oid)
    ensures oid < |Run(d, labels).rows|
    ensures Run(d, labels).rows[oid].attempts <= c + CompletionsOf(d, labels, oid)
    ensures Run(d, labels).rows[oid].attempts == c + CompletionsOf(d, labels, oid)
            <==> d.rows[oid].attempts == c && CopiesCurrent(d, labels, oid)
    decreases labels
  {
    if labels != [] {
      StepKeepsBehind(d, labels[0], oid, c);
      CountIsExactWithCurrentCopies(Apply(d, labels[0]), labels[1..], oid, c + Completion(d, labels[0], oid));
    }
  }

  /** Minutes of backoff a step prescribes to the row, if it is a failure of it. */
  function BackoffAt(d: Desk, l: Label, oid: OutboxId): int
  {
    if Completes(d, l, oid) && Apply(d, l).rows[oid].status == Failed
    then BackoffMinutes(Apply(d, l).rows[oid].attempts) else 0
  }

  /** Minutes of backoff prescribed to the row by the failures in the run. */
  function BackoffOf(d: Desk, labels: seq<Label>, oid: OutboxId): int
    decreases labels
  {
    if labels == [] then 0 else BackoffAt(d, labels[0], oid) + BackoffOf(Apply(d, labels[0]), labels[1..], oid)
  }

  /** The backoff prescribed by failures number 1 .. n. */
  function BackoffUpTo(n: nat): int
  {
    if n == 0 then 0 else BackoffUpTo(n - 1) + BackoffMinutes(n)
  }

  function Min7(n: int): nat
  {
    if n < 0 then 0 else if n < 7 then n else 7
  }

  /** 1 + 2 + 4 + 8 + 16 + 32 + 60. */
  lemma SevenBackoffs()
    ensures BackoffUpTo(7) == 123
  {
  }

  lemma {:induction false} BackoffGrows(m: nat, n: nat)
    requires m <= n
    ensures 0 <= BackoffUpTo(m) <= BackoffUpTo(n)
    decreases n
  {
    if m < n {
      BackoffGrows(m, n - 1);
    } else if n > 0 {
      BackoffGrows(n - 1, n - 1);
    }
  }

  lemma CurrentCopyCounts(d: Desk, l: Label, oid: OutboxId)
    requires Sound(d) && oid < |d.rows| && !Requeues(d, l, oid) && CopyIsCurrent(d, l, oid)
    ensures oid < |Apply(d, l).rows|
    ensures var after := Apply(d, l).rows[oid];
            && after.attempts == d.rows[oid].attempts + Completion(d, l, oid)
            && BackoffAt(d, l, oid) <= BackoffUpTo(Min7(after.attempts)) - BackoffUpTo(Min7(d.rows[oid].attempts))
  {
    assert RowOk(d.rows[oid]);
    var n := Min7(d.rows[oid].attempts);
    BackoffGrows(n, Min7(n + 1));
  }

  /** With current copies the row's count is its number of completed attempts, and each backs off once. */
  lemma {:induction false} CurrentCopiesCount(d: Desk, labels: seq<Label>, oid: OutboxId)
    requires Sound(d) && oid < |d.rows|
    requires NeverRequeued(d, labels, oid) && CopiesCurrent(d, labels, oid)
    ensures oid < |Run(d, labels).rows|
    ensures Run(d, labels).rows[oid].attempts == d.rows[oid].attempts + CompletionsOf(d, labels, oid)
    ensures BackoffOf(d, labels, oid)
            <= BackoffUpTo(Min7(Run(d, labels).rows[oid].attempts)) - BackoffUpTo(Min7(d.rows[oid].attempts))
    decreases labels
  {
    if labels != [] {
      StepKeepsSound(d, labels[0]);
      CurrentCopyCounts(d, labels[0], oid);
      CurrentCopiesCount(Apply(d, labels[0]), labels[1..], oid);
    }
  }

  // ----- from every charge and every requeue -----

  /** A row at zero attempts, new or requeued, ends within eight attempts if copies are current. */
  lemma RetriesEnd(d: Desk, labels: seq<Label>, oid: OutboxId)
    requires Sound(d) && oid < |d.rows| && d.rows[oid].attempts == 0
    requires NeverRequeued(d, labels, oid) && CopiesCurrent(d, labels, oid)
    ensures CompletionsOf(d, labels, oid) <= MAX_ATTEMPTS
    ensures oid < |Run(d, labels).rows|
    ensures CompletionsOf(d, labels, oid) == MAX_ATTEMPTS ==> Run(d, labels).rows[oid].status in {Sent, Noop, Dead}
    ensures BackoffOf(d, labels, oid) <= 123
  {
    CurrentCopiesCount(d, labels, oid);
    RunIsSound(d, labels);
    var final := Run(d, labels).rows[oid];
    assert RowOk(final);
    BackoffGrows(Min7(final.attempts), 7);
    SevenBackoffs();
  }

  /** At every point of the run the row's count is its completed attempts since d, on top of its count there. */
  predicate CountedThroughout(d: Desk, labels: seq<Label>, oid: OutboxId)
    requires oid < |d.rows|
  {
    forall k :: 0 <= k <= |labels| ==> CountedAt(d, labels[..k], oid)
  }

  predicate CountedAt(d: Desk, labels: seq<Label>, oid: OutboxId)
    requires oid < |d.rows|
  {
    && oid < |Run(d, labels).rows|
    && Run(d, labels).rows[oid].attempts == d.rows[oid].attempts + CompletionsOf(d, labels, oid)
  }

  /** The first step counts if its copy is current, and after it the rest of the run counts on. */
  lemma CountingUnfolds(d: Desk, labels: seq<Label>, oid: OutboxId)
    requires oid < |d.rows| && labels != [] && !Requeues(d, labels[0], oid)
    ensures oid < |Apply(d, labels[0]).rows|
    ensures CountedThroughout(d, labels, oid)
            <==> CopyIsCurrent(d, labels[0], oid) && CountedThroughout(Apply(d, labels[0]), labels[1..], oid)
  {
    var after := Apply(d, labels[0]);
    assert CopyIsCurrent(d, labels[0], oid) <==> after.rows[oid].attempts == d.rows[oid].attempts + Completion(d, labels[0], oid);
    forall k | 0 < k <= |labels|
      ensures Run(d, labels[..k]) == Run(after, labels[1..][..k - 1])
      ensures CompletionsOf(d, labels[..k], oid) == Completion(d, labels[0], oid) + CompletionsOf(after, labels[1..][..k - 1], oid)
    {
      assert labels[..k][1..] == labels[1..][..k - 1];
    }
    if CountedThroughout(d, labels, oid) {
      FirstCount(d, labels, oid);
    }
    if CountedThroughout(d, labels, oid) {
      forall k | 0 <= k <= |labels[1..]|
        ensures CountedAt(after, labels[1..][..k], oid)
      {
        assert CountedAt(d, labels[..k + 1], oid);
      }
    } else if CopyIsCurrent(d, labels[0], oid) && CountedThroughout(after, labels[1..], oid) {
      forall k | 0 <= k <= |labels|
        ensures CountedAt(d, labels[..k], oid)
      {
        if k > 0 {
          assert CountedAt(after, labels[1..][..k - 1], oid);
        }
      }
    }
  }

  lemma FirstCount(d: Desk, labels: seq<Label>, oid: OutboxId)
    requires oid < |d.rows| && labels != [] && CountedThroughout(d, labels, oid)
    ensures oid < |Apply(d, labels[0]).rows|
    ensures Apply(d, labels[0]).rows[oid].attempts == d.rows[oid].attempts + Completion(d, labels[0], oid)
  {
    assert CountedAt(d, labels[..1], oid);
    var l := labels[0];
    assert labels[..1] == [l] && [l][1..] == [];
    assert Run(d, [l]) == Run(Apply(d, l), []);
    assert CompletionsOf(d, [l], oid) == Completion(d, l, oid) + CompletionsOf(Apply(d, l), [], oid);
  }

  /** From any state, whatever jobs are open on the row: it counts throughout exactly with current copies. */
  lemma {:induction false} CountsThroughoutWithCurrentCopies(d: Desk, labels: seq<Label>, oid: OutboxId)
    requires oid < |d.rows| && NeverRequeued(d, labels, oid)
    ensures CountedThroughout(d, labels, oid) <==> CopiesCurrent(d, labels, oid)
    decreases labels
  {
    if labels == [] {
      assert labels[..0] == [];
    } else {
      CountingUnfolds(d, labels, oid);
      CountsThroughoutWithCurrentCopies(Apply(d, labels[0]), labels[1..], oid);
    }
  }

  /**
   * From d, where the row is at zero attempts, it is retried as promised exactly with current copies:
   * then its count is its completed attempts throughout, it is dead at no other than the eighth, has
   * ended for good by then, and was told to wait at most 123 minutes in all.
   */
  predicate RetriedThroughout(d: Desk, rest: seq<Label>, oid: OutboxId)
  {
    && oid < |d.rows| && oid < |Run(d, rest).rows|
    && (CountedThroughout(d, rest, oid) <==> CopiesCurrent(d, rest, oid))
    && (CopiesCurrent(d, rest, oid) ==>
          var final, n := Run(d, rest).rows[oid], CompletionsOf(d, rest, oid);
          && n <= MAX_ATTEMPTS
          && (final.status == Dead ==> n == MAX_ATTEMPTS)
          && (n == MAX_ATTEMPTS ==> final.status in {Sent, Noop, Dead})
          && BackoffOf(d, rest, oid) <= 123)
  }

  lemma RetriesEndThroughout(d: Desk, rest: seq<Label>, oid: OutboxId)
    requires Sound(d) && oid < |d.rows| && d.rows[oid].attempts == 0 && NeverRequeued(d, rest, oid)
    ensures RetriedThroughout(d, rest, oid)
  {
    CountsThroughoutWithCurrentCopies(d, rest, oid);
    StaysInOutbox(d, rest, oid);
    if CopiesCurrent(d, rest, oid) {
      RetriesEnd(d, rest, oid);
      CurrentCopiesCount(d, rest, oid);
      RunIsSound(d, rest);
      assert RowOk(Run(d, rest).rows[oid]);
    }
  }

  lemma {:induction false} StaysInOutbox(d: Desk, labels: seq<Label>, oid: OutboxId)
    requires oid < |d.rows|
    ensures oid < |Run(d, labels).rows|
    decreases labels
  {
    if labels != [] {
      StaysInOutbox(Apply(d, labels[0]), labels[1..], oid);
    }
  }

  /** The state right after one more step of a run from an empty outbox. */
  function After(before: seq<Label>, l: Label): Desk
  {
    Apply(Run(EMPTY, before), l)
  }

  /** The step charges the row or requeues it: its retries start, or start over. */
  predicate Starts(d: Desk, l: Label, oid: OutboxId)
  {
    Requeues(d, l, oid) || (l.Charge? && oid == |d.rows|)
  }

  lemma RetriesStartOver(d: Desk, start: Label, rest: seq<Label>, oid: OutboxId)
    requires Sound(d) && Starts(d, start, oid) && NeverRequeued(Apply(d, start), rest, oid)
    ensures RetriedThroughout(Apply(d, start), rest, oid)
  {
    StepKeepsSound(d, start);
    RetriesEndThroughout(Apply(d, start), rest, oid);
  }

  /** For every charge and every requeue, and every run until the next requeue. */
  lemma RetriesEndFromEveryStart(before: seq<Label>, start: Label, rest: seq<Label>, oid: OutboxId)
    requires Starts(Run(EMPTY, before), start, oid) && NeverRequeued(After(before, start), rest, oid)
    ensures RetriedThroughout(After(before, start), rest, oid)
  {
    RunIsSound(EMPTY, before);
    RetriesStartOver(Run(EMPTY, before), start, rest, oid);
  }

  // ----- from a charge: no job is open on the row yet -----

  /**
   * From a charge the final count tells: it never exceeds the completed attempts, and equals them if
   * and only if every completion was from a current copy. The row is never dead before the eighth,
   * and dead at the eighth exactly then.
   */
  predicate RetriedExactly(d: Desk, rest: seq<Label>, oid: OutboxId)
  {
    && oid < |Run(d, rest).rows|
    && var final, n := Run(d, rest).rows[oid], CompletionsOf(d, rest, oid);
    && final.attempts <= n
    && (final.attempts == n <==> CopiesCurrent(d, rest, oid))
    && (final.status == Dead ==> n >= MAX_ATTEMPTS)
    && (final.status == Dead ==> (n == MAX_ATTEMPTS <==> CopiesCurrent(d, rest, oid)))
  }

  /** "Dead after eight attempts", exactly, for every charge and every run in which it is not requeued. */
  lemma RetriesEndExactlyWithCurrentCopies(before: seq<Label>, charge: Label, rest: seq<Label>, oid: OutboxId)
    requires charge.Charge? && oid == |Run(EMPTY, before).rows|
    requires NeverRequeued(After(before, charge), rest, oid)
    ensures RetriedExactly(After(before, charge), rest, oid) && RetriedThroughout(After(before, charge), rest, oid)
  {
    var d := After(before, charge);
    RunIsSound(EMPTY, before);
    StepKeepsSound(Run(EMPTY, before), charge);
    assert forall t :: 0 <= t < |d.tickets| ==> TicketOk(Run(EMPTY, before), d.tickets[t]);
    CountIsExactWithCurrentCopies(d, rest, oid, 0);
    RunIsSound(d, rest);
    assert RowOk(Run(d, rest).rows[oid]);
    RetriesEndFromEveryStart(before, charge, rest, oid);
  }

  // ----- runs in parts -----

  lemma {:induction false} RunInTwoParts(d: Desk, before: seq<Label>, rest: seq<Label>, oid: OutboxId)
    ensures Run(d, before + rest) == Run(Run(d, before), rest)
    ensures CompletionsOf(d, before + rest, oid) == CompletionsOf(d, before, oid) + CompletionsOf(Run(d, before), rest, oid)
    decreases before
  {
    if before == [] {
      assert before + rest == rest;
    } else {
      assert (before + rest)[0] == before[0] && (before + rest)[1..] == before[1..] + rest;
      RunInTwoParts(Apply(d, before[0]), before[1..], rest, oid);
    }
  }

  lemma OneLabelMore(before: seq<Label>, l: Label)
    ensures Run(EMPTY, before + [l]) == After(before, l)
  {
    RunInTwoParts(EMPTY, before, [l], 0);
    assert Run(Run(EMPTY, before), [l]) == Run(Apply(Run(EMPTY, before), l), []);
  }

  lemma {:induction false} NotRequeuedByOneMore(d: Desk, labels: seq<Label>, l: Label, oid: OutboxId)
    requires NeverRequeued(d, labels, oid) && !Requeues(Run(d, labels), l, oid)
    ensures NeverRequeued(d, labels + [l], oid)
    ensures Run(d, labels + [l]) == Apply(Run(d, labels), l)
    decreases labels
  {
    if labels == [] {
      assert [] + [l] == [l] && [l][1..] == [];
    } else {
      assert (labels + [l])[0] == labels[0] && (labels + [l])[1..] == labels[1..] + [l];
      NotRequeuedByOneMore(Apply(d, labels[0]), labels[1..], l, oid);
    }
  }

  /** Every row of a run was last charged or requeued at one point of it. */
  lemma {:induction false} LastStart(labels: seq<Label>, oid: OutboxId)
    returns (before: seq<Label>, start: Label, rest: seq<Label>)
    requires oid < |Run(EMPTY, labels).rows|
    ensures labels == before + [start] + rest
    ensures Starts(Run(EMPTY, before), start, oid) && NeverRequeued(After(before, start), rest, oid)
    ensures Run(EMPTY, labels) == Run(After(before, start), rest)
    decreases |labels|
  {
    var front, last := labels[..|labels| - 1], labels[|labels| - 1];
    assert labels == front + [last];
    OneLabelMore(front, last);
    if Starts(Run(EMPTY, front), last, oid) {
      before, start, rest := front, last, [];
    } else {
      StillThere(Run(EMPTY, front), last, oid);
      var early;
      before, start, early := LastStart(front, oid);
      rest := early + [last];
      NotRequeuedByOneMore(After(before, start), early, last, oid);
      assert labels == before + [start] + rest;
    }
  }

  lemma StillThere(d: Desk, l: Label, oid: OutboxId)
    requires oid < |Apply(d, l).rows| && !(l.Charge? && oid == |d.rows|)
    ensures oid < |d.rows|
  {
    if !l.Charge? {
      DeliveryKeepsPayloads(d, l);
    }
  }

  // ----- when copies are current -----

  function TimeOf(l: Label, clock: Time): Time
  {
    match l
    case ClaimRow(_, now, _) => now
    case Finish(_, now) => now
    case Requeue(_, now) => now
    case Charge(_, _, _) => clock
    case Post(_, _, _) => clock
    case Refresh(_) => clock
  }

  /**
   * The clock does not run backwards, all workers use one lease, and whoever completes a row does so
   * within the lease it claimed the row with.
   */
  predicate Timely(d: Desk, labels: seq<Label>, clock: Time, lease: int)
    decreases labels
  {
    labels != [] ==>
      var l := labels[0];
      && TimeOf(l, clock) >= clock
      && (l.ClaimRow? ==> l.lease == lease)
      && (CompletesAny(d, l) ==> l.now < d.tickets[l.ticket].at + lease)
      && Timely(Apply(d, l), labels[1..], TimeOf(l, clock), lease)
  }

  /** The job that claimed the row last, its copy of the count up to date. */
  predicate IsCurrent(d: Desk, t: Ticket)
  {
    && t.oid < |d.rows| && d.rows[t.oid].status == Sending
    && d.rows[t.oid].claimedAt == Some(t.at) && d.rows[t.oid].attempts == t.attempts
  }

  predicate Expired(t: Ticket, clock: Time, lease: int)
  {
    clock >= t.at + lease
  }

  /** Every open job is current or past its lease. */
  predicate JobsCurrent(d: Desk, clock: Time, lease: int)
  {
    forall t :: 0 <= t < |d.tickets| && d.tickets[t].open ==>
      IsCurrent(d, d.tickets[t]) || Expired(d.tickets[t], clock, lease)
  }

  /** A row has at most one job within its lease. */
  predicate OneCurrentJob(d: Desk, clock: Time, lease: int)
  {
    forall t, u | 0 <= t < u < |d.tickets| && d.tickets[t].open && d.tickets[u].open ::
      d.tickets[t].oid == d.tickets[u].oid ==>
      Expired(d.tickets[t], clock, lease) || Expired(d.tickets[u], clock, lease)
  }

  lemma TimelyStepKeepsJobsCurrent(d: Desk, l: Label, clock: Time, lease: int)
    requires lease >= 1 && Timely(d, [l], clock, lease)
    requires JobsCurrent(d, clock, lease) && OneCurrentJob(d, clock, lease)
    ensures JobsCurrent(Apply(d, l), TimeOf(l, clock), lease)
  {
    var after, later := Apply(d, l), TimeOf(l, clock);
    forall t | 0 <= t < |after.tickets| && after.tickets[t].open
      ensures IsCurrent(after, after.tickets[t]) || Expired(after.tickets[t], later, lease)
    {
      if t < |d.tickets| {
        assert IsCurrent(d, d.tickets[t]) || Expired(d.tickets[t], clock, lease);
      }
    }
  }

  lemma TimelyStepKeepsOneCurrentJob(d: Desk, l: Label, clock: Time, lease: int)
    requires lease >= 1 && Timely(d, [l], clock, lease)
    requires JobsCurrent(d, clock, lease) && OneCurrentJob(d, clock, lease)
    ensures OneCurrentJob(Apply(d, l), TimeOf(l, clock), lease)
  {
  }

  /** Workers that complete within their leases complete from current copies. */
  lemma {:induction false} TimelyRunsHaveCurrentCopies(d: Desk, labels: seq<Label>, oid: OutboxId, clock: Time, lease: int)
    requires lease >= 1 && Timely(d, labels, clock, lease)
    requires JobsCurrent(d, clock, lease) && OneCurrentJob(d, clock, lease)
    ensures CopiesCurrent(d, labels, oid)
    decreases labels
  {
    if labels != [] {
      var l := labels[0];
      TimelyStepKeepsJobsCurrent(d, l, clock, lease);
      TimelyStepKeepsOneCurrentJob(d, l, clock, lease);
      TimelyRunsHaveCurrentCopies(Apply(d, l), labels[1..], oid, TimeOf(l, clock), lease);
      if Completes(d, l, oid) {
        assert IsCurrent(d, d.tickets[l.ticket]) || Expired(d.tickets[l.ticket], clock, lease);
      }
    }
  }

  lemma {:induction false} CopiesCurrentFromAnyPoint(d: Desk, before: seq<Label>, rest: seq<Label>, oid: OutboxId)
    requires CopiesCurrent(d, before + rest, oid)
    ensures CopiesCurrent(Run(d, before), rest, oid)
    decreases before
  {
    if before == [] {
      assert before + rest == rest;
    } else {
      assert (before + rest)[0] == before[0] && (before + rest)[1..] == before[1..] + rest;
      CopiesCurrentFromAnyPoint(Apply(d, before[0]), before[1..], rest, oid);
    }
  }

  /** So in a timely run from an empty outbox the condition holds from every point on, requeues included. */
  lemma TimelyStartsHaveCurrentCopies(before: seq<Label>, start: Label, rest: seq<Label>, oid: OutboxId,
                                      clock: Time, lease: int)
    requires lease >= 1 && Timely(EMPTY, before + [start] + rest, clock, lease)
    ensures CopiesCurrent(After(before, start), rest, oid)
  {
    TimelyRunsHaveCurrentCopies(EMPTY, before + [start] + rest, oid, clock, lease);
    CopiesCurrentFromAnyPoint(EMPTY, before + [start], rest, oid);
    OneLabelMore(before, start);
  }

  /** All of this for every row of every run, from its last charge or requeue on. */
  lemma EveryRowWasRetried(labels: seq<Label>, oid: OutboxId, clock: Time, lease: int)
    returns (before: seq<Label>, start: Label, rest: seq<Label>)
    requires oid < |Run(EMPTY, labels).rows|
    ensures labels == before + [start] + rest && Starts(Run(EMPTY, before), start, oid)
    ensures Run(EMPTY, labels) == Run(After(before, start), rest)
    ensures RetriedThroughout(After(before, start), rest, oid)
    ensures start.Charge? ==> RetriedExactly(After(before, start), rest, oid)
    ensures lease >= 1 && Timely(EMPTY, labels, clock, lease) ==> CopiesCurrent(After(before, start), rest, oid)
  {
    before, start, rest := LastStart(labels, oid);
    RetriesEndFromEveryStart(before, start, rest, oid);
    if start.Charge? {
      RetriesEndExactlyWithCurrentCopies(before, start, rest, oid);
    }
    if lease >= 1 && Timely(EMPTY, labels, clock, lease) {
      TimelyStartsHaveCurrentCopies(before, start, rest, oid, clock, lease);
    }
  }
}
