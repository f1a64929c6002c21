// crossing/billing.py: the billing outbox, its workers and Stripe, as a transition system. A ticket
// is one worker's job on one row; it may be carried on late, or never.
module Outbox {
  import opened Model
  import opened Sums
  import LedgerSpec

  const MAX_ATTEMPTS := 8
  const MINUTE := 60_000_000
  const SECOND := 1_000_000

  // ----- one row -----

  function Pow2(n: nat): nat
  {
    if n == 0 then 1 else 2 * Pow2(n - 1)
  }

  /** 1, 2, 4, 8, ... minutes, at most 60. */
  function BackoffMinutes(attempts: int): int
  {
    var n: nat := if attempts < 1 then 1 else attempts;
    if Pow2(n - 1) < 60 then Pow2(n - 1) else 60
  }

  datatype PostResult = PostNoop | PostOk | PostFailed

  predicate Claimable(row: OutboxRow, now: Time, stale: Time)
  {
    || (row.status in {Pending, Failed}
        && (row.nextAttempt.None? || row.nextAttempt.value <= now)
        && row.attempts < MAX_ATTEMPTS)
    || (row.status == Sending && (row.claimedAt.None? || row.claimedAt.value <= stale))
  }

  function ClaimedRow(row: OutboxRow, now: Time): OutboxRow
  {
    row.(status := Sending, claimedAt := Some(now))
  }

  /** `_terminal_values` applied to a row. */
  function EndedRow(row: OutboxRow, attemptsAfter: int, result: PostResult, now: Time): OutboxRow
  {
    var counted := row.(attempts := attemptsAfter, claimedAt := Some(now), nextAttempt := None);
    match result
    case PostNoop => counted.(status := Noop)
    case PostOk => counted.(status := Sent)
    case PostFailed =>
      if attemptsAfter >= MAX_ATTEMPTS then counted.(status := Dead)
      else counted.(status := Failed, nextAttempt := Some(now + BackoffMinutes(attemptsAfter) * MINUTE))
  }

  predicate Requeued(row: OutboxRow, id: OutboxId, only: Option<OutboxId>)
  {
    row.status == Dead && (only.None? || only.value == id)
  }

  function RequeuedRow(row: OutboxRow, now: Time): OutboxRow
  {
    row.(status := Pending, attempts := 0, nextAttempt := Some(now), claimedAt := None)
  }

  function RequeueDead(rows: seq<OutboxRow>, only: Option<OutboxId>, now: Time): seq<OutboxRow>
  {
    seq(|rows|, i requires 0 <= i < |rows| => if Requeued(rows[i], i, only) then RequeuedRow(rows[i], now) else rows[i])
  }

  // ----- the system -----

  /** A job: `attempts` is the count on the worker's copy of the row, read when it claimed or refreshed. */
  datatype Ticket = Ticket(oid: OutboxId, attempts: int, at: Time, result: Option<PostResult>, open: bool)

  /** Rows, jobs, and the meter events Stripe recorded, keyed by Idempotency-Key. */
  datatype Desk = Desk(rows: seq<OutboxRow>, tickets: seq<Ticket>, stripe: map<ReceiptId, int>)

  datatype Label =
    | Charge(amount: int, feeBps: int, account: Option<AccountId>)
    | ClaimRow(oid: OutboxId, now: Time, lease: int)
    | Post(ticket: nat, result: PostResult, recorded: bool)
    | Refresh(ticket: nat)
    | Finish(ticket: nat, now: Time)
    | Requeue(only: Option<OutboxId>, now: Time)

  predicate Working(d: Desk, t: nat)
  {
    t < |d.tickets| && d.tickets[t].open && d.tickets[t].oid < |d.rows|
  }

  /** An ok response means the key is recorded; after an error it may be recorded all the same. */
  function Metered(d: Desk, t: nat, l: Label): map<ReceiptId, int>
    requires l.Post? && Working(d, t)
  {
    var row := d.rows[d.tickets[t].oid];
    if row.receipt !in d.stripe && !l.result.PostNoop? && (l.result.PostOk? || l.recorded)
    then d.stripe[row.receipt := if row.amount < 0 then 0 else row.amount]
    else d.stripe
  }

  /** The completing compare and set finds the row still sending. */
  predicate Completes(d: Desk, l: Label, oid: OutboxId)
  {
    && l.Finish? && Working(d, l.ticket) && d.tickets[l.ticket].result.Some?
    && d.tickets[l.ticket].oid == oid && d.rows[oid].status == Sending
  }

  predicate CompletesAny(d: Desk, l: Label)
  {
    l.Finish? && l.ticket < |d.tickets| && Completes(d, l, d.tickets[l.ticket].oid)
  }

  predicate Claims(d: Desk, l: Label, oid: OutboxId)
  {
    l.ClaimRow? && l.oid == oid && oid < |d.rows| && Claimable(d.rows[oid], l.now, l.now - l.lease)
  }

  predicate Requeues(d: Desk, l: Label, oid: OutboxId)
  {
    l.Requeue? && oid < |d.rows| && Requeued(d.rows[oid], oid, l.only)
  }

  /** The row is taken, and the job starts from the count it had. */
  function Taken(d: Desk, oid: OutboxId, now: Time): Desk
    requires oid < |d.rows|
  {
    d.(rows := d.rows[oid := ClaimedRow(d.rows[oid], now)],
       tickets := d.tickets + [Ticket(oid, d.rows[oid].attempts, now, None, true)])
  }

  /** A worker that finds its row no longer sending gives the job up. */
  function Refreshed(d: Desk, t: nat): Desk
    requires Working(d, t)
  {
    var row := d.rows[d.tickets[t].oid];
    d.(tickets := d.tickets[t := if row.status == Sending then d.tickets[t].(attempts := row.attempts)
                                 else d.tickets[t].(open := false)])
  }

  /** The job is over; its row is ended if it is still sending. */
  function Finished(d: Desk, t: nat, now: Time): Desk
    requires Working(d, t) && d.tickets[t].result.Some?
  {
    var ticket := d.tickets[t];
    var row := d.rows[ticket.oid];
    d.(tickets := d.tickets[t := ticket.(open := false)],
       rows := if row.status != Sending then d.rows
               else d.rows[ticket.oid := EndedRow(row, ticket.attempts + 1, ticket.result.value, now)])
  }

  function Apply(d: Desk, l: Label): Desk
  {
    match l
    case Charge(amount, bps, account) =>
      d.(rows := d.rows + [LedgerSpec.FreshRow(|d.rows|, amount, bps, account)])
    case ClaimRow(oid, now, lease) =>
      if Claims(d, l, oid) then Taken(d, oid, now) else d
    case Post(t, result, _) =>
      if Working(d, t) && d.tickets[t].result.None? then
        d.(tickets := d.tickets[t := d.tickets[t].(result := Some(result))], stripe := Metered(d, t, l))
      else d
    case Refresh(t) =>
      if Working(d, t) then Refreshed(d, t) else d
    case Finish(t, now) =>
      if Working(d, t) && d.tickets[t].result.Some? then Finished(d, t, now) else d
    case Requeue(only, now) =>
      d.(rows := RequeueDead(d.rows, only, now))
  }

  function Run(d: Desk, labels: seq<Label>): Desk
    decreases labels
  {
    if labels == [] then d else Run(Apply(d, labels[0]), labels[1..])
  }

  const EMPTY := Desk([], [], map[])

  // ----- the row invariant -----

  predicate RowOk(row: OutboxRow)
  {
    match row.status
    case Pending => row.attempts == 0
    case Sending => 0 <= row.attempts < MAX_ATTEMPTS && row.claimedAt.Some?
    case Failed => 1 <= row.attempts < MAX_ATTEMPTS && row.nextAttempt.Some?
    case Dead => row.attempts == MAX_ATTEMPTS
    case Sent => 1 <= row.attempts <= MAX_ATTEMPTS
    case Noop => 1 <= row.attempts <= MAX_ATTEMPTS
  }

  /** A job's copy of the count is a count the row had while sending. */
  predicate TicketOk(d: Desk, t: Ticket)
  {
    t.oid < |d.rows| && 0 <= t.attempts < MAX_ATTEMPTS
  }

  /** Stripe holds at most one event per receipt, for the amount charged. */
  predicate MeterOk(d: Desk, oid: OutboxId)
    requires oid < |d.rows|
  {
    var row := d.rows[oid];
    && row.receipt == oid
    && (oid in d.stripe ==> d.stripe[oid] == if row.amount < 0 then 0 else row.amount)
    && (row.status == Sent ==> oid in d.stripe)
  }

  predicate Sound(d: Desk)
  {
    && (forall i :: 0 <= i < |d.rows| ==> RowOk(d.rows[i]) && MeterOk(d, i))
    && (forall t :: 0 <= t < |d.tickets| ==> TicketOk(d, d.tickets[t]))
    && (forall t :: 0 <= t < |d.tickets| && d.tickets[t].result == Some(PostOk) ==> d.tickets[t].oid in d.stripe)
    && (forall r :: r in d.stripe ==> r < |d.rows|)
  }

  lemma TakenIsSound(d: Desk, oid: OutboxId, now: Time, lease: int)
    requires Sound(d) && Claims(d, ClaimRow(oid, now, lease), oid)
    ensures Sound(Taken(d, oid, now))
  {
    assert RowOk(d.rows[oid]) && MeterOk(d, oid);
  }

  lemma PostedIsSound(d: Desk, l: Label)
    requires Sound(d) && l.Post?
    ensures Sound(Apply(d, l))
  {
    if Working(d, l.ticket) {
      var oid := d.tickets[l.ticket].oid;
      assert MeterOk(d, oid);
      forall i: nat | i < |d.rows|
        ensures MeterOk(Apply(d, l), i)
      {
        assert MeterOk(d, i);
      }
    }
  }

  lemma RefreshedIsSound(d: Desk, t: nat)
    requires Sound(d) && Working(d, t)
    ensures Sound(Refreshed(d, t))
  {
    assert RowOk(d.rows[d.tickets[t].oid]);
  }

  lemma FinishedIsSound(d: Desk, t: nat, now: Time)
    requires Sound(d) && Working(d, t) && d.tickets[t].result.Some?
    ensures Sound(Finished(d, t, now))
  {
    assert TicketOk(d, d.tickets[t]);
    assert RowOk(d.rows[d.tickets[t].oid]) && MeterOk(d, d.tickets[t].oid);
  }

  lemma RequeueIsSound(d: Desk, only: Option<OutboxId>, now: Time)
    requires Sound(d)
    ensures Sound(d.(rows := RequeueDead(d.rows, only, now)))
  {
    var after := d.(rows := RequeueDead(d.rows, only, now));
    forall i: nat | i < |d.rows|
      ensures RowOk(after.rows[i]) && MeterOk(after, i)
    {
      assert RowOk(d.rows[i]) && MeterOk(d, i);
    }
  }

  lemma StepKeepsSound(d: Desk, l: Label)
    requires Sound(d)
    ensures Sound(Apply(d, l))
  {
    match l
    case Charge(_, _, _) =>
    case ClaimRow(oid, now, lease) =>
      if Claims(d, l, oid) {
        TakenIsSound(d, oid, now, lease);
      }
    case Post(_, _, _) => PostedIsSound(d, l);
    case Refresh(t) =>
      if Working(d, t) {
        RefreshedIsSound(d, t);
      }
    case Finish(t, now) =>
      if Working(d, t) && d.tickets[t].result.Some? {
        FinishedIsSound(d, t, now);
      }
    case Requeue(only, now) => RequeueIsSound(d, only, now);
  }

  lemma {:induction false} RunIsSound(d: Desk, labels: seq<Label>)
    requires Sound(d)
    ensures Sound(Run(d, labels))
    decreases labels
  {
    if labels != [] {
      StepKeepsSound(d, labels[0]);
      RunIsSound(Apply(d, labels[0]), labels[1..]);
    }
  }

  /** A row that was sent or was a no-op is never touched again. */
  lemma {:induction false} SettledRowsStay(d: Desk, labels: seq<Label>, oid: OutboxId)
    requires oid < |d.rows| && d.rows[oid].status in {Sent, Noop}
    ensures oid < |Run(d, labels).rows| && Run(d, labels).rows[oid] == d.rows[oid]
    decreases labels
  {
    if labels != [] {
      SettledRowsStay(Apply(d, labels[0]), labels[1..], oid);
    }
  }

  /** Delivery writes a row's progress and nothing else. */
  predicate SamePayload(a: OutboxRow, b: OutboxRow)
  {
    a.receipt == b.receipt && a.amount == b.amount && a.feeBps == b.feeBps && a.account == b.account
  }

  lemma DeliveryKeepsPayloads(d: Desk, l: Label)
    requires !l.Charge?
    ensures |Apply(d, l).rows| == |d.rows|
    ensures forall i :: 0 <= i < |d.rows| ==> SamePayload(Apply(d, l).rows[i], d.rows[i])
  {
  }

  // ----- Stripe's total -----

  function MeteredAt(stripe: map<ReceiptId, int>): nat -> int
  {
    (r: nat) => if r in stripe then stripe[r] else 0
  }

  /** Everything Stripe metered, over receipts 0 .. n - 1. */
  function MeterTotal(stripe: map<ReceiptId, int>, n: nat): int
  {
    SumTo(n, MeteredAt(stripe))
  }

  function ChargedAmount(): OutboxRow -> int
  {
    (row: OutboxRow) => row.amount
  }

  /** However often rows are posted, Stripe never meters more than was charged, nor less once all is sent. */
  lemma {:induction false} MeterNeverExceedsCharges(d: Desk, n: nat)
    requires Sound(d) && n <= |d.rows|
    requires forall i :: 0 <= i < |d.rows| ==> d.rows[i].amount >= 0
    ensures 0 <= MeterTotal(d.stripe, n) <= SumBy(d.rows[..n], ChargedAmount())
    ensures (forall i :: 0 <= i < n ==> d.rows[i].status == Sent)
            ==> MeterTotal(d.stripe, n) == SumBy(d.rows[..n], ChargedAmount())
  {
    if n > 0 {
      MeterNeverExceedsCharges(d, n - 1);
      assert d.rows[..n] == d.rows[..n - 1] + [d.rows[n - 1]];
      SumAppend(d.rows[..n - 1], d.rows[n - 1], ChargedAmount());
      assert MeterOk(d, n - 1);
    }
  }

  // ----- leases -----

  /** No completing compare and set and no requeue of the row happens in the run. */
  predicate Undisturbed(d: Desk, labels: seq<Label>, oid: OutboxId)
    decreases labels
  {
    labels != [] ==>
      && !Completes(d, labels[0], oid) && !Requeues(d, labels[0], oid)
      && Undisturbed(Apply(d, labels[0]), labels[1..], oid)
  }

  /** Each claim uses its own worker's lease, which the code clamps to at least one. */
  predicate Leased(labels: seq<Label>)
  {
    forall k :: 0 <= k < |labels| && labels[k].ClaimRow? ==> labels[k].lease >= 1
  }

  /** An undisturbed claimed row stays claimed; only a later claim renews it. */
  lemma {:induction false} ClaimPersists(d: Desk, labels: seq<Label>, oid: OutboxId, since: Time)
    requires Leased(labels) && Undisturbed(d, labels, oid)
    requires oid < |d.rows| && d.rows[oid].status == Sending
    requires d.rows[oid].claimedAt.Some? && d.rows[oid].claimedAt.value >= since
    ensures oid < |Run(d, labels).rows|
    ensures var row := Run(d, labels).rows[oid];
            row.status == Sending && row.claimedAt.Some? && row.claimedAt.value >= since
    decreases labels
  {
    if labels != [] {
      ClaimPersists(Apply(d, labels[0]), labels[1..], oid, since);
    }
  }

  /**
   * Of two claims of one row with no completion or requeue between them, the second comes at least
   * its own lease after the first, whatever leases the workers are configured with.
   */
  lemma LeasesDoNotOverlap(d: Desk, first: Label, between: seq<Label>, second: Label, oid: OutboxId)
    requires Leased([first] + between + [second])
    requires Claims(d, first, oid)
    requires Undisturbed(Apply(d, first), between, oid)
    requires Claims(Run(Apply(d, first), between), second, oid)
    ensures second.now >= first.now + second.lease
  {
    forall k | 0 <= k < |between|
      ensures ([first] + between + [second])[k + 1] == between[k]
    {
    }
    ClaimPersists(Apply(d, first), between, oid, first.now);
  }

  predicate NeverClaimed(d: Desk, labels: seq<Label>, oid: OutboxId)
    decreases labels
  {
    labels != [] ==> !Claims(d, labels[0], oid) && NeverClaimed(Apply(d, labels[0]), labels[1..], oid)
  }

  lemma {:induction false} OnlyClaimsStartSending(d: Desk, labels: seq<Label>, oid: OutboxId)
    requires oid < |d.rows| && d.rows[oid].status != Sending && NeverClaimed(d, labels, oid)
    ensures oid < |Run(d, labels).rows| && Run(d, labels).rows[oid].status != Sending
    decreases labels
  {
    if labels != [] {
      OnlyClaimsStartSending(Apply(d, labels[0]), labels[1..], oid);
    }
  }

  /** One stay in `sending` is ended by one completion: any other worker loses until a new claim. */
  lemma OneCompletionPerStay(d: Desk, winner: Label, between: seq<Label>, other: Label, oid: OutboxId)
    requires Completes(d, winner, oid) && NeverClaimed(Apply(d, winner), between, oid)
    ensures !Completes(Run(Apply(d, winner), between), other, oid)
  {
    OnlyClaimsStartSending(Apply(d, winner), between, oid);
  }

  /** A failed row waits: whatever others do, no claim takes it before its next attempt time. */
  lemma {:induction false} FailedRowWaits(d: Desk, between: seq<Label>, claim: Label, oid: OutboxId)
    requires oid < |d.rows| && d.rows[oid].status == Failed && d.rows[oid].nextAttempt.Some?
    requires NeverClaimed(d, between, oid)
    requires Claims(Run(d, between), claim, oid)
    ensures claim.now >= d.rows[oid].nextAttempt.value
    decreases between
  {
    if between != [] {
      assert Apply(d, between[0]).rows[oid] == d.rows[oid];
      FailedRowWaits(Apply(d, between[0]), between[1..], claim, oid);
    }
  }

  /** From a failure to the next claim the backoff of that failure's attempt number goes by. */
  lemma BackoffIsRespected(d: Desk, failure: Label, between: seq<Label>, claim: Label, oid: OutboxId)
    requires Completes(d, failure, oid) && Apply(d, failure).rows[oid].status == Failed
    requires NeverClaimed(Apply(d, failure), between, oid)
    requires Claims(Run(Apply(d, failure), between), claim, oid)
    ensures claim.now >= failure.now + BackoffMinutes(Apply(d, failure).rows[oid].attempts) * MINUTE
  {
    FailedRowWaits(Apply(d, failure), between, claim, oid);
  }
}
