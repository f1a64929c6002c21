// crossing/billing.py: the updates to outbox rows, as the workers run them.
module Billing {
  import opened Model
  import opened Outbox
  import LedgerSpec
  import Session

  /** Accumulate the fee on the account; a fee of nothing writes nothing. */
  method ApplyPlatformFee(s: Session.Session, a: AccountId, amount: int, bps: int)
    requires a < |s.accounts|
    modifies s
    ensures s.Tables() == old(s.Tables()).(accounts := LedgerSpec.FeeApplied(old(s.accounts), Some(a), amount, bps))
  {
    var add := LedgerSpec.FeeMicrocents(amount, bps);
    if add > 0 {
      s.accounts := s.accounts[a := Account(s.accounts[a].fees + add)];
    }
  }

  /** Insert the pending charge for a receipt, and its fee, unless the receipt already has one. */
  method Enqueue(s: Session.Session, r: ReceiptId, amount: int, principal: PrincipalId, bps: int)
    modifies s
    ensures s.Tables() == LedgerSpec.Enqueued(old(s.Tables()), r, amount, principal, bps)
  {
    if LedgerSpec.HasOutboxRow(s.outbox, r) {
      return;
    }
    var account := LedgerSpec.AccountOf(s.Tables(), principal);
    s.outbox := s.outbox + [LedgerSpec.FreshRow(r, amount, bps, account)];
    if account.Some? {
      ApplyPlatformFee(s, account.value, amount, bps);
    }
  }

  /**
   * Claim the rows a SELECT returned, re-checking each in its own conditional update: exactly the
   * selected rows that are claimable become `sending`, each is claimed once, and no other row moves.
   */
  method ClaimOutboxRows(s: Session.Session, selected: seq<OutboxId>, now: Time, lease: int)
    returns (claimed: seq<OutboxId>)
    requires lease >= 1
    modifies s
    ensures s.Tables() == old(s.Tables()).(outbox := s.outbox) && |s.outbox| == |old(s.outbox)|
    ensures forall j: OutboxId :: j < |s.outbox| ==>
              s.outbox[j] == if j in selected && Claimable(old(s.outbox)[j], now, now - lease)
                             then ClaimedRow(old(s.outbox)[j], now) else old(s.outbox)[j]
    ensures forall j: OutboxId :: j in claimed
              <==> j < |s.outbox| && j in selected && Claimable(old(s.outbox)[j], now, now - lease)
    ensures forall a, b :: 0 <= a < b < |claimed| ==> claimed[a] != claimed[b]
  {
    claimed := [];
    for k := 0 to |selected|
      invariant s.Tables() == old(s.Tables()).(outbox := s.outbox) && |s.outbox| == |old(s.outbox)|
      invariant forall j: OutboxId :: j < |s.outbox| ==>
                  s.outbox[j] == if j in claimed then ClaimedRow(old(s.outbox)[j], now) else old(s.outbox)[j]
      invariant forall j: OutboxId :: j in claimed
                  <==> j < |s.outbox| && j in selected[..k] && Claimable(old(s.outbox)[j], now, now - lease)
      invariant forall a, b :: 0 <= a < b < |claimed| ==> claimed[a] != claimed[b]
    {
      var oid := selected[k];
      assert selected[..k + 1] == selected[..k] + [oid];
      if oid < |s.outbox| && Claimable(s.outbox[oid], now, now - lease) {
        s.outbox := s.outbox[oid := ClaimedRow(s.outbox[oid], now)];
        claimed := claimed + [oid];
      }
    }
    assert selected[..|selected|] == selected;
  }

  /** An ok answer ends the row sent, a no-op noop; an error failed, or dead from the eighth attempt on. */
  predicate EndedByAnswer(row: OutboxRow, attempts: int, answer: PostResult)
  {
    && row.attempts == attempts
    && (row.status == Sent <==> answer == PostOk)
    && (row.status == Noop <==> answer == PostNoop)
    && (row.status == Failed <==> answer == PostFailed && attempts < 8)
    && (row.status == Dead <==> answer == PostFailed && attempts >= 8)
    && (row.nextAttempt.Some? <==> row.status == Failed)
  }

  /** `copy` is the worker's copy of the row; only the update's own condition decides who wins. */
  method CasTerminalFromSending(s: Session.Session, oid: OutboxId, copy: OutboxRow, result: PostResult, now: Time)
    returns (won: bool)
    modifies s
    ensures won <==> copy.status == Sending && oid < |old(s.outbox)| && old(s.outbox)[oid].status == Sending
    ensures s.Tables() == if won
                          then old(s.Tables()).(outbox :=
                            old(s.outbox)[oid := EndedRow(old(s.outbox)[oid], copy.attempts + 1, result, now)])
                          else old(s.Tables())
    ensures won ==> EndedByAnswer(s.outbox[oid], copy.attempts + 1, result)
  {
    if oid >= |s.outbox| || copy.status != Sending {
      return false;
    }
    won := s.outbox[oid].status == Sending;
    if won {
      s.outbox := s.outbox[oid := EndedRow(s.outbox[oid], copy.attempts + 1, result, now)];
    }
  }

  /** Dead rows, or the one named, go back to pending with no attempts; no other row changes. */
  method RequeueDeadRows(s: Session.Session, only: Option<OutboxId>, now: Time)
    modifies s
    ensures s.Tables() == old(s.Tables()).(outbox := RequeueDead(old(s.outbox), only, now))
  {
    for k := 0 to |s.outbox|
      invariant |s.outbox| == |old(s.outbox)|
      invariant s.Tables() == old(s.Tables()).(outbox := s.outbox)
      invariant forall j: nat :: j < |s.outbox| ==>
                  s.outbox[j] == if j < k then RequeueDead(old(s.outbox), only, now)[j] else old(s.outbox)[j]
    {
      if Requeued(s.outbox[k], k, only) {
        s.outbox := s.outbox[k := RequeuedRow(s.outbox[k], now)];
      }
    }
  }

  function ClaimLabels(selected: seq<OutboxId>, now: Time, lease: int): seq<Label>
  {
    seq(|selected|, k requires 0 <= k < |selected| => ClaimRow(selected[k], now, lease))
  }

  /** A batch of claims, as the method leaves the rows, is that many claim steps of the outbox system. */
  lemma {:induction false} BatchIsClaimSteps(d: Desk, selected: seq<OutboxId>, now: Time, lease: int)
    requires lease >= 1
    ensures var rows := Run(d, ClaimLabels(selected, now, lease)).rows;
            |rows| == |d.rows|
            && forall j: OutboxId :: j < |rows| ==>
                 rows[j] == if j in selected && Claimable(d.rows[j], now, now - lease)
                            then ClaimedRow(d.rows[j], now) else d.rows[j]
    decreases |selected|
  {
    if selected != [] {
      var labels := ClaimLabels(selected, now, lease);
      assert labels[1..] == ClaimLabels(selected[1..], now, lease);
      assert selected == [selected[0]] + selected[1..];
      BatchIsClaimSteps(Apply(d, labels[0]), selected[1..], now, lease);
    }
  }

  /**
   * The end of one job of the worker's loop: with a copy that has the job's count, the compare and
   * set is the outbox system's Finish step, won or lost.
   */
  method CompleteJob(s: Session.Session, d: Desk, t: nat, copy: OutboxRow, now: Time) returns (won: bool)
    requires s.outbox == d.rows
    requires Working(d, t) && d.tickets[t].result.Some?
    requires copy.status == Sending && copy.attempts == d.tickets[t].attempts
    modifies s
    ensures won <==> Completes(d, Finish(t, now), d.tickets[t].oid)
    ensures s.Tables() == old(s.Tables()).(outbox := Apply(d, Finish(t, now)).rows)
    ensures won ==> EndedByAnswer(s.outbox[d.tickets[t].oid], copy.attempts + 1, d.tickets[t].result.value)
  {
    won := CasTerminalFromSending(s, d.tickets[t].oid, copy, d.tickets[t].result.value, now);
  }
}
