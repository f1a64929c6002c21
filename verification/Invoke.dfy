// crossing/lifecycle.py: `invoke` run from start to end by one process, commit by commit.
module Invoke {
  import opened Model
  import opened LedgerSpec
  import opened Lifecycle
  import opened Session
  import Admission
  import Ledger
  import Mandates
  import Policy

  datatype InvokeResult =
    | Refused(reason: Reason)
    | Replayed(result: string)
    | NotDispatched
    | ProviderFailed
    | FinalizeLostRace
    | Done

  /** The outside world during one call: clocks, other checks, stale copies, and the provider's answer. */
  datatype Surroundings = Surroundings(
    now: Time,
    debitAt: Time,
    later: Time,
    signatureOk: bool,
    copy: MandateCopy,
    checks: Checks,
    providerOk: bool,
    ending: Ending)

  function AuthorizedAs(db: Db, r: Request, x: Surroundings): AuthOutcome
  {
    Authorize(db, r, x.now, x.signatureOk, x.copy, x.checks)
  }

  /** The five commits of one uninterrupted call by process 0. */
  function Steps(r: Request, x: Surroundings): seq<Label>
  {
    [Begin(0, r, x.now, x.signatureOk, x.copy, x.checks), Reserving(0, x.copy, x.debitAt, x.later)] + Dispatching(x)
  }

  function Dispatching(x: Surroundings): seq<Label>
  {
    [Mark(0), CallProvider(0, x.providerOk), Complete(0, x.ending)]
  }

  /** A world with these tables in which only process 0 is about to run. */
  function Alone(db: Db): World
  {
    World(db, map[], [], [], [], map[])
  }

  lemma RunsDispatch(w: World, x: Surroundings) returns (marked: World, called: World)
    ensures marked == Apply(w, Mark(0))
    ensures called == Apply(marked, CallProvider(0, x.providerOk))
    ensures Run(w, Dispatching(x)) == Apply(called, Complete(0, x.ending))
  {
    marked := Apply(w, Mark(0));
    called := Apply(marked, CallProvider(0, x.providerOk));
    var last := [Complete(0, x.ending)];
    assert Dispatching(x) == [Mark(0)] + ([CallProvider(0, x.providerOk)] + last) && last == last[..1] + [];
    RunsOn(w, Mark(0), [CallProvider(0, x.providerOk)] + last);
    RunsOn(marked, CallProvider(0, x.providerOk), last);
    RunsOn(called, Complete(0, x.ending), []);
  }

  /** What a new attempt's dispatch and completion leave. */
  function Dispatched(db: Db, h: HoldId, i: InvocationId, x: Surroundings): Db
  {
    var entered := MoveStatus(db, i, {Reserved}, Executing);
    if x.providerOk then FinalizeSuccess(entered, h, i, x.ending).0
    else MoveStatus(entered, i, {Executing}, ExecutedFail)
  }

  function ReservedThenDispatched(db: Db, r: Request, x: Surroundings): Db
    requires Reservable(db, r)
  {
    var (reserved, out) := ReserveCall(db, r, x.copy, x.debitAt, x.later);
    if out.Opened? then Dispatched(reserved, out.hold, out.invocation, x) else reserved
  }

  /** What a call leaves when nobody else is at work. */
  function CallAlone(db: Db, r: Request, x: Surroundings): Db
  {
    match AuthorizedAs(db, r, x)
    case Cached(_) => db
    case Denied(_, logged) => if logged then DenyLogged(db, r.mandate, 0, Some(x.copy.remaining)) else db
    case Allowed => if Reservable(db, r) then ReservedThenDispatched(db, r, x) else db
  }

  lemma FinishedStays(w: World, x: Surroundings)
    requires At(w, 0, Finished)
    ensures Run(w, Dispatching(x)).db == w.db
  {
    var marked, called := RunsDispatch(w, x);
    assert marked == w && called == w;
  }

  lemma FinishedReservesNothing(w: World, x: Surroundings)
    requires At(w, 0, Finished)
    ensures Apply(w, Reserving(0, x.copy, x.debitAt, x.later)) == w
  {
  }

  /** A reservation that opens adds its attempt and its hold at the end of their tables. */
  lemma OpenedIsNew(db: Db, r: Request, x: Surroundings)
    requires Reservable(db, r)
    ensures var (after, out) := ReserveCall(db, r, x.copy, x.debitAt, x.later);
            out.Opened? ==>
              && out.hold == |db.holds| && out.invocation == |db.invocations|
              && |after.invocations| == |db.invocations| + 1
              && HasStatus(after, out.invocation, {Reserved}) && IsHeld(after, out.hold)
              && after.invocations[out.invocation].hold == Some(out.hold)
  {
  }

  lemma MarkedIsEntered(w: World, i: InvocationId)
    requires At(w, 0, HasAttempt(i)) && HasStatus(w.db, i, {Reserved})
    ensures At(Apply(w, Mark(0)), 0, Entered(i)) && Apply(w, Mark(0)).db == WithStatus(w.db, i, Executing)
  {
  }

  lemma CalledIsAnswered(w: World, i: InvocationId, ok: bool)
    requires At(w, 0, Entered(i))
    ensures At(Apply(w, CallProvider(0, ok)), 0, Answered(i, ok)) && Apply(w, CallProvider(0, ok)).db == w.db
  {
  }

  lemma CompletedAs(w: World, i: InvocationId, h: HoldId, x: Surroundings)
    requires At(w, 0, Answered(i, x.providerOk)) && HasStatus(w.db, i, {Executing})
    requires w.db.invocations[i].hold == Some(h) && h < |w.db.holds|
    ensures Apply(w, Complete(0, x.ending)).db
            == if x.providerOk then FinalizeSuccess(w.db, h, i, x.ending).0 else WithStatus(w.db, i, ExecutedFail)
  {
  }

  lemma AttemptRunsToItsEnd(w: World, i: InvocationId, h: HoldId, x: Surroundings)
    requires At(w, 0, HasAttempt(i)) && HasStatus(w.db, i, {Reserved})
    requires w.db.invocations[i].hold == Some(h) && IsHeld(w.db, h)
    ensures Run(w, Dispatching(x)).db == Dispatched(w.db, h, i, x)
  {
    var marked, called := RunsDispatch(w, x);
    MarkedIsEntered(w, i);
    CalledIsAnswered(marked, i, x.providerOk);
    CompletedAs(called, i, h, x);
  }

  lemma AllowedIsReservable(db: Db, r: Request, x: Surroundings)
    requires AuthorizedAs(db, r, x).Allowed?
    ensures Reservable(db, r)
  {
  }

  lemma BegunAlone(db: Db, r: Request, x: Surroundings)
    ensures var begun := Apply(Alone(db), Begin(0, r, x.now, x.signatureOk, x.copy, x.checks));
            if AuthorizedAs(db, r, x).Allowed? then begun.db == db && At(begun, 0, Authorized(r))
            else begun.db == CallAlone(db, r, x) && At(begun, 0, Finished)
  {
  }

  lemma ReservedAlone(w: World, r: Request, x: Surroundings)
    requires At(w, 0, Authorized(r)) && Reservable(w.db, r)
    ensures var reserved := Apply(w, Reserving(0, x.copy, x.debitAt, x.later));
            var (db, out) := ReserveCall(w.db, r, x.copy, x.debitAt, x.later);
            reserved.db == db && At(reserved, 0, if out.Opened? then HasAttempt(out.invocation) else Finished)
  {
  }

  lemma FirstTwoCommits(db: Db, r: Request, x: Surroundings) returns (begun: World, reserved: World)
    ensures begun == Apply(Alone(db), Begin(0, r, x.now, x.signatureOk, x.copy, x.checks))
    ensures reserved == Apply(begun, Reserving(0, x.copy, x.debitAt, x.later))
    ensures Run(Alone(db), Steps(r, x)) == Run(reserved, Dispatching(x))
  {
    var l1, l2 := Begin(0, r, x.now, x.signatureOk, x.copy, x.checks), Reserving(0, x.copy, x.debitAt, x.later);
    begun := Apply(Alone(db), l1);
    reserved := Apply(begun, l2);
    assert Steps(r, x) == [l1] + ([l2] + Dispatching(x));
    RunsOn(Alone(db), l1, [l2] + Dispatching(x));
    RunsOn(begun, l2, Dispatching(x));
  }

  /** The five commits of an undisturbed call, in the system, leave what CallAlone says. */
  lemma FiveCommitsAlone(db: Db, r: Request, x: Surroundings)
    ensures Run(Alone(db), Steps(r, x)).db == CallAlone(db, r, x)
  {
    var begun, reserved := FirstTwoCommits(db, r, x);
    BegunAlone(db, r, x);
    if !AuthorizedAs(db, r, x).Allowed? {
      FinishedReservesNothing(begun, x);
      FinishedStays(begun, x);
    } else {
      AllowedIsReservable(db, r, x);
      ReservedAlone(begun, r, x);
      OpenedIsNew(db, r, x);
      var (after, out) := ReserveCall(db, r, x.copy, x.debitAt, x.later);
      if out.Opened? {
        AttemptRunsToItsEnd(reserved, out.invocation, out.hold, x);
      } else {
        FinishedStays(reserved, x);
      }
    }
  }

  /** An undisturbed attempt ends committed, or failed on the provider's word. */
  lemma UndisturbedEnding(db: Db, h: HoldId, i: InvocationId, x: Surroundings)
    requires HasStatus(db, i, {Reserved}) && IsHeld(db, h)
    ensures |Dispatched(db, h, i, x).invocations| == |db.invocations|
    ensures !x.providerOk ==> Dispatched(db, h, i, x).invocations[i].status == ExecutedFail
    ensures x.providerOk && !HasReceipt(db.receipts, h) ==> Dispatched(db, h, i, x).invocations[i].status == InvCommitted
  {
  }

  /** The checks of a call, in the order the code makes them; nothing is written. */
  method AuthorizeCall(s: Session, r: Request, x: Surroundings) returns (auth: AuthOutcome)
    ensures auth == AuthorizedAs(s.Tables(), r, x)
  {
    var live := Mandates.LoadLive(s.Tables(), r.mandate, x.copy, x.now, x.signatureOk);
    if live.Some? {
      return Denied(live.value, r.mandate < |s.mandates|);
    }
    var m := Seen(s.mandates[r.mandate], x.copy);
    auth := LoadIdem(s.Tables(), m.principal, r);
    if !auth.Allowed? {
      return;
    }
    if Present(r.nonce) && Nonce(m.principal, r.nonce.value) in s.nonces {
      return Denied(NonceReplay, true);
    }
    if !x.checks.priced {
      return Denied(UnknownTool, true);
    }
    var refused := Policy.CheckTool(m, r.tool, r.server, r.amount);
    if refused.Some? {
      return Denied(refused.value, true);
    }
    if x.checks.arguments.Some? {
      return Denied(x.checks.arguments.value, true);
    }
    if !x.checks.billable {
      return Denied(BillingRequired, true);
    }
  }

  /** Use up the nonce and make the task, in the transaction of the reservation. */
  method Prepare(s: Session, r: Request)
    requires r.mandate < |s.mandates|
    modifies s
    ensures s.Tables() == Prepared(old(s.Tables()), r)
  {
    var m := s.mandates[r.mandate];
    if Present(r.nonce) {
      s.nonces := s.nonces + {Nonce(m.principal, r.nonce.value)};
    }
    if r.newTask {
      s.tasks := s.tasks + [Task(m.principal, m.agent)];
    }
  }

  /**
   * The call as the code runs it, with nobody else at work, is its five commits in the system. It
   * reaches the provider exactly if its checks pass and its hold can be opened, which takes a signature
   * that verifies. A refusal or replay moves no money and uses up at most the call's own nonce, success
   * ends committed, and a provider error is never refunded.
   */
  method InvokeAlone(s: Session, r: Request, x: Surroundings) returns (out: InvokeResult)
    modifies s
    ensures s.Tables() == Run(Alone(old(s.Tables())), Steps(r, x)).db
    ensures !x.signatureOk ==> out.Refused?
    ensures var auth := AuthorizedAs(old(s.Tables()), r, x);
            && (auth.Cached? ==> out == Replayed(auth.result))
            && (auth.Denied? ==> out == InvokeResult.Refused(auth.reason))
            && (ReachesProvider(out) <==> auth.Allowed? && Admission.CanOpen(old(s.Tables()), r, x.debitAt))
    ensures EndsAsAnswered(out, x.providerOk, HasReceipt(old(s.receipts), |old(s.holds)|))
    ensures out.Refused? || out.Replayed? ==>
              && s.mandates == old(s.mandates) && s.holds == old(s.holds)
              && s.invocations == old(s.invocations) && s.claims == old(s.claims)
              && forall n :: n in s.nonces && n !in old(s.nonces) ==> r.nonce == Some(n.nonce)
    ensures out.Done? || out.ProviderFailed? ==>
              |s.invocations| == |old(s.invocations)| + 1
              && s.invocations[|old(s.invocations)|].status == if out.Done? then InvCommitted else ExecutedFail
  {
    FiveCommitsAlone(s.Tables(), r, x);
    UnsignedIsDenied(s.Tables(), r, x);
    var auth := AuthorizeCall(s, r, x);
    if auth.Cached? {
      return Replayed(auth.result);
    }
    if auth.Denied? {
      if auth.logged {
        Ledger.AppendEvent(s, Event(r.mandate, DenyEvent, 0, Some(x.copy.remaining), None));
      }
      return InvokeResult.Refused(auth.reason);
    }
    AllowedIsReservable(s.Tables(), r, x);
    out := ReserveThenDispatch(s, r, x);
  }

  predicate ReachesProvider(out: InvokeResult)
  {
    out.Done? || out.ProviderFailed? || out.FinalizeLostRace?
  }

  /** Undisturbed, the dispatch is never lost, and the ending only to a receipt that is there already. */
  predicate EndsAsAnswered(out: InvokeResult, ok: bool, hadReceipt: bool)
  {
    && !out.NotDispatched?
    && (out.Done? ==> ok && !hadReceipt)
    && (out.ProviderFailed? ==> !ok)
    && (out.FinalizeLostRace? ==> ok && hadReceipt)
  }

  lemma OpensIfItCan(db: Db, r: Request, x: Surroundings)
    requires Reservable(db, r)
    ensures ReserveCall(db, r, x.copy, x.debitAt, x.later).1.Opened? <==> Admission.CanOpen(db, r, x.debitAt)
  {
    Admission.ReserveExactly(db, r, x.copy, x.debitAt, x.later);
  }

  lemma UnsignedIsDenied(db: Db, r: Request, x: Surroundings)
    ensures !x.signatureOk ==> AuthorizedAs(db, r, x).Denied?
  {
  }

  /** What an authorised call does. */
  method ReserveThenDispatch(s: Session, r: Request, x: Surroundings) returns (out: InvokeResult)
    requires Reservable(s.Tables(), r)
    modifies s
    ensures s.Tables() == ReservedThenDispatched(old(s.Tables()), r, x)
    ensures ReachesProvider(out) <==> Admission.CanOpen(old(s.Tables()), r, x.debitAt)
    ensures EndsAsAnswered(out, x.providerOk, HasReceipt(old(s.receipts), |old(s.holds)|))
    ensures out.Refused? || out.Replayed? ==>
              && s.mandates == old(s.mandates) && s.holds == old(s.holds)
              && s.invocations == old(s.invocations) && s.claims == old(s.claims)
              && forall n :: n in s.nonces && n !in old(s.nonces) ==> r.nonce == Some(n.nonce)
    ensures out.Done? || out.ProviderFailed? ==>
              |s.invocations| == |old(s.invocations)| + 1
              && s.invocations[|old(s.invocations)|].status == if out.Done? then InvCommitted else ExecutedFail
  {
    OpenedIsNew(s.Tables(), r, x);
    OpensIfItCan(s.Tables(), r, x);
    Prepare(s, r);
    var attempt := Ledger.ReserveAndCommit(s, r, x.copy, x.debitAt, x.later);
    if attempt.Replay? {
      return Replayed(attempt.result);
    }
    if attempt.ReserveDenied? {
      return InvokeResult.Refused(attempt.reason);
    }
    UndisturbedEnding(s.Tables(), attempt.hold, attempt.invocation, x);
    out := DispatchAlone(s, attempt.hold, attempt.invocation, x);
  }

  method DispatchAlone(s: Session, h: HoldId, i: InvocationId, x: Surroundings) returns (out: InvokeResult)
    requires HasStatus(s.Tables(), i, {Reserved}) && IsHeld(s.Tables(), h)
    modifies s
    ensures s.Tables() == Dispatched(old(s.Tables()), h, i, x)
    ensures out.Done? <==> x.providerOk && !HasReceipt(old(s.receipts), h)
    ensures out.ProviderFailed? <==> !x.providerOk
    ensures !out.Refused? && !out.Replayed? && !out.NotDispatched?
  {
    var mark := Ledger.MarkExecuting(s, i);
    if mark.NotMarked? {
      return NotDispatched;
    }
    if !x.providerOk {
      Ledger.MarkExecutedFail(s, i);
      return ProviderFailed;
    }
    var fin := Ledger.FinalizeSuccess(s, h, i, x.ending);
    return if fin.Won? then Done else FinalizeLostRace;
  }
}
