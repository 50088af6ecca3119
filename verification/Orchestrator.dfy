/** The orchestrator as it runs: it drives the four stores call by call, and does to them exactly what
    the machine of module Saga says. */
module Orchestration {
  import opened Basics
  import opened Saga
  import B = Banks
  import C = Consents
  import L = Ledgers
  import P = Payments

  /** One step of the machine, spelled out for the proofs below. */
  lemma Unfold(w: World, id: string, a: Actor, script: Script)
    requires !a.pc.AtEnd?
    ensures var (next, b) := Advance(w, id, a, script(StageOf(a.pc)));
            RunFrom(w, id, a, script) == RunFrom(next, id, b, script)
  {
  }

  lemma GoesOn(w: World, id: string, a: Actor, script: Script, next: (World, Actor))
    requires !a.pc.AtEnd? && Advance(w, id, a, script(StageOf(a.pc))) == next
    ensures RunFrom(w, id, a, script) == RunFrom(next.0, id, next.1, script)
  {
  }

  class Orchestrator {
    const repo: P.PaymentRepo
    const consent: C.ConsentService
    const bank: B.BankServer
    const ledger: L.LedgerStore
    var idem: map<string, string>

    function View(): World
      reads this, repo, consent, bank, ledger
    {
      World(repo.View(), consent.View(), bank.payments, ledger.View(), idem)
    }

    constructor ()
      ensures View() == EMPTY
      ensures fresh(repo) && fresh(consent) && fresh(bank) && fresh(ledger)
    {
      repo := new P.PaymentRepo();
      consent := new C.ConsentService();
      bank := new B.BankServer();
      ledger := new L.LedgerStore();
      idem := map[];
    }

    // ---------- compensation ----------

    /** Bank first, then consent; a failure of the first does not stop the second. */
    method Compensate(p: P.Payment, reverseBank: bool, script: Script) returns (failed: bool)
      modifies bank, consent
      ensures var (w1, bankFailed) := if reverseBank then TryUndoBank(old(View()), p,
                                                                      script(UndoBank).up) else (old(View()), false);
              var (w2, releaseFailed) := TryRelease(w1, p, script(Release).up);
              View() == w2 && failed == (bankFailed || releaseFailed)
    {
      failed := false;
      if reverseBank && p.bankRef != "" {
        if script(UndoBank).up {
          var err := bank.HandleReverse(p.bankRef);
          failed := err.Some?;
        } else {
          failed := true;
        }
      }
      if p.reservation.Some? {
        if script(Release).up {
          var err := consent.ReleaseReservation(p.reservation.value);
          failed := failed || err.Some?;
        } else {
          failed := true;
        }
      }
    }

    /** The ledger first, then the rest, again without short-circuit. */
    method CompensateFull(id: string, p: P.Payment, script: Script) returns (failed: bool)
      modifies bank, consent, ledger
      ensures (View(), failed) == UndoAll(old(View()), id, p, script)
    {
      var ledgerFailed := true;
      if script(UndoLedger).up {
        var err := ledger.ReverseEntry(id, "settle failed", _ => L.Commit);
        ledgerFailed := err.Some?;
      }
      failed := Compensate(p, true, script);
      failed := ledgerFailed || failed;
    }

    // ---------- endings ----------

    method Conclude(id: string, p: P.Payment, script: Script)
      modifies this
      ensures View() == if script(Complete).up then old(View()).(idem := old(idem)[p.key := id]) else old(View())
    {
      if script(Complete).up {
        idem := idem[p.key := id];
      }
    }

    /** MarkFailed or MarkManualReview, then, on a first attempt, the idempotency key. */
    method MarkAndConclude(id: string, kind: Kind, p: P.Payment, failed: bool, consentRef: string, script: Script)
      modifies this, repo
      ensures (View(), false) == RunFrom(old(View()), id, Actor(kind, AtMark(failed), p, consentRef), script)
    {
      ghost var a := Actor(kind, AtMark(failed), p, consentRef);
      Unfold(View(), id, a, script);
      var _, _ :=
        repo.UpdateStatus(id, p, if failed then P.ManualReview else P.Failed, P.Unchanged(), script(Mark).write);
      if kind == First {
        Unfold(View(), id, a.(pc := AtComplete(false)), script);
        Conclude(id, p, script);
      }
    }

    method FailAndCompensate(id: string, kind: Kind, p: P.Payment, reverseBank: bool, consentRef: string,
                             script: Script)
      modifies this, repo, bank, consent
      ensures (View(), false) ==
                RunFrom(old(View()), id, Actor(kind, AtUndoBank(false, reverseBank), p, consentRef), script)
    {
      ghost var a := Actor(kind, AtUndoBank(false, reverseBank), p, consentRef);
      ghost var (w1, b) := Advance(View(), id, a, script(UndoBank));
      Unfold(View(), id, a, script);
      Unfold(w1, id, b, script);
      var failed := Compensate(p, reverseBank, script);
      MarkAndConclude(id, kind, p, failed, consentRef, script);
    }

    // ---------- the saga ----------

    /** Steps 4 to 6, shared by the saga and by the recovery of a crashed one. */
    method FinishFromLedger(id: string, kind: Kind, p: P.Payment, consentRef: string, script: Script) returns (ok: bool)
      modifies this, repo, consent, bank, ledger
      ensures (View(), ok) == RunFrom(old(View()), id, Actor(kind, AtPost, p, consentRef), script)
    {
      ghost var a := Actor(kind, AtPost, p, consentRef);
      Unfold(View(), id, a, script);
      var posted := PostLines(id, kind, p, script(Post).up);
      if !posted {
        FailAndCompensate(id, kind, p, true, consentRef, script);
        return false;
      }
      ok := SettleAndConfirm(id, kind, p, consentRef, script);
    }

    method PostLines(id: string, kind: Kind, p: P.Payment, up: bool) returns (posted: bool)
      modifies ledger
      ensures var (l, err) := L.Post(old(View()).ledger, id, PostText(kind, id), SagaLines(p));
              if up then View() == old(View()).(ledger := l) && posted == err.None?
              else View() == old(View()) && !posted
    {
      if !up {
        return false;
      }
      var lines := SagaLines(p);
      var rows := new L.LineInput[3](i requires 0 <= i < 3 => lines[i]);
      assert rows[..] == lines;
      var err := ledger.PostDoubleEntry(id, PostText(kind, id), rows, _ => L.Commit);
      posted := err.None?;
    }

    method SettleAndConfirm(id: string, kind: Kind, p: P.Payment, consentRef: string, script: Script) returns (ok: bool)
      modifies this, repo, consent, bank, ledger
      ensures (View(), ok) == RunFrom(old(View()), id, Actor(kind, AtSettle, p, consentRef), script)
    {
      ghost var a := Actor(kind, AtSettle, p, consentRef);
      Unfold(View(), id, a, script);
      var settled, memory := repo.SettleWithOutbox(id, p, script(Settle).up);
      if !settled {
        UndoSettlement(id, kind, p, consentRef, script);
        return false;
      }
      ConfirmAndConclude(id, kind, memory, consentRef, script);
      ok := true;
    }

    /** The settlement failed: undo everything, then FAILED or MANUAL_REVIEW. */
    method UndoSettlement(id: string, kind: Kind, p: P.Payment, consentRef: string, script: Script)
      modifies this, repo, consent, bank, ledger
      ensures (View(), false) == RunFrom(old(View()), id, Actor(kind, AtUndoLedger, p, consentRef), script)
    {
      UndoAllIsTheMachine(View(), id, Actor(kind, AtUndoLedger, p, consentRef), script);
      var failed := CompensateFull(id, p, script);
      MarkAndConclude(id, kind, p, failed, consentRef, script);
    }

    /** Step 6: an error of the confirmation does not fail the payment. */
    method ConfirmAndConclude(id: string, kind: Kind, p: P.Payment, consentRef: string, script: Script)
      modifies this, consent
      ensures (View(), true) == RunFrom(old(View()), id, Actor(kind, AtConfirm, p, consentRef), script)
    {
      ghost var a := Actor(kind, AtConfirm, p, consentRef);
      Unfold(View(), id, a, script);
      if p.reservation.Some? && script(Confirm).up {
        var _ := consent.ConfirmReservation(p.reservation.value, id, script(Confirm).now);
      }
      if kind != Retried {
        Unfold(View(), id, a.(pc := AtComplete(true)), script);
        Conclude(id, p, script);
      }
    }

    /** Steps 2 and 3, then the rest. */
    method AfterConsent(id: string, kind: Kind, p: P.Payment, consentRef: string, script: Script) returns (ok: bool)
      modifies this, repo, consent, bank, ledger
      ensures (View(), ok) == RunFrom(old(View()), id, Actor(kind, AtRisk, p, consentRef), script)
    {
      ghost var a := Actor(kind, AtRisk, p, consentRef);
      Unfold(View(), id, a, script);
      if script(Risk).risk.RiskDown? {
        FailAndCompensate(id, kind, p, false, consentRef, script);
        return false;
      }
      var score, decision := script(Risk).risk.score, script(Risk).risk.decision;
      if decision == "DECLINE" {
        FailAndCompensate(id, kind, p.(risk := Some((score, decision))), false, consentRef, script);
        return false;
      }
      Unfold(View(), id, a.(pc := AtSaveRisk(score, decision)), script);
      var saved, memory := repo.UpdateStatus(id, p, P.RiskPassed, P.AfterRisk(score, decision), script(SaveRisk).write);
      if !saved {
        FailAndCompensate(id, kind, p, false, consentRef, script);
        return false;
      }
      ok := FromBank(id, kind, memory, consentRef, script);
    }

    method FromBank(id: string, kind: Kind, p: P.Payment, consentRef: string, script: Script) returns (ok: bool)
      modifies this, repo, consent, bank, ledger
      ensures (View(), ok) == RunFrom(old(View()), id, Actor(kind, AtBank, p, consentRef), script)
    {
      ghost var a := Actor(kind, AtBank, p, consentRef);
      Unfold(View(), id, a, script);
      var taken := false;
      match script(Bank).bank {
        case BankDown =>
        case BankRejects(ref) => bank.RecordRejection(ref);
        case BankTakes(ref) => taken := bank.HandleInitiate(ref, BankRequest(id, p, consentRef));
      }
      if !taken {
        FailAndCompensate(id, kind, p, false, consentRef, script);
        return false;
      }
      ok := FromSaveBank(id, kind, p, script(Bank).bank.ref, consentRef, script);
    }

    method FromSaveBank(id: string, kind: Kind, p: P.Payment, ref: string, consentRef: string, script: Script)
      returns (ok: bool)
      modifies this, repo, consent, bank, ledger
      ensures (View(), ok) == RunFrom(old(View()), id, Actor(kind, AtSaveBank(ref), p, consentRef), script)
    {
      Unfold(View(), id, Actor(kind, AtSaveBank(ref), p, consentRef), script);
      var saved, memory := repo.UpdateStatus(id, p, P.Authorising, P.AfterBank(ref), script(SaveBank).write);
      if !saved {
        FailAndCompensate(id, kind, p, true, consentRef, script);
        return false;
      }
      ok := FinishFromLedger(id, kind, memory, consentRef, script);
    }

    /** runSaga, followed on a first attempt by the completion of the idempotency key. */
    method RunSaga(id: string, kind: Kind, p: P.Payment, script: Script) returns (ok: bool)
      modifies this, repo, consent, bank, ledger
      ensures (View(), ok) == RunFrom(old(View()), id, Pending(kind, AtReserve, p), script)
    {
      ghost var a := Pending(kind, AtReserve, p);
      Unfold(View(), id, a, script);
      if !script(Reserve).up {
        MarkAndConclude(id, kind, p, false, "", script);
        return false;
      }
      var result :=
        consent.ValidateAndReserve(p.consent, id, p.amount, p.currency, script(Reserve).now, script(Reserve).newId);
      if result.Err? {
        MarkAndConclude(id, kind, p, false, "", script);
        return false;
      }
      ok := FromSaveConsent(id, kind, p, result.value, script);
    }

    method FromSaveConsent(id: string, kind: Kind, p: P.Payment, r: C.Reserved, script: Script) returns (ok: bool)
      modifies this, repo, consent, bank, ledger
      ensures (View(), ok) ==
                RunFrom(old(View()), id,
                  Actor(kind, AtSaveConsent(r.reservationId, r.consumer), p, r.bankConsentRef), script)
    {
      ghost var a := Actor(kind, AtSaveConsent(r.reservationId, r.consumer), p, r.bankConsentRef);
      Unfold(View(), id, a, script);
      var saved, memory :=
        repo.UpdateStatus(id, p, P.ConsentReserved, P.AfterConsent(r.reservationId, r.consumer),
                          script(SaveConsent).write);
      if !saved {
        FailAndCompensate(id, kind, p.(reservation := Some(r.reservationId)), false, r.bankConsentRef, script);
        return false;
      }
      ok := AfterConsent(id, kind, memory, r.bankConsentRef, script);
    }

    /** RetryPayment: the row, as just read, is reset if it is FAILED, and the saga runs again under the same id. */
    method Retry(id: string, p: P.Payment, write: P.Write, script: Script) returns (ok: bool)
      requires id in repo.rows && repo.rows[id] == p
      modifies this, repo, consent, bank, ledger
      ensures var (rows, err) := P.ResetForRetry(old(View()).repo, id, write);
              var reset := old(View()).(repo := rows);
              if err.None? then
                (View(), ok) ==
                  RunFrom(reset, id, Pending(Retried, AtReserve, P.Cleared(p).(status := P.Initiated)), script)
              else View() == reset && !ok
    {
      var err, memory := repo.Reset(id, p, write);
      if err.Some? {
        return false;
      }
      ok := RunSaga(id, Retried, memory, script);
    }

    // ---------- recovery ----------

    method ResumeFromLedger(id: string, p: P.Payment, script: Script) returns (ok: bool)
      modifies this, repo, consent, bank, ledger
      ensures (View(), ok) == RunFrom(old(View()), id, Pending(Resumed, AtPost, p), script)
    {
      ok := FinishFromLedger(id, Resumed, p, "", script);
    }

    method CompensateStale(id: string, p: P.Payment, script: Script)
      modifies this, repo, bank, consent
      ensures (View(), false) == RunFrom(old(View()), id, Pending(Stale, AtUndoBank(false, p.bankRef != ""), p), script)
    {
      FailAndCompensate(id, Stale, p, p.bankRef != "", "", script);
    }
  }

  /** compensateFull on its own: the three undos, in order, each attempted whatever the others did. */
  function UndoAll(w: World, id: string, p: P.Payment, script: Script): (World, bool) {
    var (w1, ledgerFailed) := TryUndoLedger(w, id, script(UndoLedger).up);
    var (w2, bankFailed) := TryUndoBank(w1, p, script(UndoBank).up);
    var (w3, releaseFailed) := TryRelease(w2, p, script(Release).up);
    (w3, ledgerFailed || bankFailed || releaseFailed)
  }

  lemma UndoAllIsTheMachine(w: World, id: string, a: Actor, script: Script)
    requires a.pc.AtUndoLedger?
    ensures var (after, failed) := UndoAll(w, id, a.memory, script);
            RunFrom(w, id, a, script) == RunFrom(after, id, a.(pc := AtMark(failed)), script)
  {
    var (w1, b) := Advance(w, id, a, script(UndoLedger));
    var (w2, c) := Advance(w1, id, b, script(UndoBank));
    Unfold(w, id, a, script);
    Unfold(w1, id, b, script);
    Unfold(w2, id, c, script);
  }
}
