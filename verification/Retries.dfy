/** Retrying a failed payment under its old id: consent hands back the old reservation and the ledger the
    old entry, whatever became of them. */
module Retries {
  import opened Basics
  import opened Saga
  import opened Platform
  import opened Slices
  import opened AllRuns
  import opened Split
  import opened CleanRuns
  import opened Recovery
  import opened Attempts
  import O = Orchestration
  import B = Banks
  import C = Consents
  import L = Ledgers
  import P = Payments
  import CL = ConsentLaws

  // ---------- a released hold and a reversed entry stay as they are ----------

  lemma ReleasedFreezesConsent(w: World, id: string, a: Actor, ans: Answer)
    requires Owns(SliceOf(w, id), a.memory) && HoldStatusOf(w.consent, id) == Some(C.Released)
    ensures Advance(w, id, a, ans).0.consent == w.consent
  {
    if CallsConsent(a.pc) {
      FrozenConsentCall(w, id, a, ans);
    }
  }

  lemma FrozenConsentCall(w: World, id: string, a: Actor, ans: Answer)
    requires CallsConsent(a.pc) && Owns(SliceOf(w, id), a.memory) && HoldStatusOf(w.consent, id) == Some(C.Released)
    ensures Advance(w, id, a, ans).0.consent == w.consent
  {
  }

  lemma ReversedFreezesLedger(w: World, id: string, a: Actor, ans: Answer)
    requires id in w.ledger.entries && w.ledger.entries[id].reversed
    ensures Advance(w, id, a, ans).0.ledger == w.ledger
  {
    if a.pc.AtPost? {
      FrozenPost(w.ledger, id, PostText(a.kind, id), SagaLines(a.memory));
    } else if !a.pc.AtUndoLedger? {
      LedgerUntouched(w, id, a, ans);
    }
  }

  lemma FrozenPost(l: L.Ledger, id: string, text: string, lines: seq<L.LineInput>)
    requires id in l.entries
    ensures L.Post(l, id, text, lines).0 == l
  {
  }

  /** Once the hold is released, no attempt changes the consent tables, whatever the answers it gets. */
  lemma {:induction false} ConsentIsFrozen(w: World, id: string, a: Actor, script: Script)
    requires Sound(w) && ClientId(id) && id in w.repo.rows && Fits(SliceOf(w, id), After(a))
    requires BeforeBank(a.pc) ==> FreshScript(w, script)
    requires HoldStatusOf(w.consent, id) == Some(C.Released)
    ensures RunFrom(w, id, a, script).0.consent == w.consent
    decreases Rank(a.pc)
  {
    if !a.pc.AtEnd? {
      var ans := script(StageOf(a.pc));
      AdvanceDescends(w, id, a, ans);
      O.Unfold(w, id, a, script);
      ReleasedFreezesConsent(w, id, a, ans);
      assert TableSound(w, PaymentTable);
      AdvanceSound(w, id, a, ans);
      AdvanceFits(w, id, a, ans);
      AdvanceKeepsKeys(w, id, a, ans);
      if BeforeBank(a.pc) && !a.pc.AtBank? {
        BankUntouched(w, id, a, ans);
      } else {
        BankIsBehind(w, id, a, ans);
      }
      ConsentIsFrozen(Advance(w, id, a, ans).0, id, Advance(w, id, a, ans).1, script);
    }
  }

  lemma {:induction false} LedgerIsFrozen(w: World, id: string, a: Actor, script: Script)
    requires id in w.ledger.entries && w.ledger.entries[id].reversed
    ensures RunFrom(w, id, a, script).0.ledger == w.ledger
    decreases Rank(a.pc)
  {
    if !a.pc.AtEnd? {
      var ans := script(StageOf(a.pc));
      AdvanceDescends(w, id, a, ans);
      O.Unfold(w, id, a, script);
      ReversedFreezesLedger(w, id, a, ans);
      LedgerIsFrozen(Advance(w, id, a, ans).0, id, Advance(w, id, a, ans).1, script);
    }
  }

  /** Both undone: no attempt at this payment changes the consent tables or the journal any more, whatever
      the answers it gets. */
  lemma AttemptIsFrozen(w: World, id: string, a: Actor, script: Script)
    requires Sound(w) && ClientId(id) && id in w.repo.rows && Fits(SliceOf(w, id), After(a))
    requires BeforeBank(a.pc) ==> FreshScript(w, script)
    requires HoldStatusOf(w.consent, id) == Some(C.Released)
    requires id in w.ledger.entries && w.ledger.entries[id].reversed
    ensures var after := RunFrom(w, id, a, script).0; after.consent == w.consent && after.ledger == w.ledger
  {
    ConsentIsFrozen(w, id, a, script);
    LedgerIsFrozen(w, id, a, script);
  }

  // ---------- an attempt whose every call succeeds settles ----------

  /** Risk lets the payment pass and the bank takes it. */
  ghost predicate AllGood(script: Script) {
    AllUp(script) && script(Risk).risk.Scored? && script(Risk).risk.decision != "DECLINE"
      && script(Bank).bank.BankTakes?
  }

  lemma SettleRun(w: World, id: string, a: Actor, script: Script)
    requires AllUp(script) && a.pc.AtSettle? && id in w.repo.rows
    ensures var (after, ok) := RunFrom(w, id, a, script);
            ok && id in after.repo.rows && after.repo.rows[id].status == P.Settled && after.bank == w.bank
  {
    assert script(Settle).up && script(Confirm).up && script(Complete).up;
    O.Unfold(w, id, a, script);
    var (w1, b) := StepSettle(w, id, a, script(Settle));
    O.Unfold(w1, id, b, script);
    var (w2, c) := StepConfirm(w1, id, b, script(Confirm));
    if a.kind != Retried {
      O.Unfold(w2, id, c, script);
    }
  }

  lemma PostedRun(w: World, id: string, a: Actor, script: Script)
    requires AllUp(script) && a.pc.AtPost? && id in w.repo.rows && id != "" && 1 <= a.memory.amount <= INT64_MAX
    requires Postable(a.memory)
    ensures var (after, ok) := RunFrom(w, id, a, script);
            ok && id in after.repo.rows && after.repo.rows[id].status == P.Settled && after.bank == w.bank
  {
    PostSucceedsIff(w.ledger, id, PostText(a.kind, id), a.memory);
    PostRun(w, id, a, script);
    SettleRun(w.(ledger := Posting(w, id, a).0), id, a.(pc := AtSettle), script);
  }

  lemma BankTakesIt(w: World, id: string, a: Actor, ans: Answer)
    requires a.pc.AtBank? && ans.bank.BankTakes? && id != "" && a.consentRef != "" && a.memory.amount > 0
    ensures var (after, b) := StepBank(w, id, a, ans);
            && b == a.(pc := AtSaveBank(ans.bank.ref)) && after.repo == w.repo
            && ans.bank.ref in B.TakenRefs(after.bank, id)
            && Advance(w, id, a, ans) == StepBank(w, id, a, ans)
  {
  }

  lemma BankRun(w: World, id: string, a: Actor, script: Script)
    requires AllGood(script) && a.pc.AtBank? && id in w.repo.rows && id != "" && a.consentRef != ""
    requires 1 <= a.memory.amount <= INT64_MAX
    requires Postable(a.memory)
    ensures var (after, ok) := RunFrom(w, id, a, script);
            ok && id in after.repo.rows && after.repo.rows[id].status == P.Settled
            && script(Bank).bank.ref in B.TakenRefs(after.bank, id)
  {
    BankTakesIt(w, id, a, script(Bank));
    var next := StepBank(w, id, a, script(Bank));
    O.GoesOn(w, id, a, script, next);
    SaveBankRun(next.0, id, next.1, script);
  }

  lemma SaveBankRun(w: World, id: string, a: Actor, script: Script)
    requires AllUp(script) && a.pc.AtSaveBank? && id in w.repo.rows && id != "" && 1 <= a.memory.amount <= INT64_MAX
    requires Postable(a.memory)
    ensures var (after, ok) := RunFrom(w, id, a, script);
            ok && id in after.repo.rows && after.repo.rows[id].status == P.Settled && after.bank == w.bank
  {
    assert script(SaveBank).write == P.Done;
    FirstStep(w, id, a, script);
    var (w2, c) := StepSaveBank(w, id, a, script(SaveBank));
    PostedRun(w2, id, c, script);
  }

  lemma RiskLetsPass(w: World, id: string, a: Actor, ans: Answer)
    requires a.pc.AtRisk? && ans.risk.Scored? && ans.risk.decision != "DECLINE"
    ensures Advance(w, id, a, ans) == (w, a.(pc := AtSaveRisk(ans.risk.score, ans.risk.decision)))
  {
  }

  lemma RiskSaved(w: World, id: string, a: Actor, ans: Answer)
    requires a.pc.AtSaveRisk? && id in w.repo.rows && ans.write == P.Done
    ensures var (after, b) := Advance(w, id, a, ans);
            && after == w.(repo := after.repo) && id in after.repo.rows
            && b == a.(pc := AtBank, memory := b.memory)
            && b.memory == a.memory.(risk := b.memory.risk, status := P.RiskPassed)
  {
  }

  lemma RiskRun(w: World, id: string, a: Actor, script: Script)
    requires AllGood(script) && a.pc.AtRisk? && id in w.repo.rows && id != "" && a.consentRef != ""
    requires 1 <= a.memory.amount <= INT64_MAX
    requires Postable(a.memory)
    ensures var (after, ok) := RunFrom(w, id, a, script);
            ok && id in after.repo.rows && after.repo.rows[id].status == P.Settled
            && script(Bank).bank.ref in B.TakenRefs(after.bank, id)
  {
    var b := a.(pc := AtSaveRisk(script(Risk).risk.score, script(Risk).risk.decision));
    RiskLetsPass(w, id, a, script(Risk));
    O.GoesOn(w, id, a, script, (w, b));
    SavedRiskRun(w, id, b, script);
  }

  lemma SavedRiskRun(w: World, id: string, a: Actor, script: Script)
    requires AllGood(script) && a.pc.AtSaveRisk? && id in w.repo.rows && id != "" && a.consentRef != ""
    requires 1 <= a.memory.amount <= INT64_MAX
    requires Postable(a.memory)
    ensures var (after, ok) := RunFrom(w, id, a, script);
            ok && id in after.repo.rows && after.repo.rows[id].status == P.Settled
            && script(Bank).bank.ref in B.TakenRefs(after.bank, id)
  {
    assert script(SaveRisk).write == P.Done;
    RiskSaved(w, id, a, script(SaveRisk));
    var next := Advance(w, id, a, script(SaveRisk));
    O.GoesOn(w, id, a, script, next);
    BankRun(next.0, id, next.1, script);
  }

  lemma SagaRun(w: World, id: string, a: Actor, script: Script, r: C.Reserved)
    requires AllGood(script) && a.pc.AtReserve? && id in w.repo.rows && id != "" && 1 <= a.memory.amount <= INT64_MAX
    requires C.Reserve(w.consent, a.memory.consent, id, a.memory.amount, a.memory.currency, script(Reserve).now,
                   script(Reserve).newId).1 == Ok(r)
    requires r.bankConsentRef != "" && Postable(a.memory.(consumer := r.consumer))
    ensures var (after, ok) := RunFrom(w, id, a, script);
            ok && id in after.repo.rows && after.repo.rows[id].status == P.Settled
            && script(Bank).bank.ref in B.TakenRefs(after.bank, id)
  {
    assert script(Reserve).up && script(SaveConsent).write == P.Done;
    O.Unfold(w, id, a, script);
    var (w1, b) := StepReserve(w, id, a, script(Reserve));
    O.Unfold(w1, id, b, script);
    var (w2, c) := StepSaveConsent(w1, id, b, script(SaveConsent));
    RiskRun(w2, id, c, script);
  }

  // ---------- so a retry can settle a payment nobody pays for ----------

  /** Every call of a retry succeeds, and consent answers `r`. */
  ghost predicate RetrySucceeds(s: Sys, id: string, script: Script, r: C.Reserved) {
    && CanRetry(s, id) && AllGood(script) && FreshScript(s.w, script)
    && var p := s.w.repo.rows[id];
    && var (now, newId) := (script(Reserve).now, script(Reserve).newId);
    && C.Reserve(s.w.consent, p.consent, id, p.amount, p.currency, now, newId).1 == Ok(r)
    && r.bankConsentRef != "" && Postable(p.(consumer := r.consumer))
  }

  /** The world after the reset and the attempt that follows it, and its verdict. */
  function Retrying(s: Sys, id: string, script: Script): (World, bool)
    requires CanRetry(s, id)
  {
    var w := s.w.(repo := RetryRepo(s.w.repo, id, P.Done).0);
    RunFrom(w, id, RetryActor(s.w.repo.rows[id]), script)
  }

  /** That is where the platform goes when it takes the retry and lets its actor run. */
  lemma RetryingIsNext(s: Sys, id: string, script: Script)
    requires CanRetry(s, id)
    ensures var next := Next(s, Retry(id, P.Done));
            id in next.actors && Retrying(s, id, script) == RunFrom(next.w, id, next.actors[id], script)
  {
    RetryEffect(s, id);
  }

  /** A retry whose every call succeeds is SETTLED, and the bank has taken the money. */
  lemma RetrySettles(s: Sys, id: string, script: Script, r: C.Reserved)
    requires Inv(s) && RetrySucceeds(s, id, script, r)
    ensures var (after, ok) := Retrying(s, id, script);
            ok && id in after.repo.rows && after.repo.rows[id].status == P.Settled && B.TakenRefs(after.bank, id) != {}
  {
    assert TableSound(s.w, PaymentTable);
    assert InvAt(s, id);
    RetryEffect(s, id);
    SagaRun(s.w.(repo := RetryRepo(s.w.repo, id, P.Done).0), id, RetryActor(s.w.repo.rows[id]), script, r);
  }

  /** In any state of any run, take a FAILED payment whose hold is RELEASED and whose entry is reversed, and
      retry it. If every call succeeds it is SETTLED and the bank has the money, yet its net effect on
      every account is zero, it has no usage row, and its reservation is still RELEASED. */
  lemma RetryAfterReversal(run: seq<Label>, id: string, script: Script, r: C.Reserved, account: L.Account)
    requires RetrySucceeds(Exec(run), id, script, r)
    requires HoldStatusOf(Exec(run).w.consent, id) == Some(C.Released)
    requires id in Exec(run).w.ledger.entries && Exec(run).w.ledger.entries[id].reversed
    ensures var (after, ok) := Retrying(Exec(run), id, script);
            && ok && id in after.repo.rows && after.repo.rows[id].status == P.Settled
            && B.TakenRefs(after.bank, id) != {}
            && L.Net(after.ledger.entries, id, account) == 0
            && id !in after.consent.usage && HoldStatusOf(after.consent, id) == Some(C.Released)
  {
    var s := Exec(run);
    RunKeepsInv(run);
    RetryReady(s, id);
    AttemptIsFrozen(s.w.(repo := RetryRepo(s.w.repo, id, P.Done).0), id, RetryActor(s.w.repo.rows[id]), script);
    RetrySettles(s, id, script, r);
    StillUndone(s, id, account);
  }

  /** The reset leaves everything in place for the attempt. */
  lemma RetryReady(s: Sys, id: string)
    requires Inv(s) && CanRetry(s, id)
    ensures var w := s.w.(repo := RetryRepo(s.w.repo, id, P.Done).0);
            && ClientId(id) && Sound(w) && id in w.repo.rows
                 && Fits(SliceOf(w, id), Some(RetryActor(s.w.repo.rows[id])))
  {
    assert TableSound(s.w, PaymentTable);
    assert InvAt(s, id);
    RetryFits(s.w, id, P.Done);
    RetryElsewhere(s.w, id, P.Done);
  }

  // ---------- exactly when a retry keeps the stores in agreement ----------

  lemma FirstHoldIsClean(s: Sys, id: string, script: Script)
    requires Inv(s) && AllClean(s) && CanRetry(s, id) && id !in s.w.consent.byPayment
    requires AllGood(script) && FreshScript(s.w, script)
    ensures Clean(SliceOf(Retrying(s, id, script).0, id))
  {
    var w := s.w.(repo := RetryRepo(s.w.repo, id, P.Done).0);
    var a := RetryActor(s.w.repo.rows[id]);
    RetryReady(s, id);
    assert CleanAt(s, id);
    RetryOwnClean(s.w, id, P.Done);
    assert script(SaveBank).write == P.Done && script(Mark).write == P.Done && script(Post).up;
    AttemptInOrder(w, id, a, script);
  }

  lemma OldHoldIsReleased(s: Sys, id: string)
    requires Inv(s) && AllClean(s) && CanRetry(s, id) && id in s.w.consent.byPayment
    ensures HoldStatusOf(s.w.consent, id) == Some(C.Released)
  {
    TerminalSlice(s, id);
    assert InvAt(s, id);
    assert SliceOf(s.w, id).hold.Some?;
  }

  lemma OldHoldIsNotClean(s: Sys, id: string, script: Script, r: C.Reserved)
    requires Inv(s) && AllClean(s) && RetrySucceeds(s, id, script, r) && id in s.w.consent.byPayment
    ensures var after := Retrying(s, id, script).0;
            && !Clean(SliceOf(after, id))
            && id !in after.consent.usage && HoldStatusOf(after.consent, id) == Some(C.Released)
  {
    OldHoldIsReleased(s, id);
    RetryReady(s, id);
    ConsentIsFrozen(s.w.(repo := RetryRepo(s.w.repo, id, P.Done).0), id, RetryActor(s.w.repo.rows[id]), script);
    RetrySettles(s, id, script, r);
    ReleasedIsUnused(s, id);
  }

  lemma ReleasedIsUnused(s: Sys, id: string)
    requires Inv(s) && HoldStatusOf(s.w.consent, id) == Some(C.Released)
    ensures id !in s.w.consent.usage
  {
    assert TableSound(s.w, ConsentTables);
    assert CL.UsageMatches(s.w.consent, id);
  }

  /** In any state of a clean run, retry a FAILED payment with every call succeeding. It is SETTLED with the money
      taken, and the stores agree with that if and only if the earlier attempt got no reservation. If it did --
      the risk check declined it, the bank rejected it, or anything later failed -- the payment settles on a
      RELEASED reservation, without usage. */
  lemma RetryIsCleanIff(run: seq<Label>, id: string, script: Script, r: C.Reserved)
    requires CleanRun(run) && RetrySucceeds(Exec(run), id, script, r)
    ensures var w := Exec(run).w;
            var (after, ok) := Retrying(Exec(run), id, script);
            && ok && id in after.repo.rows && after.repo.rows[id].status == P.Settled
            && B.TakenRefs(after.bank, id) != {}
            && (Clean(SliceOf(after, id)) <==> id !in w.consent.byPayment)
            && (id in w.consent.byPayment ==>
                  id !in after.consent.usage && HoldStatusOf(after.consent, id) == Some(C.Released))
  {
    RunKeepsInv(run);
    RunClean(run);
    RetrySettles(Exec(run), id, script, r);
    if id in Exec(run).w.consent.byPayment {
      OldHoldIsNotClean(Exec(run), id, script, r);
    } else {
      FirstHoldIsClean(Exec(run), id, script);
    }
  }

  /** A reset forgets the reservation, the bank reference and the score, and keeps the rest. */
  lemma RetryEffect(s: Sys, id: string)
    requires CanRetry(s, id)
    ensures var after := Next(s, Retry(id, P.Done));
            && after.w == s.w.(repo := after.w.repo) && id in after.actors && id in after.w.repo.rows
            && after.actors[id] == RetryActor(s.w.repo.rows[id])
            && after.w.repo.rows[id] == after.actors[id].memory
            && after.w.repo.rows[id] ==
                 s.w.repo.rows[id].(status := P.Initiated, bankRef := "", reservation := None, risk := None)
  {
  }

  lemma StillUndone(s: Sys, id: string, account: L.Account)
    requires Inv(s) && ClientId(id) && HoldStatusOf(s.w.consent, id) == Some(C.Released)
    requires id in s.w.ledger.entries && s.w.ledger.entries[id].reversed
    ensures L.Net(s.w.ledger.entries, id, account) == 0 && id !in s.w.consent.usage
  {
    assert TableSound(s.w, JournalPairs) && TableSound(s.w, ConsentTables);
    NetEffect(s.w.ledger, id, account);
    assert CL.UsageMatches(s.w.consent, id);
  }
}
