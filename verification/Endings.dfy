/** How an attempt ends: what a refusal by risk or by the bank leaves behind, and when the idempotency key is
    completed. */
module Endings {
  import opened Basics
  import opened Saga
  import opened Platform
  import opened Slices
  import opened AllRuns
  import opened CleanRuns
  import opened Recovery
  import opened Attempts
  import O = Orchestration
  import B = Banks
  import C = Consents
  import P = Payments

  // ---------- refusals, in any world ----------

  /** On the way out with nothing to reverse at the bank. */
  predicate BackingOut(pc: Pc) {
    || (pc.AtUndoBank? && !pc.reverseBank) || pc.AtRelease? || pc.AtMark?
    || (pc.AtComplete? && !pc.ok) || (pc.AtEnd? && !pc.ok)
  }

  /** The row is as it was, or marked FAILED or MANUAL_REVIEW. */
  predicate OnlyMarked(w: World, after: World, id: string) {
    id in w.repo.rows ==>
      && id in after.repo.rows
      && after.repo.rows[id].status in {w.repo.rows[id].status, P.Failed, P.ManualReview}
  }

  lemma BackStep(w: World, id: string, a: Actor, ans: Answer)
    requires BackingOut(a.pc) && !a.pc.AtEnd?
    ensures var (after, b) := Advance(w, id, a, ans);
            BackingOut(b.pc) && after.bank == w.bank && after.ledger == w.ledger && OnlyMarked(w, after, id)
  {
  }

  lemma {:induction false} BackRun(w: World, id: string, a: Actor, script: Script)
    requires BackingOut(a.pc)
    ensures var (after, ok) := RunFrom(w, id, a, script);
            !ok && after.bank == w.bank && after.ledger == w.ledger && OnlyMarked(w, after, id)
    decreases Rank(a.pc)
  {
    if !a.pc.AtEnd? {
      var ans := script(StageOf(a.pc));
      AdvanceDescends(w, id, a, ans);
      O.Unfold(w, id, a, script);
      BackStep(w, id, a, ans);
      BackRun(Advance(w, id, a, ans).0, id, Advance(w, id, a, ans).1, script);
    }
  }

  predicate RiskRefuses(answer: RiskAnswer) {
    answer.RiskDown? || answer.decision == "DECLINE"
  }

  lemma RefusedAtRisk(w: World, a: Actor, ans: Answer)
    requires a.pc.AtRisk? && RiskRefuses(ans.risk)
    ensures var (after, b) := StepRisk(w, a, ans); after == w && b.pc == AtUndoBank(false, false)
  {
  }

  lemma BeforeRisk(w: World, id: string, a: Actor, ans: Answer)
    requires a.pc.AtReserve? || a.pc.AtSaveConsent?
    ensures var (after, b) := Advance(w, id, a, ans);
            && after.bank == w.bank && after.ledger == w.ledger
            && (BackingOut(b.pc) || b.pc.AtSaveConsent? || b.pc.AtRisk?)
            && (id in w.repo.rows ==>
                  id in after.repo.rows && after.repo.rows[id].status in {w.repo.rows[id].status, P.ConsentReserved})
  {
  }

  /** Nothing was taken or posted, and the payment did not settle. */
  predicate Refused(w: World, after: World, ok: bool, id: string) {
    && !ok && after.bank == w.bank && after.ledger == w.ledger
    && (id in w.repo.rows && w.repo.rows[id].status != P.Settled ==>
          id in after.repo.rows && after.repo.rows[id].status != P.Settled)
  }

  /** In any world, under any other answers: an attempt whose risk check declines, or does not answer, fails; it
      leaves bank and ledger as they were and the payment unsettled. */
  lemma {:induction false} DeclinedNeverSettles(w: World, id: string, a: Actor, script: Script)
    requires a.pc.AtReserve? || a.pc.AtSaveConsent? || a.pc.AtRisk?
    requires RiskRefuses(script(Risk).risk)
    ensures var (after, ok) := RunFrom(w, id, a, script); Refused(w, after, ok, id)
    decreases Rank(a.pc)
  {
    var ans := script(StageOf(a.pc));
    AdvanceDescends(w, id, a, ans);
    O.Unfold(w, id, a, script);
    var (next, b) := Advance(w, id, a, ans);
    if a.pc.AtRisk? {
      RefusedAtRisk(w, a, ans);
      BackRun(next, id, b, script);
    } else {
      BeforeRisk(w, id, a, ans);
      if BackingOut(b.pc) {
        BackRun(next, id, b, script);
      } else {
        DeclinedNeverSettles(next, id, b, script);
      }
    }
  }

  lemma RejectedStep(w: World, id: string, a: Actor, ans: Answer, o: string)
    requires a.pc.AtBank? && !ans.bank.BankTakes? && Generated(w, a, ans) && o != ""
    ensures var (after, b) := StepBank(w, id, a, ans);
            && b.pc == AtUndoBank(false, false) && after.repo == w.repo && after.ledger == w.ledger
            && B.TakenRefs(after.bank, o) == B.TakenRefs(w.bank, o)
  {
  }

  /** The same for a bank that rejects or does not answer: no payment's money moves. */
  lemma RejectedNeverSettles(w: World, id: string, a: Actor, script: Script, o: string)
    requires a.pc.AtBank? && !script(Bank).bank.BankTakes? && Generated(w, a, script(Bank)) && o != ""
    ensures var (after, ok) := RunFrom(w, id, a, script);
            && !ok && after.ledger == w.ledger && B.TakenRefs(after.bank, o) == B.TakenRefs(w.bank, o)
            && OnlyMarked(w, after, id)
  {
    O.Unfold(w, id, a, script);
    RejectedStep(w, id, a, script(Bank), o);
    var (next, b) := StepBank(w, id, a, script(Bank));
    BackRun(next, id, b, script);
  }

  // ---------- refusals in a clean run ----------

  lemma UndoneAfter(w: World, id: string, a: Actor, script: Script)
    requires InOrder(w, id, Some(a)) && a.pc == AtUndoBank(false, false) && AllUp(script)
    requires SliceOf(w, id).holdStatus == Some(C.Held) && a.memory.reservation.Some?
    ensures var (after, ok) := RunFrom(w, id, a, script);
            && id in after.repo.rows && after.repo.rows[id].status == P.Failed
            && Undone(SliceOf(after, id)) && HoldStatusOf(after.consent, id) == Some(C.Released)
  {
    assert TableSound(w, ConsentTables) && TableSound(w, BankTable);
    UndoRun(w, id, a, script);
    UndoneSlice(SliceOf(w, id), a, SliceOf(RunFrom(w, id, a, script).0, id));
  }

  lemma UndoneSlice(v: Slice, a: Actor, after: Slice)
    requires a.pc == AtUndoBank(false, false) && CleanSlice(v, Some(a)) && a.memory.reservation.Some?
    requires var undone := Released(GivenBack(v, a.memory, false), a.memory);
             after == undone.(row := after.row, events := after.events)
    ensures Undone(after) && after.holdStatus == Some(C.Released)
  {
  }

  /** In any state of a clean run: a payment declined by risk, every other call succeeding, ends FAILED with its hold
      released and nothing left anywhere. */
  lemma DeclinedIsUndone(run: seq<Label>, id: string, script: Script)
    requires CleanRun(run) && id in Exec(run).actors && Exec(run).actors[id].pc.AtRisk?
    requires AllUp(script) && RiskRefuses(script(Risk).risk)
    ensures var after := RunFrom(Exec(run).w, id, Exec(run).actors[id], script).0;
            && id in after.repo.rows && after.repo.rows[id].status == P.Failed
            && Undone(SliceOf(after, id)) && HoldStatusOf(after.consent, id) == Some(C.Released)
  {
    RunInOrder(run, id);
    DeclinedFrom(Exec(run).w, id, Exec(run).actors[id], script);
  }

  lemma DeclinedFrom(w: World, id: string, a: Actor, script: Script)
    requires InOrder(w, id, Some(a)) && a.pc.AtRisk? && AllUp(script) && RiskRefuses(script(Risk).risk)
    ensures var after := RunFrom(w, id, a, script).0;
            && id in after.repo.rows && after.repo.rows[id].status == P.Failed
            && Undone(SliceOf(after, id)) && HoldStatusOf(after.consent, id) == Some(C.Released)
  {
    RefusedAtRisk(w, a, script(Risk));
    RiskInOrder(w, id, a, script(Risk));
    O.GoesOn(w, id, a, script, StepRisk(w, a, script(Risk)));
    UndoneAfter(w, id, StepRisk(w, a, script(Risk)).1, script);
  }

  lemma RiskInOrder(w: World, id: string, a: Actor, ans: Answer)
    requires InOrder(w, id, Some(a)) && a.pc.AtRisk? && RiskRefuses(ans.risk)
    ensures var b := StepRisk(w, a, ans).1;
            InOrder(w, id, Some(b)) && SliceOf(w, id).holdStatus == Some(C.Held) && b.memory.reservation.Some?
  {
    StepInOrder(w, id, a, ans);
  }

  // ---------- what the row learns ----------

  /** A score that passes is recorded as it was answered, and the payment goes on to the bank. */
  lemma ScoreIsRecorded(w: World, id: string, a: Actor, score: Answer, save: Answer)
    requires a.pc.AtRisk? && id in w.repo.rows && !RiskRefuses(score.risk) && save.write == P.Done
    ensures var (w1, b) := Advance(w, id, a, score);
            && b.pc.AtSaveRisk?
            && var (w2, c) := Advance(w1, id, b, save);
            && c.pc.AtBank? && id in w2.repo.rows
            && w2.repo.rows[id] ==
                 w.repo.rows[id].(status := P.RiskPassed, risk := Some((score.risk.score, score.risk.decision)))
  {
    var (w1, b) := Advance(w, id, a, score);
    assert w1 == w && b == a.(pc := AtSaveRisk(score.risk.score, score.risk.decision));
  }

  // ---------- the idempotency key ----------

  /** A first attempt completes the key however it ends, a resumed one if it settles, a retry never. */
  predicate Completes(kind: Kind, ok: bool) {
    kind == First || (ok && kind != Retried)
  }

  lemma KeyStep(w: World, id: string, a: Actor, ans: Answer)
    requires !a.pc.AtComplete? && !a.pc.AtEnd?
    ensures var (after, b) := Advance(w, id, a, ans);
            && after.idem == w.idem && b.memory.key == a.memory.key
            && (b.pc.AtEnd? ==> !Completes(a.kind, b.pc.ok)) && (b.pc.AtComplete? ==> Completes(a.kind, b.pc.ok))
  {
  }

  lemma CompleteRun(w: World, id: string, a: Actor, script: Script)
    requires a.pc.AtComplete?
    ensures var (after, ok) := RunFrom(w, id, a, script);
            ok == a.pc.ok && after.idem == (if script(Complete).up then w.idem[a.memory.key := id] else w.idem)
  {
    O.Unfold(w, id, a, script);
  }

  /** In any world and under any answers: exactly then, and if the call gets through, the key names the payment. */
  lemma {:induction false} KeyIsCompletedIff(w: World, id: string, a: Actor, script: Script)
    requires !a.pc.AtComplete? && !a.pc.AtEnd?
    ensures var (after, ok) := RunFrom(w, id, a, script);
            after.idem == if Completes(a.kind, ok) && script(Complete).up then w.idem[a.memory.key := id] else w.idem
    decreases Rank(a.pc)
  {
    var ans := script(StageOf(a.pc));
    AdvanceDescends(w, id, a, ans);
    O.Unfold(w, id, a, script);
    KeyStep(w, id, a, ans);
    var (next, b) := Advance(w, id, a, ans);
    if b.pc.AtComplete? {
      CompleteRun(next, id, b, script);
    } else if !b.pc.AtEnd? {
      KeyIsCompletedIff(next, id, b, script);
    }
  }
}
