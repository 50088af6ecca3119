/** One attempt at a payment, run to its end under every combination of answers, and the accidents that
    an attempt cannot repair. */
module Attempts {
  import opened Basics
  import opened Saga
  import opened Platform
  import opened Slices
  import opened AllRuns
  import opened Split
  import opened CleanRuns
  import opened Recovery
  import O = Orchestration
  import B = Banks
  import C = Consents
  import P = Payments

  // ---------- every combination of answers ----------

  /** The ids and references the stores would generate are new. */
  predicate FreshScript(w: World, script: Script) {
    && script(Reserve).newId != ""
    && (!script(Bank).bank.BankDown? ==> script(Bank).bank.ref != "" && script(Bank).bank.ref !in w.bank)
  }

  /** The bank has not been called yet. */
  predicate BeforeBank(pc: Pc) {
    pc.AtReserve? || pc.AtSaveConsent? || pc.AtRisk? || pc.AtSaveRisk? || pc.AtBank?
  }

  lemma BankUntouched(w: World, id: string, a: Actor, ans: Answer)
    requires BeforeBank(a.pc) && !a.pc.AtBank?
    ensures Advance(w, id, a, ans).0.bank == w.bank
  {
  }

  lemma BankIsBehind(w: World, id: string, a: Actor, ans: Answer)
    requires !BeforeBank(a.pc) || a.pc.AtBank?
    ensures !BeforeBank(Advance(w, id, a, ans).1.pc)
  {
  }

  /** The key writes succeed: the bank reference and the final mark are recorded, and the ledger answers if
      it already has the entry. */
  predicate KeyWrites(w: World, id: string, script: Script) {
    && script(SaveBank).write == P.Done
    && script(Mark).write != P.Lost
    && (script(Post).up || id !in w.ledger.entries)
  }

  predicate Ended(v: Slice, a: Option<Actor>) {
    v.row.Some? && ((a.None? || a.value.pc.AtComplete?) ==> !P.InFlight(v.row.value.status))
  }

  /** The payment is in order, and so is whoever works on it. */
  ghost predicate InOrder(w: World, id: string, a: Option<Actor>) {
    && Sound(w) && ClientId(id) && id in w.repo.rows
    && Fits(SliceOf(w, id), a) && CleanSlice(SliceOf(w, id), a) && Ended(SliceOf(w, id), a)
  }

  lemma AdvanceEnds(w: World, id: string, a: Actor, ans: Answer)
    requires RepoSound(w.repo) && id in w.repo.rows && Fits(SliceOf(w, id), Some(a)) && Ended(SliceOf(w, id), Some(a))
    requires a.pc.AtMark? ==> ans.write != P.Lost
    ensures var (after, b) := Advance(w, id, a, ans);
            id in after.repo.rows && ((b.pc.AtComplete? || b.pc.AtEnd?) ==> !P.InFlight(after.repo.rows[id].status))
  {
    AdvanceKeepsKeys(w, id, a, ans);
    if a.pc.AtMark? {
      MarkEnds(w, id, a, ans);
    } else if a.pc.AtConfirm? || a.pc.AtComplete? {
      OtherStepsKeepRows(w, id, a, ans);
    } else {
      NotYetEnded(w, id, a, ans);
    }
  }

  lemma NotYetEnded(w: World, id: string, a: Actor, ans: Answer)
    requires !a.pc.AtMark? && !a.pc.AtConfirm? && !a.pc.AtComplete? && !a.pc.AtEnd?
    ensures var pc := Advance(w, id, a, ans).1.pc; !pc.AtComplete? && !pc.AtEnd?
  {
  }

  lemma StepInOrder(w: World, id: string, a: Actor, ans: Answer)
    requires InOrder(w, id, Some(a)) && Generated(w, a, ans) && SafeStep(SliceOf(w, id), a, ans)
    requires a.pc.AtMark? ==> ans.write != P.Lost
    ensures var (after, b) := Advance(w, id, a, ans); InOrder(after, id, After(b))
  {
    assert TableSound(w, PaymentTable);
    AdvanceSound(w, id, a, ans);
    AdvanceFits(w, id, a, ans);
    AdvanceClean(w, id, a, ans);
    AdvanceEnds(w, id, a, ans);
  }

  /** Before the ledger step nothing is posted; after it, the answer no longer matters. */
  predicate PostIsSafe(w: World, id: string, a: Actor, script: Script) {
    Rank(a.pc) >= Rank(AtPost) ==> script(Post).up || id !in w.ledger.entries
  }

  lemma PostStaysSafe(w: World, id: string, a: Actor, script: Script)
    requires PostIsSafe(w, id, a, script) && !a.pc.AtEnd?
    ensures var (after, b) := Advance(w, id, a, script(StageOf(a.pc))); PostIsSafe(after, id, b, script)
  {
    AdvanceDescends(w, id, a, script(StageOf(a.pc)));
    if Rank(a.pc) > Rank(AtPost) {
      LedgerUntouched(w, id, a, script(StageOf(a.pc)));
    }
  }

  lemma LedgerUntouched(w: World, id: string, a: Actor, ans: Answer)
    requires !a.pc.AtPost? && !a.pc.AtUndoLedger?
    ensures Advance(w, id, a, ans).0.ledger == w.ledger
  {
  }

  /** The verdict the attempt reports is the status of the row. */
  predicate Reported(v: Slice, ok: bool) {
    v.row.Some? && (ok <==> v.row.value.status == P.Settled)
  }

  lemma StepReports(w: World, id: string, a: Actor, ans: Answer)
    requires InOrder(w, id, Some(a)) && !a.pc.AtEnd? && (a.pc.AtMark? ==> ans.write != P.Lost)
    ensures var (after, b) := Advance(w, id, a, ans); b.pc.AtEnd? ==> Reported(SliceOf(after, id), b.pc.ok)
  {
    if a.pc.AtMark? {
      MarkReports(w, id, a, ans);
    } else if a.pc.AtConfirm? || a.pc.AtComplete? {
      OtherStepsKeepRows(w, id, a, ans);
    } else {
      NotYetEnded(w, id, a, ans);
    }
  }

  lemma MarkReports(w: World, id: string, a: Actor, ans: Answer)
    requires id in w.repo.rows && a.pc.AtMark? && ans.write != P.Lost
    ensures var (after, b) := StepMark(w, id, a, ans); Reported(SliceOf(after, id), false) && (b.pc.AtEnd? ==> !b.pc.ok)
  {
  }

  lemma {:induction false} AttemptInOrder(w: World, id: string, a: Actor, script: Script)
    requires InOrder(w, id, Some(a)) && !a.pc.AtEnd?
    requires BeforeBank(a.pc) ==> FreshScript(w, script)
    requires script(SaveBank).write == P.Done && script(Mark).write != P.Lost && PostIsSafe(w, id, a, script)
    ensures var (after, ok) := RunFrom(w, id, a, script); InOrder(after, id, None) && Reported(SliceOf(after, id), ok)
    decreases Rank(a.pc)
  {
    var ans := script(StageOf(a.pc));
    AdvanceDescends(w, id, a, ans);
    O.Unfold(w, id, a, script);
    StepInOrder(w, id, a, ans);
    StepReports(w, id, a, ans);
    PostStaysSafe(w, id, a, script);
    var (next, b) := Advance(w, id, a, ans);
    if !b.pc.AtEnd? {
      if BeforeBank(a.pc) && !a.pc.AtBank? {
        BankUntouched(w, id, a, ans);
      } else {
        BankIsBehind(w, id, a, ans);
      }
      AttemptInOrder(next, id, b, script);
    }
  }

  lemma RunInOrder(run: seq<Label>, id: string)
    requires CleanRun(run) && id in Exec(run).actors && !Exec(run).actors[id].pc.AtComplete?
    ensures InOrder(Exec(run).w, id, Some(Exec(run).actors[id])) && !Exec(run).actors[id].pc.AtEnd?
  {
    var s := Exec(run);
    RunClean(run);
    RunKeepsInv(run);
    assert InvAt(s, id) && CleanAt(s, id);
  }

  /** In any state of any clean run, let an attempt at a payment go on to its end under any combination of
      outcomes of its steps and compensations, key writes succeeding. It ends SETTLED, FAILED or
      MANUAL_REVIEW; it reports success exactly if SETTLED; and the four stores agree with the ending. */
  lemma AttemptIsAllOrNothing(run: seq<Label>, id: string, script: Script)
    requires CleanRun(run) && id in Exec(run).actors && !Exec(run).actors[id].pc.AtComplete?
    requires FreshScript(Exec(run).w, script) && KeyWrites(Exec(run).w, id, script)
    ensures var (after, ok) := RunFrom(Exec(run).w, id, Exec(run).actors[id], script);
            && id in after.repo.rows
            && var v := SliceOf(after, id);
            && after.repo.rows[id].status in {P.Settled, P.Failed, P.ManualReview}
            && (ok <==> after.repo.rows[id].status == P.Settled)
            && (after.repo.rows[id].status == P.Settled ==> Whole(v))
            && (after.repo.rows[id].status == P.Failed ==> Undone(v))
  {
    RunInOrder(run, id);
    AttemptInOrder(Exec(run).w, id, Exec(run).actors[id], script);
  }

  /** What SETTLED takes: a payment that the ledger would not accept, such as one penny, never settles in a
      clean run. */
  lemma SettledIsPostable(run: seq<Label>, id: string)
    requires CleanRun(run) && id in Exec(run).w.repo.rows && Exec(run).w.repo.rows[id].status == P.Settled
    ensures Postable(Exec(run).w.repo.rows[id])
  {
    RunClean(run);
    RunKeepsInv(run);
    TerminalSlice(Exec(run), id);
  }

  // ---------- the accidents, and exactly when they happen ----------

  /** An attempt stands before the write of the bank reference, and every other call gets through. The stores
      agree with the ending exactly if that write is done: otherwise the memory has no reference, the
      reversal skips the bank, and the payment is FAILED with the money taken. */
  lemma LostReferenceIff(run: seq<Label>, id: string, script: Script)
    requires CleanRun(run) && id in Exec(run).actors && Exec(run).actors[id].pc.AtSaveBank?
    requires AllUpBut(script, SaveBank, SaveBank)
    ensures var after := RunFrom(Exec(run).w, id, Exec(run).actors[id], script).0;
            && (Clean(SliceOf(after, id)) <==> script(SaveBank).write == P.Done)
            && (script(SaveBank).write != P.Done ==>
                  id in after.repo.rows && after.repo.rows[id].status == P.Failed && B.TakenRefs(after.bank, id) != {})
  {
    RunInOrder(run, id);
    LostReferenceCases(Exec(run).w, id, Exec(run).actors[id], script);
  }

  lemma LostReferenceCases(w: World, id: string, a: Actor, script: Script)
    requires InOrder(w, id, Some(a)) && a.pc.AtSaveBank? && AllUpBut(script, SaveBank, SaveBank)
    ensures var after := RunFrom(w, id, a, script).0;
            && (Clean(SliceOf(after, id)) <==> script(SaveBank).write == P.Done)
            && (script(SaveBank).write != P.Done ==>
                  id in after.repo.rows && after.repo.rows[id].status == P.Failed && B.TakenRefs(after.bank, id) != {})
  {
    assert script(Mark).write == P.Done && script(Post).up;
    if script(SaveBank).write == P.Done {
      AttemptEndsClean(w, id, a, script);
    } else {
      LostReference(w, id, a, script);
    }
  }

  lemma AttemptEndsClean(w: World, id: string, a: Actor, script: Script)
    requires InOrder(w, id, Some(a)) && !a.pc.AtEnd? && !BeforeBank(a.pc)
    requires script(SaveBank).write == P.Done && script(Mark).write != P.Lost
    requires (script(Post).up || id !in w.ledger.entries)
    ensures Clean(SliceOf(RunFrom(w, id, a, script).0, id))
  {
    AttemptInOrder(w, id, a, script);
  }

  lemma LostWrite(w: World, id: string, a: Actor, ans: Answer)
    requires InOrder(w, id, Some(a)) && a.pc.AtSaveBank? && ans.write != P.Done
    ensures var (after, b) := StepSaveBank(w, id, a, ans);
            && b == a.(pc := AtUndoBank(false, true)) && a.memory.bankRef == ""
            && after == w.(repo := after.repo) && id in after.repo.rows
            && var v := SliceOf(after, id);
            && v.taken == {a.pc.ref} && v.holdStatus == Some(C.Held) && v.hold != Some("") && Owns(v, a.memory)
  {
    OwnStatusWrite(w, id, a.memory.status, P.Authorising, P.AfterBank(a.pc.ref), ans.write);
  }

  lemma LostReference(w: World, id: string, a: Actor, script: Script)
    requires InOrder(w, id, Some(a)) && a.pc.AtSaveBank? && script(SaveBank).write != P.Done
    requires AllUpBut(script, SaveBank, SaveBank)
    ensures var v := SliceOf(RunFrom(w, id, a, script).0, id);
            v.row.Some? && v.row.value.status == P.Failed && v.taken == {a.pc.ref}
  {
    assert TableSound(w, ConsentTables) && TableSound(w, BankTable);
    LostWrite(w, id, a, script(SaveBank));
    FirstStep(w, id, a, script);
    var (after, b) := StepSaveBank(w, id, a, script(SaveBank));
    UndoRun(after, id, b, script);
  }

  lemma FirstStep(w: World, id: string, a: Actor, script: Script)
    requires a.pc.AtSaveBank?
    ensures var (after, b) := StepSaveBank(w, id, a, script(SaveBank));
            RunFrom(w, id, a, script) == RunFrom(after, id, b, script)
  {
    O.Unfold(w, id, a, script);
  }

  /** An attempt stands before the ledger step, and every other call gets through. The stores agree with the
      ending exactly if the ledger answers or has nothing of this payment: a resumed payment whose entry
      was posted before the crash is otherwise FAILED with the entry standing. */
  lemma StandingEntryIff(run: seq<Label>, id: string, script: Script)
    requires CleanRun(run) && id in Exec(run).actors && Exec(run).actors[id].pc.AtPost?
    requires AllUpBut(script, Post, Post)
    ensures var w := Exec(run).w;
            var after := RunFrom(w, id, Exec(run).actors[id], script).0;
            && (Clean(SliceOf(after, id)) <==> script(Post).up || id !in w.ledger.entries)
            && (!script(Post).up ==>
                  id in after.repo.rows && after.repo.rows[id].status == P.Failed && after.ledger == w.ledger)
  {
    var w, a := Exec(run).w, Exec(run).actors[id];
    RunInOrder(run, id);
    StandingEntryCases(w, id, a, script);
  }

  lemma StandingEntryCases(w: World, id: string, a: Actor, script: Script)
    requires InOrder(w, id, Some(a)) && a.pc.AtPost? && AllUpBut(script, Post, Post)
    ensures var after := RunFrom(w, id, a, script).0;
            && (Clean(SliceOf(after, id)) <==> script(Post).up || id !in w.ledger.entries)
            && (!script(Post).up ==>
                  id in after.repo.rows && after.repo.rows[id].status == P.Failed && after.ledger == w.ledger)
  {
    assert script(Mark).write == P.Done && script(SaveBank).write == P.Done;
    if script(Post).up {
      AttemptEndsClean(w, id, a, script);
    } else {
      StandingEntry(w, id, a, script);
      UndoKeepsLedger(w, id, a.(pc := AtUndoBank(false, true)), script);
    }
  }

  lemma PostSkipped(w: World, id: string, a: Actor, script: Script)
    requires a.pc.AtPost? && !script(Post).up
    ensures RunFrom(w, id, a, script) == RunFrom(w, id, a.(pc := AtUndoBank(false, true)), script)
  {
    O.Unfold(w, id, a, script);
    assert StepPost(w, id, a, script(Post)) == (w, a.(pc := AtUndoBank(false, true)));
  }

  lemma StandingEntry(w: World, id: string, a: Actor, script: Script)
    requires InOrder(w, id, Some(a)) && a.pc.AtPost? && !script(Post).up
    requires AllUpBut(script, Post, Post)
    ensures RunFrom(w, id, a, script) == RunFrom(w, id, a.(pc := AtUndoBank(false, true)), script)
    ensures var v := SliceOf(RunFrom(w, id, a, script).0, id);
            v.row.Some? && v.row.value.status == P.Failed && v.entry == SliceOf(w, id).entry
            && (v.entry.None? ==> Clean(v)) && (v.entry.Some? ==> !Clean(v))
  {
    var b := a.(pc := AtUndoBank(false, true));
    PostSkipped(w, id, a, script);
    assert TableSound(w, ConsentTables) && TableSound(w, BankTable);
    UndoRun(w, id, b, script);
    StandingSlice(SliceOf(w, id), a, SliceOf(RunFrom(w, id, b, script).0, id));
  }

  lemma StandingSlice(v: Slice, a: Actor, after: Slice)
    requires a.pc.AtPost? && Fits(v, Some(a)) && CleanSlice(v, Some(a))
    requires var undone := Released(GivenBack(v, a.memory, true), a.memory);
             after == undone.(row := Some(v.row.value.(status := P.Failed)), events := after.events)
    ensures after.entry == v.entry && (v.entry.None? ==> Clean(after)) && (v.entry.Some? ==> !Clean(after))
  {
  }

  lemma {:induction false} UndoKeepsLedger(w: World, id: string, a: Actor, script: Script)
    requires Rank(a.pc) <= Rank(AtUndoBank(false, true))
    ensures RunFrom(w, id, a, script).0.ledger == w.ledger
    decreases Rank(a.pc)
  {
    if !a.pc.AtEnd? {
      var ans := script(StageOf(a.pc));
      AdvanceDescends(w, id, a, ans);
      LedgerUntouched(w, id, a, ans);
      UndoKeepsLedger(Advance(w, id, a, ans).0, id, Advance(w, id, a, ans).1, script);
    }
  }
}
