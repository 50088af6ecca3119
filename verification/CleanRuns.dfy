/** All or nothing across the four stores. A run is clean if it has none of the four accidents the code
    does not repair; in a clean run a SETTLED payment is complete everywhere and a FAILED one has left
    nothing anywhere, whatever else failed, crashed or interleaved. */
module CleanRuns {
  import opened Basics
  import opened Saga
  import opened Platform
  import opened Slices
  import opened AllRuns
  import opened Split
  import B = Banks
  import C = Consents
  import L = Ledgers
  import P = Payments
  import CL = ConsentLaws
  import LL = LedgerLaws

  // ---------- the good states of one payment ----------

  predicate NoEntry(v: Slice) {
    v.entry.None? || v.entry.value.reversed
  }

  predicate NoHold(v: Slice) {
    v.holdStatus.None? || v.holdStatus == Some(C.Released)
  }

  /** Bank, ledger and consent all stand as if the payment had never been. */
  predicate Undone(v: Slice) {
    v.taken == {} && NoEntry(v) && NoHold(v)
  }

  /** The money is with the platform under the reference the row knows, nothing has been undone. */
  predicate Kept(v: Slice)
    requires v.row.Some?
  {
    && v.row.value.bankRef != "" && v.taken == {v.row.value.bankRef}
    && v.holdStatus == Some(C.Held)
    && (v.entry.Some? ==> !v.entry.value.reversed)
  }

  /** What the reconciler can finish or undo from the row alone. */
  predicate Recoverable(v: Slice)
    requires v.row.Some?
  {
    Kept(v) || (v.taken == {} && NoEntry(v) && (NoHold(v) || v.row.value.reservation == v.hold))
  }

  predicate Whole(v: Slice)
    requires v.row.Some?
  {
    && v.taken == {v.row.value.bankRef}
    && v.entry.Some? && !v.entry.value.reversed
    && v.holdStatus in {Some(C.Held), Some(C.Confirmed)}
  }

  predicate Clean(v: Slice) {
    && v.row.Some?
    && match v.row.value.status
       case Settled => Whole(v)
       case Failed => Undone(v)
       case ManualReview => true
       case _ => Recoverable(v)
  }

  /** The entry moves every account by its share of the payment. */
  ghost predicate MovesShares(e: L.Entry, p: P.Payment) {
    Postable(p) && forall a :: L.Effect(e.lines, a) == Share(p, a)
  }

  ghost predicate Matches(v: Slice) {
    v.row.Some? && (v.entry.Some? ==> v.hold.Some? && MovesShares(v.entry.value, v.row.value))
  }

  predicate HoldKnown(v: Slice, p: P.Payment) {
    NoHold(v) || v.hold == p.reservation
  }

  predicate CleanActor(v: Slice, a: Actor)
    requires v.row.Some?
  {
    match a.pc
    case AtReserve => a.memory == v.row.value && v.hold.None? && v.taken == {} && v.entry.None?
    case AtSaveConsent(_, _) => a.memory == v.row.value && v.holdStatus == Some(C.Held) && v.taken == {}
      && v.entry.None?
    case AtRisk => a.memory == v.row.value && v.holdStatus == Some(C.Held) && v.taken == {} && v.entry.None?
    case AtSaveRisk(_, _) => a.memory == v.row.value && v.holdStatus == Some(C.Held) && v.taken == {} && v.entry.None?
    case AtBank => a.memory == v.row.value && v.holdStatus == Some(C.Held) && v.taken == {} && v.entry.None?
    case AtSaveBank(ref) => a.memory == v.row.value && v.holdStatus == Some(C.Held) && v.taken == {ref} && v.entry.None?
    case AtPost => a.memory == v.row.value && Kept(v)
    case AtSettle => a.memory == v.row.value && Kept(v) && v.entry.Some?
    case AtUndoLedger => a.memory == v.row.value && Kept(v) && v.entry.Some?
    case AtUndoBank(failed, reverseBank) =>
      && (!failed ==> NoEntry(v))
      && (v.taken == {} || (reverseBank && a.memory.bankRef != "" && v.taken == {a.memory.bankRef}))
      && HoldKnown(v, a.memory)
    case AtRelease(failed) => (!failed ==> v.taken == {} && NoEntry(v)) && HoldKnown(v, a.memory)
    case AtMark(failed) => !failed ==> Undone(v)
    case AtConfirm => Clean(v)
    case AtComplete(_) => Clean(v)
    case AtEnd(_) => Clean(v)
  }

  ghost predicate CleanSlice(v: Slice, a: Option<Actor>) {
    Matches(v) && (if a.Some? then CleanActor(v, a.value) else Clean(v))
  }

  // ---------- the accidents ----------

  /** The call about to be made does not fail in a way that leaves something behind for good: the bank
      reference is recorded once the bank has taken the money, the ledger answers when it already holds
      the entry of a resumed payment, and the final mark is not lost over half-undone stores. */
  predicate SafeStep(v: Slice, a: Actor, ans: Answer) {
    && (a.pc.AtSaveBank? ==> ans.write == P.Done)
    && (a.pc.AtPost? ==> ans.up || v.entry.None?)
    && (a.pc.AtMark? ==> ans.write != P.Lost || Clean(v))
  }

  /** A crash does not catch the stores half-undone or a hold or a reference unrecorded, and a retry does not
      meet a reservation of the earlier attempt. */
  predicate Safe(s: Sys, event: Label) {
    match event
    case Step(id, ans) => id in s.actors ==> SafeStep(SliceOf(s.w, id), s.actors[id], ans)
    case Crash(id) => Clean(SliceOf(s.w, id))
    case Retry(id, _) => CanRetry(s, id) ==> id !in s.w.consent.byPayment
    case _ => true
  }

  predicate CleanRun(run: seq<Label>) {
    run == [] || (CleanRun(run[..|run| - 1]) && Safe(Exec(run[..|run| - 1]), run[|run| - 1]))
  }

  // ---------- step by step ----------

  lemma CleanReserve(w: World, id: string, a: Actor, ans: Answer)
    requires CL.Valid(w.consent) && a.pc.AtReserve? && Fits(SliceOf(w, id), Some(a))
    requires CleanSlice(SliceOf(w, id), Some(a))
    ensures var (after, b) := StepReserve(w, id, a, ans); CleanSlice(SliceOf(after, id), After(b))
  {
    OwnReserve(w, id, a.memory.consent, a.memory.amount, a.memory.currency, ans.now, ans.newId);
  }

  lemma CleanSaveConsent(w: World, id: string, a: Actor, ans: Answer)
    requires id in w.repo.rows && a.pc.AtSaveConsent? && Fits(SliceOf(w, id), Some(a))
    requires CleanSlice(SliceOf(w, id), Some(a))
    ensures var (after, b) := StepSaveConsent(w, id, a, ans); CleanSlice(SliceOf(after, id), After(b))
  {
    OwnStatusWrite(w, id, a.memory.status, P.ConsentReserved, P.AfterConsent(a.pc.reservation, a.pc.consumer),
                   ans.write);
  }

  lemma CleanSaveRisk(w: World, id: string, a: Actor, ans: Answer)
    requires id in w.repo.rows && a.pc.AtSaveRisk? && Fits(SliceOf(w, id), Some(a))
    requires CleanSlice(SliceOf(w, id), Some(a))
    ensures var (after, b) := StepSaveRisk(w, id, a, ans); CleanSlice(SliceOf(after, id), After(b))
  {
    OwnStatusWrite(w, id, a.memory.status, P.RiskPassed, P.AfterRisk(a.pc.score, a.pc.decision), ans.write);
  }

  lemma CleanBank(w: World, id: string, a: Actor, ans: Answer)
    requires id != "" && a.pc.AtBank? && Generated(w, a, ans) && Fits(SliceOf(w, id), Some(a))
    requires CleanSlice(SliceOf(w, id), Some(a))
    ensures var (after, b) := StepBank(w, id, a, ans); CleanSlice(SliceOf(after, id), After(b))
  {
    match ans.bank
    case BankDown =>
    case BankRejects(ref) => RejectFrame(w, ref, id);
    case BankTakes(ref) => OwnTake(w, id, ref, BankRequest(id, a.memory, a.consentRef));
  }

  lemma CleanSaveBank(w: World, id: string, a: Actor, ans: Answer)
    requires id in w.repo.rows && a.pc.AtSaveBank? && Fits(SliceOf(w, id), Some(a))
    requires CleanSlice(SliceOf(w, id), Some(a))
    requires ans.write == P.Done
    ensures var (after, b) := StepSaveBank(w, id, a, ans); CleanSlice(SliceOf(after, id), After(b))
  {
    OwnStatusWrite(w, id, a.memory.status, P.Authorising, P.AfterBank(a.pc.ref), ans.write);
  }

  lemma CleanPosted(v: Slice, a: Actor, after: Slice, posted: bool)
    requires a.pc.AtPost? && CleanSlice(v, Some(a)) && Fits(v, Some(a))
    requires after == v.(entry := after.entry)
    requires posted && v.entry.None? ==>
               after.entry.Some? && !after.entry.value.reversed && MovesShares(after.entry.value, a.memory)
    requires !posted || v.entry.Some? ==> after == v
    requires !posted ==> v.entry.None?
    ensures CleanSlice(after, Some(a.(pc := if posted then AtSettle else AtUndoBank(false, true))))
  {
  }

  lemma RowsAreShares(text: string, p: P.Payment)
    requires Postable(p)
    ensures MovesShares(L.Entry(text, Rows(p), false), p)
  {
    forall a ensures L.Effect(Rows(p), a) == Share(p, a) {
      RowsMoveShares(p, a);
    }
  }

  lemma CleanPostCall(w: World, id: string, a: Actor, text: string, lines: seq<L.LineInput>)
    requires ClientId(id) && LL.Books(w.ledger) && LL.Paired(w.ledger)
    requires a.pc.AtPost? && Fits(SliceOf(w, id), Some(a)) && CleanSlice(SliceOf(w, id), Some(a))
    requires L.Post(w.ledger, id, text, lines).1.None? <==> Postable(a.memory)
    requires Postable(a.memory) ==> MovesShares(L.Entry(text, L.EntryLines(L.Normalised(lines)), false), a.memory)
    ensures var (ledger, err) := L.Post(w.ledger, id, text, lines);
            CleanSlice(SliceOf(w.(ledger := ledger), id),
              Some(a.(pc := if err.None? then AtSettle else AtUndoBank(false, true))))
  {
    var (ledger, err) := L.Post(w.ledger, id, text, lines);
    OwnPost(w, id, text, lines);
    CleanPosted(SliceOf(w, id), a, SliceOf(w.(ledger := ledger), id), err.None?);
  }

  lemma CleanPost(w: World, id: string, a: Actor, ans: Answer)
    requires ClientId(id) && LL.Books(w.ledger) && LL.Paired(w.ledger)
    requires a.pc.AtPost? && Fits(SliceOf(w, id), Some(a)) && CleanSlice(SliceOf(w, id), Some(a))
    requires ans.up || id !in w.ledger.entries
    ensures var (after, b) := StepPost(w, id, a, ans); CleanSlice(SliceOf(after, id), Some(b))
  {
    if ans.up {
      CleanPosting(w, id, a);
    } else {
      CleanPosted(SliceOf(w, id), a, SliceOf(w, id), false);
      assert StepPost(w, id, a, ans) == (w, a.(pc := AtUndoBank(false, true)));
    }
  }

  lemma CleanPosting(w: World, id: string, a: Actor)
    requires ClientId(id) && LL.Books(w.ledger) && LL.Paired(w.ledger)
    requires a.pc.AtPost? && Fits(SliceOf(w, id), Some(a)) && CleanSlice(SliceOf(w, id), Some(a))
    ensures var (ledger, err) := Posting(w, id, a);
            CleanSlice(SliceOf(w.(ledger := ledger), id),
              Some(a.(pc := if err.None? then AtSettle else AtUndoBank(false, true))))
  {
    PostSucceedsIff(w.ledger, id, PostText(a.kind, id), a.memory);
    if Postable(a.memory) {
      RowsAreShares(PostText(a.kind, id), a.memory);
    }
    CleanPostCall(w, id, a, PostText(a.kind, id), SagaLines(a.memory));
  }

  lemma StatusKeepsShares(v: Slice, status: P.Status)
    requires Matches(v)
    ensures Matches(v.(row := Some(v.row.value.(status := status))))
  {
    forall a ensures Share(v.row.value.(status := status), a) == Share(v.row.value, a) {
    }
  }

  lemma CleanSettled(v: Slice, a: Actor, events: seq<P.Event>)
    requires a.pc.AtSettle? && CleanSlice(v, Some(a))
    ensures CleanSlice(v, Some(a.(pc := AtUndoLedger)))
    ensures CleanSlice(v.(row := Some(v.row.value.(status := P.Settled)), sent := v.sent + 1, events := events),
                       Some(a.(pc := AtConfirm, memory := a.memory.(status := P.Settled))))
  {
    StatusKeepsShares(v, P.Settled);
  }

  lemma CleanSettle(w: World, id: string, a: Actor, ans: Answer)
    requires id in w.repo.rows && a.pc.AtSettle? && CleanSlice(SliceOf(w, id), Some(a))
    ensures var (after, b) := StepSettle(w, id, a, ans); CleanSlice(SliceOf(after, id), After(b))
  {
    OwnSettle(w, id, a.memory.status, ans.up);
    CleanSettled(SliceOf(w, id), a, SliceOf(StepSettle(w, id, a, ans).0, id).events);
  }

  lemma CleanConfirmed(v: Slice, a: Actor, after: Slice, pc: Pc)
    requires a.pc.AtConfirm? && CleanSlice(v, Some(a)) && Fits(v, Some(a)) && pc in {AtComplete(true), AtEnd(true)}
    requires after == v || (v.holdStatus == Some(C.Held) && after == v.(holdStatus := Some(C.Confirmed), used := true))
    ensures CleanSlice(after, After(a.(pc := pc)))
  {
  }

  lemma CleanConfirm(w: World, id: string, a: Actor, ans: Answer)
    requires CL.Valid(w.consent) && id != "" && a.pc.AtConfirm? && Fits(SliceOf(w, id), Some(a))
    requires CleanSlice(SliceOf(w, id), Some(a))
    ensures var (after, b) := StepConfirm(w, id, a, ans); CleanSlice(SliceOf(after, id), After(b))
  {
    if a.memory.reservation.Some? {
      OwnConfirm(w, id, a.memory.reservation.value, ans.now);
    }
    var (after, b) := StepConfirm(w, id, a, ans);
    CleanConfirmed(SliceOf(w, id), a, SliceOf(after, id), b.pc);
  }

  lemma CleanUndoLedger(w: World, id: string, a: Actor, ans: Answer)
    requires ClientId(id) && LL.Books(w.ledger) && a.pc.AtUndoLedger?
    requires Fits(SliceOf(w, id), Some(a)) && CleanSlice(SliceOf(w, id), Some(a))
    ensures var (after, b) := StepUndoLedger(w, id, a, ans); CleanSlice(SliceOf(after, id), After(b))
  {
    OwnReverse(w, id, "settle failed");
  }

  lemma CleanGivenBack(v: Slice, a: Actor, after: Slice, failed: bool)
    requires a.pc.AtUndoBank? && CleanSlice(v, Some(a)) && (a.pc.failed ==> failed)
    requires after == v.(taken := after.taken)
    requires after.taken == v.taken || after.taken == {}
    requires !failed && v.taken != {} ==> after.taken == {}
    ensures CleanSlice(after, Some(a.(pc := AtRelease(failed))))
  {
  }

  lemma CleanUndoBank(w: World, id: string, a: Actor, ans: Answer)
    requires BankSound(w.bank) && id != "" && a.pc.AtUndoBank?
    requires Fits(SliceOf(w, id), Some(a)) && CleanSlice(SliceOf(w, id), Some(a))
    ensures var (after, b) := StepUndoBank(w, a, ans); CleanSlice(SliceOf(after, id), After(b))
  {
    if a.memory.bankRef != "" {
      OwnGiveBack(w, id, a.memory.bankRef);
    }
    var (after, b) := StepUndoBank(w, a, ans);
    CleanGivenBack(SliceOf(w, id), a, SliceOf(after, id), b.pc.failed);
  }

  lemma CleanReleased(v: Slice, a: Actor, after: Slice, failed: bool)
    requires a.pc.AtRelease? && CleanSlice(v, Some(a)) && Fits(v, Some(a)) && (a.pc.failed ==> failed)
    requires after == v.(holdStatus := after.holdStatus)
    requires !failed && a.memory.reservation.Some? ==> after.holdStatus == Some(C.Released)
    requires a.memory.reservation.None? ==> after == v
    ensures CleanSlice(after, Some(a.(pc := AtMark(failed))))
  {
  }

  lemma CleanRelease(w: World, id: string, a: Actor, ans: Answer)
    requires CL.Valid(w.consent) && a.pc.AtRelease? && Fits(SliceOf(w, id), Some(a))
    requires CleanSlice(SliceOf(w, id), Some(a))
    ensures var (after, b) := StepRelease(w, a, ans); CleanSlice(SliceOf(after, id), After(b))
  {
    if a.memory.reservation.Some? {
      OwnRelease(w, id, a.memory.reservation.value);
    }
    var (after, b) := StepRelease(w, a, ans);
    CleanReleased(SliceOf(w, id), a, SliceOf(after, id), b.pc.failed);
  }

  lemma CleanMarked(v: Slice, a: Actor, status: P.Status, events: seq<P.Event>)
    requires a.pc.AtMark? && CleanSlice(v, Some(a)) && status == if a.pc.failed then P.ManualReview else P.Failed
    ensures var after := v.(row := Some(v.row.value.(status := status)), events := events);
            Matches(after) && Clean(after)
  {
    StatusKeepsShares(v, status);
  }

  lemma CleanMark(w: World, id: string, a: Actor, ans: Answer)
    requires id in w.repo.rows && a.pc.AtMark? && CleanSlice(SliceOf(w, id), Some(a))
    requires SafeStep(SliceOf(w, id), a, ans)
    ensures var (after, b) := StepMark(w, id, a, ans); CleanSlice(SliceOf(after, id), After(b))
  {
    var status := if a.pc.failed then P.ManualReview else P.Failed;
    OwnStatusWrite(w, id, a.memory.status, status, P.Unchanged(), ans.write);
    CleanMarked(SliceOf(w, id), a, status, SliceOf(StepMark(w, id, a, ans).0, id).events);
    CleanEnding(SliceOf(StepMark(w, id, a, ans).0, id), StepMark(w, id, a, ans).1);
  }

  lemma CleanEnding(v: Slice, b: Actor)
    requires Matches(v) && Clean(v) && (b.pc.AtComplete? || b.pc.AtEnd?)
    ensures CleanSlice(v, After(b))
  {
  }

  lemma CleanRowStep(w: World, id: string, a: Actor, ans: Answer)
    requires id in w.repo.rows && WritesRow(a.pc) && Fits(SliceOf(w, id), Some(a))
    requires CleanSlice(SliceOf(w, id), Some(a))
    requires SafeStep(SliceOf(w, id), a, ans)
    ensures var (after, b) := RowStep(w, id, a, ans); CleanSlice(SliceOf(after, id), After(b))
  {
    match a.pc
    case AtSaveConsent(_, _) => CleanSaveConsent(w, id, a, ans);
    case AtSaveRisk(_, _) => CleanSaveRisk(w, id, a, ans);
    case AtSaveBank(_) => CleanSaveBank(w, id, a, ans);
    case AtSettle => CleanSettle(w, id, a, ans);
    case AtMark(_) => CleanMark(w, id, a, ans);
  }

  lemma CleanConsentStep(w: World, id: string, a: Actor, ans: Answer)
    requires CL.Valid(w.consent) && id != "" && CallsConsent(a.pc)
    requires Fits(SliceOf(w, id), Some(a)) && CleanSlice(SliceOf(w, id), Some(a))
    ensures var (after, b) := ConsentStep(w, id, a, ans); CleanSlice(SliceOf(after, id), After(b))
  {
    match a.pc
    case AtReserve => CleanReserve(w, id, a, ans);
    case AtConfirm => CleanConfirm(w, id, a, ans);
    case AtRelease(_) => CleanRelease(w, id, a, ans);
  }

  lemma CleanMoneyStep(w: World, id: string, a: Actor, ans: Answer)
    requires ClientId(id) && LL.Books(w.ledger) && LL.Paired(w.ledger) && BankSound(w.bank)
    requires CallsMoney(a.pc) && Generated(w, a, ans) && !a.pc.AtPost?
    requires Fits(SliceOf(w, id), Some(a)) && CleanSlice(SliceOf(w, id), Some(a))
    ensures var (after, b) := MoneyStep(w, id, a, ans); CleanSlice(SliceOf(after, id), After(b))
  {
    match a.pc
    case AtBank => CleanBank(w, id, a, ans);
    case AtUndoLedger => CleanUndoLedger(w, id, a, ans);
    case AtUndoBank(_, _) => CleanUndoBank(w, id, a, ans);
  }

  lemma CleanPostStep(w: World, id: string, a: Actor, ans: Answer)
    requires ClientId(id) && LL.Books(w.ledger) && LL.Paired(w.ledger)
    requires a.pc.AtPost? && (ans.up || id !in w.ledger.entries)
    requires Fits(SliceOf(w, id), Some(a)) && CleanSlice(SliceOf(w, id), Some(a))
    ensures var (after, b) := MoneyStep(w, id, a, ans); CleanSlice(SliceOf(after, id), After(b))
  {
    CleanPost(w, id, a, ans);
    PostGoesOn(w, id, a, ans);
    GoesOn(StepPost(w, id, a, ans), id);
  }

  lemma PostGoesOn(w: World, id: string, a: Actor, ans: Answer)
    requires a.pc.AtPost?
    ensures MoneyStep(w, id, a, ans) == StepPost(w, id, a, ans) && !StepPost(w, id, a, ans).1.pc.AtEnd?
  {
  }

  lemma GoesOn(next: (World, Actor), id: string)
    requires CleanSlice(SliceOf(next.0, id), Some(next.1)) && !next.1.pc.AtEnd?
    ensures CleanSlice(SliceOf(next.0, id), After(next.1))
  {
  }

  lemma CleanRisked(v: Slice, a: Actor, b: Actor)
    requires a.pc.AtRisk? && Fits(v, Some(a)) && CleanSlice(v, Some(a))
    requires b.memory == a.memory.(risk := b.memory.risk)
    requires b.pc == AtUndoBank(false, false) || (b.pc.AtSaveRisk? && b.memory == a.memory)
    ensures CleanSlice(v, Some(b))
  {
  }

  lemma CleanOtherStep(w: World, id: string, a: Actor, ans: Answer)
    requires (a.pc.AtRisk? || a.pc.AtComplete?) && Fits(SliceOf(w, id), Some(a)) && CleanSlice(SliceOf(w, id), Some(a))
    ensures var (after, b) := Advance(w, id, a, ans); CleanSlice(SliceOf(after, id), After(b))
  {
    var (after, b) := Advance(w, id, a, ans);
    assert SliceOf(after, id) == SliceOf(w, id);
    if a.pc.AtRisk? {
      CleanRisked(SliceOf(w, id), a, b);
    } else {
      CleanEnding(SliceOf(w, id), b);
    }
  }

  lemma AdvanceClean(w: World, id: string, a: Actor, ans: Answer)
    requires Sound(w) && ClientId(id) && id in w.repo.rows && Generated(w, a, ans) && SafeStep(SliceOf(w, id), a, ans)
    requires Fits(SliceOf(w, id), Some(a)) && CleanSlice(SliceOf(w, id), Some(a))
    ensures var (after, b) := Advance(w, id, a, ans); CleanSlice(SliceOf(after, id), After(b))
  {
    assert TableSound(w, ConsentTables) && TableSound(w, JournalBooks) && TableSound(w, JournalPairs)
      && TableSound(w, BankTable);
    if WritesRow(a.pc) {
      CleanRowStep(w, id, a, ans);
    } else if CallsConsent(a.pc) {
      CleanConsentStep(w, id, a, ans);
    } else if a.pc.AtPost? {
      CleanPostStep(w, id, a, ans);
    } else if CallsMoney(a.pc) {
      CleanMoneyStep(w, id, a, ans);
    } else {
      CleanOtherStep(w, id, a, ans);
    }
  }

  // ---------- every label of a clean run ----------

  ghost predicate CleanAt(s: Sys, id: string) {
    id in s.w.repo.rows ==> CleanSlice(SliceOf(s.w, id), Lookup(s.actors, id))
  }

  ghost predicate AllClean(s: Sys) {
    forall id {:trigger CleanAt(s, id)} :: ClientId(id) ==> CleanAt(s, id)
  }

  /** Only one payment changed, and it is clean. */
  lemma OwnCleanChange(s: Sys, after: Sys, id: string)
    requires AllClean(s)
    requires forall o :: ClientId(o) && o != id ==> SliceOf(after.w, o) == SliceOf(s.w, o)
    requires forall o :: o != id ==> Lookup(after.actors, o) == Lookup(s.actors, o)
    requires CleanSlice(SliceOf(after.w, id), Lookup(after.actors, id))
    ensures AllClean(after)
  {
    forall o | ClientId(o) ensures CleanAt(after, o) {
      assert CleanAt(s, o);
      if o != id && o in after.w.repo.rows {
        assert Lookup(after.actors, o) == Lookup(s.actors, o);
        assert SliceOf(s.w, o).row.Some?;
      }
    }
  }

  lemma OwnStepClean(s: Sys, id: string, ans: Answer)
    requires Inv(s) && AllClean(s) && Enabled(s, Step(id, ans)) && Safe(s, Step(id, ans))
    ensures var (w, b) := Advance(s.w, id, s.actors[id], ans); CleanSlice(SliceOf(w, id), After(b))
  {
    assert InvAt(s, id) && CleanAt(s, id);
    AdvanceClean(s.w, id, s.actors[id], ans);
  }

  lemma StepClean(s: Sys, id: string, ans: Answer)
    requires Inv(s) && AllClean(s) && Enabled(s, Step(id, ans)) && Safe(s, Step(id, ans))
    ensures var (w, b) := Advance(s.w, id, s.actors[id], ans); AllClean(Sys(w, Assign(s.actors, id, b)))
  {
    OwnStepClean(s, id, ans);
    StepElsewhere(s, id, s.actors[id], ans);
    var (w, b) := Advance(s.w, id, s.actors[id], ans);
    OwnCleanChange(s, Sys(w, Assign(s.actors, id, b)), id);
  }

  lemma CreateClean(s: Sys, id: string, p: P.Payment, write: P.Write)
    requires Inv(s) && AllClean(s) && ClientId(id) && id !in s.w.repo.rows && p.key !in s.w.repo.byKey
    requires p.status == P.Initiated && write != P.Lost
    ensures var w := s.w.(repo := P.CreatePayment(s.w.repo, id, p, write).0);
            AllClean(Sys(w, s.actors)) && AllClean(Sys(w, s.actors[id := Pending(First, AtReserve, p)]))
  {
    var w := s.w.(repo := P.CreatePayment(s.w.repo, id, p, write).0);
    assert InvAt(s, id) && TableSound(s.w, PaymentTable);
    CreateFacts(s.w, id, p, write);
    OwnCleanChange(s, Sys(w, s.actors), id);
    OwnCleanChange(s, Sys(w, s.actors[id := Pending(First, AtReserve, p)]), id);
  }

  lemma RetryOwnClean(w: World, id: string, write: P.Write)
    requires id in w.repo.rows && w.repo.rows[id].status == P.Failed && id !in w.consent.byPayment
    requires CleanSlice(SliceOf(w, id), None)
    ensures var (repo, ok) := RetryRepo(w.repo, id, write);
            && CleanSlice(SliceOf(w.(repo := repo), id), None)
            && (ok ==> CleanSlice(SliceOf(w.(repo := repo), id), Some(RetryActor(w.repo.rows[id]))))
  {
    OwnStatusWrite(w, id, P.Failed, P.Initiated, p => P.Cleared(p), write);
  }

  lemma RetryClean(s: Sys, id: string, write: P.Write, after: Sys)
    requires Inv(s) && AllClean(s) && CanRetry(s, id) && id !in s.w.consent.byPayment
    requires after.w == s.w.(repo := RetryRepo(s.w.repo, id, write).0)
    requires after.actors == s.actors
              || (RetryRepo(s.w.repo, id, write).1 && after.actors == s.actors[id := RetryActor(s.w.repo.rows[id])])
    ensures AllClean(after)
  {
    assert CleanAt(s, id) by {
      assert TableSound(s.w, PaymentTable);
    }
    RetryOwnClean(s.w, id, write);
    RetryElsewhere(s.w, id, write);
    OwnCleanChange(s, after, id);
  }

  lemma RecoverClean(w: World, id: string, bankUp: bool)
    requires id in w.repo.rows && P.InFlight(w.repo.rows[id].status)
    requires Fits(SliceOf(w, id), None) && CleanSlice(SliceOf(w, id), None)
    ensures var a := Recover(w, w.repo.rows[id], bankUp); a.Some? ==> CleanSlice(SliceOf(w, id), a)
  {
  }

  lemma ReconcileClean(s: Sys, id: string, bankUp: bool)
    requires Inv(s) && AllClean(s) && Enabled(s, Reconcile(id, bankUp))
    ensures var a := Recover(s.w, s.w.repo.rows[id], bankUp);
            a.Some? ==> AllClean(s.(actors := s.actors[id := a.value]))
  {
    var a := Recover(s.w, s.w.repo.rows[id], bankUp);
    assert TableSound(s.w, PaymentTable);
    assert InvAt(s, id) && CleanAt(s, id);
    RecoverClean(s.w, id, bankUp);
    if a.Some? {
      OwnCleanChange(s, s.(actors := s.actors[id := a.value]), id);
    }
  }

  lemma CrashClean(s: Sys, id: string)
    requires Inv(s) && AllClean(s) && id in s.actors && Clean(SliceOf(s.w, id))
    ensures AllClean(s.(actors := s.actors - {id}))
  {
    assert InvAt(s, id) && CleanAt(s, id);
    OwnCleanChange(s, s.(actors := s.actors - {id}), id);
  }

  lemma AdminClean(s: Sys, after: Sys)
    requires AllClean(s) && after == s.(w := s.w.(consent := after.w.consent))
    requires after.w.consent == s.w.consent.(consents := after.w.consent.consents)
    ensures AllClean(after)
  {
    forall o | ClientId(o) ensures CleanAt(after, o) {
      assert CleanAt(s, o);
      assert SliceOf(after.w, o) == SliceOf(s.w, o);
    }
  }

  lemma NextClean(s: Sys, event: Label)
    requires Inv(s) && AllClean(s) && Safe(s, event)
    ensures AllClean(Next(s, event))
  {
    if Enabled(s, event) {
      match event
      case Create(id, p, write) =>
        if write != P.Lost && p.key !in s.w.repo.byKey {
          CreateClean(s, id, p, write);
        }
      case Step(id, ans) => StepClean(s, id, ans);
      case Crash(id) => CrashClean(s, id);
      case Reconcile(id, bankUp) => ReconcileClean(s, id, bankUp);
      case Retry(id, write) =>
        if s.w.repo.rows[id].status == P.Failed {
          RetryClean(s, id, write, Next(s, event));
        }
      case NewConsent(id, c, now) => AdminClean(s, s.(w := s.w.(consent := C.Create(s.w.consent, id, c, now).0)));
      case RevokeConsent(id, m, _) => AdminClean(s, s.(w := s.w.(consent := C.Revoke(s.w.consent, id, m).0)));
    }
  }

  lemma {:induction false} RunClean(run: seq<Label>)
    requires CleanRun(run)
    ensures AllClean(Exec(run))
  {
    if run != [] {
      RunClean(run[..|run| - 1]);
      RunKeepsInv(run[..|run| - 1]);
      NextClean(Exec(run[..|run| - 1]), run[|run| - 1]);
    } else {
      forall id | ClientId(id) ensures CleanAt(INIT, id) {
      }
    }
  }

  // ---------- what follows ----------

  /** All or nothing: at every moment of every clean run, a SETTLED payment has been taken by the bank under
      the recorded reference, has an unreversed ledger entry that moves every account by its share, and a
      reservation that was not released; a FAILED one is not with the bank, has no net ledger effect and
      no hold. */
  lemma AllOrNothing(run: seq<Label>, id: string, a: L.Account)
    requires CleanRun(run) && id in Exec(run).w.repo.rows
    ensures var w := Exec(run).w;
            var p := w.repo.rows[id];
            && (p.status == P.Settled ==>
                  && B.TakenRefs(w.bank, id) == {p.bankRef}
                  && id in w.ledger.entries && !w.ledger.entries[id].reversed
                  && HoldStatusOf(w.consent, id) in {Some(C.Held), Some(C.Confirmed)}
                  && L.Net(w.ledger.entries, id, a) == Share(p, a))
            && (p.status == P.Failed ==>
                  && B.TakenRefs(w.bank, id) == {}
                  && HoldStatusOf(w.consent, id) in {None, Some(C.Released)}
                  && L.Net(w.ledger.entries, id, a) == 0)
  {
    RunClean(run);
    RunKeepsInv(run);
    TerminalSlice(Exec(run), id);
    assert TableSound(Exec(run).w, JournalPairs);
    NetEffect(Exec(run).w.ledger, id, a);
  }

  lemma TerminalSlice(s: Sys, id: string)
    requires Inv(s) && AllClean(s) && id in s.w.repo.rows
    ensures ClientId(id) && Matches(SliceOf(s.w, id))
    ensures s.w.repo.rows[id].status in {P.Settled, P.Failed} ==> Clean(SliceOf(s.w, id))
  {
    assert TableSound(s.w, PaymentTable);
    assert CleanAt(s, id) && InvAt(s, id);
    if s.w.repo.rows[id].status in {P.Settled, P.Failed} {
      TerminalIsClean(SliceOf(s.w, id), Lookup(s.actors, id));
    }
  }

  lemma TerminalIsClean(v: Slice, a: Option<Actor>)
    requires Fits(v, a) && CleanSlice(v, a) && v.row.value.status in {P.Settled, P.Failed}
    ensures Clean(v)
  {
  }

  lemma NetEffect(l: L.Ledger, id: string, a: L.Account)
    requires LL.Paired(l) && ClientId(id)
    ensures id !in l.entries ==> L.Net(l.entries, id, a) == 0
    ensures id in l.entries ==>
              L.Net(l.entries, id, a) == if l.entries[id].reversed then 0 else L.Effect(l.entries[id].lines, a)
  {
    RevNotClient(id);
    assert Rev(id)[..36] == id;
    if id in l.entries && l.entries[id].reversed {
      LL.PairCancels(l, id, "", a);
    }
  }

  /** Crashes at a checkpoint are all harmless: wherever the orchestrator has recorded what it did, a crash
      leaves the payment recoverable. */
  lemma CheckpointCrashIsSafe(run: seq<Label>, id: string)
    requires CleanRun(run) && id in Exec(run).actors
    requires var pc := Exec(run).actors[id].pc;
             !pc.AtSaveConsent? && !pc.AtSaveBank? && !pc.AtUndoBank? && !pc.AtRelease? && !pc.AtMark?
    ensures Safe(Exec(run), Crash(id))
  {
    var s := Exec(run);
    RunClean(run);
    RunKeepsInv(run);
    assert CleanAt(s, id) && InvAt(s, id);
  }
}
