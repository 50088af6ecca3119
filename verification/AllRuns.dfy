/** What holds in every run whatsoever -- any interleaving, crashes anywhere, torn writes, retries:
    one outbox row per settlement, usage only for settled payments, settled and manual-review rows
    for good. */
module AllRuns {
  import opened Basics
  import opened Saga
  import opened Platform
  import opened Slices
  import B = Banks
  import C = Consents
  import L = Ledgers
  import P = Payments
  import CL = ConsentLaws
  import LL = LedgerLaws

  predicate PcFits(pc: Pc, status: P.Status) {
    match pc
    case AtReserve => status == P.Initiated
    case AtSaveConsent(_, _) => status == P.Initiated
    case AtRisk => status == P.ConsentReserved
    case AtSaveRisk(_, _) => status == P.ConsentReserved
    case AtBank => status == P.RiskPassed
    case AtSaveBank(_) => status == P.RiskPassed
    case AtPost => status == P.Authorising
    case AtSettle => status == P.Authorising
    case AtUndoLedger => status == P.Authorising
    case AtUndoBank(_, _) => P.InFlight(status)
    case AtRelease(_) => P.InFlight(status)
    case AtMark(_) => P.InFlight(status)
    case AtConfirm => status == P.Settled
    case AtComplete(ok) => ok <==> status == P.Settled
    case AtEnd(_) => false
  }

  /** The columns no status write touches. */
  predicate SameTerms(p: P.Payment, q: P.Payment) {
    p.key == q.key && p.merchant == q.merchant && p.consent == q.consent && p.amount == q.amount
      && p.currency == q.currency
  }

  predicate RowFits(v: Slice) {
    && v.row.Some?
    && var p := v.row.value;
    && 1 <= p.amount <= INT64_MAX
    && Owns(v, p)
    && (p.bankRef != "" ==> p.status !in {P.Initiated, P.ConsentReserved, P.RiskPassed})
    && (p.status in {P.Authorising, P.Settled} ==> p.bankRef != "")
    && (p.status in {P.ConsentReserved, P.RiskPassed, P.Authorising, P.Settled} ==> p.reservation.Some?)
    && v.sent == (if p.status == P.Settled then 1 else 0)
    && (v.used ==> p.status == P.Settled)
    && v.hold != Some("")
    && (v.hold.Some? <==> v.holdStatus.Some?)
  }

  predicate ActorFits(v: Slice, a: Actor) {
    && v.row.Some?
    && SameTerms(a.memory, v.row.value)
    && Owns(v, a.memory)
    && PcFits(a.pc, v.row.value.status)
    && (a.pc.AtSaveConsent? ==> v.hold == Some(a.pc.reservation))
    && (a.pc.AtSaveBank? ==> a.pc.ref != "" && a.pc.ref in v.refs)
  }

  ghost predicate Fits(v: Slice, a: Option<Actor>) {
    RowFits(v) && (a.Some? ==> ActorFits(v, a.value))
  }

  /** Nothing is stored about an id no payment has. */
  predicate Blank(v: Slice) {
    && v.row.None? && v.events == [] && v.sent == 0
    && v.hold.None? && v.holdStatus.None? && !v.used
    && v.refs == {} && v.taken == {} && v.entry.None? && v.rev.None?
  }

  /** One payment is as it should be. */
  ghost predicate InvAt(s: Sys, id: string) {
    if id in s.w.repo.rows then Fits(SliceOf(s.w, id), Lookup(s.actors, id))
    else Blank(SliceOf(s.w, id)) && id !in s.actors
  }

  ghost predicate Inv(s: Sys) {
    && Sound(s.w)
    && (forall id :: id in s.actors ==> ClientId(id))
    && (forall id {:trigger InvAt(s, id)} :: ClientId(id) ==> InvAt(s, id))
  }

  function After(a: Actor): Option<Actor> {
    if a.pc.AtEnd? then None else Some(a)
  }

  // ---------- step by step: the payment worked on still fits ----------

  lemma FitsReserve(w: World, id: string, a: Actor, ans: Answer)
    requires CL.Valid(w.consent) && a.pc.AtReserve? && Fits(SliceOf(w, id), Some(a)) && Generated(w, a, ans)
    ensures var (after, b) := StepReserve(w, id, a, ans); Fits(SliceOf(after, id), After(b))
  {
    OwnReserve(w, id, a.memory.consent, a.memory.amount, a.memory.currency, ans.now, ans.newId);
  }

  lemma FitsSaveConsent(w: World, id: string, a: Actor, ans: Answer)
    requires id in w.repo.rows && a.pc.AtSaveConsent? && Fits(SliceOf(w, id), Some(a))
    ensures var (after, b) := StepSaveConsent(w, id, a, ans); Fits(SliceOf(after, id), After(b))
  {
    OwnStatusWrite(w, id, a.memory.status, P.ConsentReserved, P.AfterConsent(a.pc.reservation, a.pc.consumer),
                   ans.write);
  }

  lemma FitsSaveRisk(w: World, id: string, a: Actor, ans: Answer)
    requires id in w.repo.rows && a.pc.AtSaveRisk? && Fits(SliceOf(w, id), Some(a))
    ensures var (after, b) := StepSaveRisk(w, id, a, ans); Fits(SliceOf(after, id), After(b))
  {
    OwnStatusWrite(w, id, a.memory.status, P.RiskPassed, P.AfterRisk(a.pc.score, a.pc.decision), ans.write);
  }

  lemma FitsBank(w: World, id: string, a: Actor, ans: Answer)
    requires id != "" && a.pc.AtBank? && Fits(SliceOf(w, id), Some(a)) && Generated(w, a, ans)
    ensures var (after, b) := StepBank(w, id, a, ans); Fits(SliceOf(after, id), After(b))
  {
    match ans.bank
    case BankDown =>
    case BankRejects(ref) => RejectFrame(w, ref, id);
    case BankTakes(ref) => OwnTake(w, id, ref, BankRequest(id, a.memory, a.consentRef));
  }

  lemma FitsSaveBank(w: World, id: string, a: Actor, ans: Answer)
    requires id in w.repo.rows && a.pc.AtSaveBank? && Fits(SliceOf(w, id), Some(a))
    ensures var (after, b) := StepSaveBank(w, id, a, ans); Fits(SliceOf(after, id), After(b))
  {
    OwnStatusWrite(w, id, a.memory.status, P.Authorising, P.AfterBank(a.pc.ref), ans.write);
  }

  lemma FitsPost(w: World, id: string, a: Actor, ans: Answer)
    requires ClientId(id) && LL.Books(w.ledger) && LL.Paired(w.ledger)
    requires a.pc.AtPost? && Fits(SliceOf(w, id), Some(a))
    ensures var (after, b) := StepPost(w, id, a, ans); Fits(SliceOf(after, id), After(b))
  {
    FitsPosted(w, id, a, PostText(a.kind, id), SagaLines(a.memory));
  }

  lemma FitsPosted(w: World, id: string, a: Actor, text: string, lines: seq<L.LineInput>)
    requires ClientId(id) && LL.Books(w.ledger) && LL.Paired(w.ledger)
    requires a.pc.AtPost? && Fits(SliceOf(w, id), Some(a))
    ensures var (ledger, err) := L.Post(w.ledger, id, text, lines);
            Fits(SliceOf(w.(ledger := ledger), id),
              Some(a.(pc := if err.None? then AtSettle else AtUndoBank(false, true))))
    ensures Fits(SliceOf(w, id), Some(a.(pc := AtUndoBank(false, true))))
  {
    OwnPost(w, id, text, lines);
    var (ledger, err) := L.Post(w.ledger, id, text, lines);
    FitsEntry(SliceOf(w, id), SliceOf(w.(ledger := ledger), id), a,
              if err.None? then AtSettle else AtUndoBank(false, true));
    FitsEntry(SliceOf(w, id), SliceOf(w, id), a, AtUndoBank(false, true));
  }

  lemma FitsEntry(v: Slice, after: Slice, a: Actor, pc: Pc)
    requires Fits(v, Some(a)) && a.pc.AtPost? && (pc.AtSettle? || pc.AtUndoBank?)
    requires after == v.(entry := after.entry)
    ensures Fits(after, Some(a.(pc := pc)))
  {
  }

  lemma FitsSettled(v: Slice, a: Actor, events: seq<P.Event>)
    requires Fits(v, Some(a)) && a.pc.AtSettle?
    ensures Fits(v, Some(a.(pc := AtUndoLedger)))
    ensures Fits(v.(row := Some(v.row.value.(status := P.Settled)), sent := v.sent + 1, events := events),
                 Some(a.(pc := AtConfirm, memory := a.memory.(status := P.Settled))))
  {
  }

  lemma FitsSettle(w: World, id: string, a: Actor, ans: Answer)
    requires id in w.repo.rows && a.pc.AtSettle? && Fits(SliceOf(w, id), Some(a))
    ensures var (after, b) := StepSettle(w, id, a, ans); Fits(SliceOf(after, id), After(b))
  {
    OwnSettle(w, id, a.memory.status, ans.up);
    FitsSettled(SliceOf(w, id), a, SliceOf(StepSettle(w, id, a, ans).0, id).events);
  }

  lemma FitsConfirm(w: World, id: string, a: Actor, ans: Answer)
    requires CL.Valid(w.consent) && id != "" && a.pc.AtConfirm? && Fits(SliceOf(w, id), Some(a))
    ensures var (after, b) := StepConfirm(w, id, a, ans); Fits(SliceOf(after, id), After(b))
  {
    if a.memory.reservation.Some? {
      OwnConfirm(w, id, a.memory.reservation.value, ans.now);
    }
    var (after, b) := StepConfirm(w, id, a, ans);
    FitsUsed(SliceOf(w, id), SliceOf(after, id), a, b.pc);
  }

  lemma FitsUsed(v: Slice, after: Slice, a: Actor, pc: Pc)
    requires Fits(v, Some(a)) && a.pc.AtConfirm? && pc in {AtComplete(true), AtEnd(true)}
    requires after == v || (v.holdStatus.Some? && after == v.(holdStatus := Some(C.Confirmed), used := true))
    ensures Fits(after, After(a.(pc := pc)))
  {
  }

  lemma FitsUndoLedger(w: World, id: string, a: Actor, ans: Answer)
    requires ClientId(id) && LL.Books(w.ledger) && a.pc.AtUndoLedger? && Fits(SliceOf(w, id), Some(a))
    ensures var (after, b) := StepUndoLedger(w, id, a, ans); Fits(SliceOf(after, id), After(b))
  {
    OwnReverse(w, id, "settle failed");
  }

  lemma FitsUndoBank(w: World, id: string, a: Actor, ans: Answer)
    requires BankSound(w.bank) && id != "" && a.pc.AtUndoBank? && Fits(SliceOf(w, id), Some(a))
    ensures var (after, b) := StepUndoBank(w, a, ans); Fits(SliceOf(after, id), After(b))
  {
    if a.memory.bankRef != "" {
      OwnGiveBack(w, id, a.memory.bankRef);
    }
  }

  lemma FitsRelease(w: World, id: string, a: Actor, ans: Answer)
    requires CL.Valid(w.consent) && a.pc.AtRelease? && Fits(SliceOf(w, id), Some(a))
    ensures var (after, b) := StepRelease(w, a, ans); Fits(SliceOf(after, id), After(b))
  {
    if a.memory.reservation.Some? {
      OwnRelease(w, id, a.memory.reservation.value);
    }
  }

  lemma FitsMark(w: World, id: string, a: Actor, ans: Answer)
    requires id in w.repo.rows && a.pc.AtMark? && Fits(SliceOf(w, id), Some(a))
    ensures var (after, b) := StepMark(w, id, a, ans); Fits(SliceOf(after, id), After(b))
  {
    OwnStatusWrite(w, id, a.memory.status, if a.pc.failed then P.ManualReview else P.Failed, P.Unchanged(), ans.write);
  }

  lemma MarkEnds(w: World, id: string, a: Actor, ans: Answer)
    requires id in w.repo.rows && a.pc.AtMark? && ans.write != P.Lost
    ensures var after := StepMark(w, id, a, ans).0; id in after.repo.rows && !P.InFlight(after.repo.rows[id].status)
  {
  }

  lemma FitsRowStep(w: World, id: string, a: Actor, ans: Answer)
    requires id in w.repo.rows && WritesRow(a.pc) && Fits(SliceOf(w, id), Some(a))
    ensures var (after, b) := RowStep(w, id, a, ans); Fits(SliceOf(after, id), After(b))
  {
    match a.pc
    case AtSaveConsent(_, _) => FitsSaveConsent(w, id, a, ans);
    case AtSaveRisk(_, _) => FitsSaveRisk(w, id, a, ans);
    case AtSaveBank(_) => FitsSaveBank(w, id, a, ans);
    case AtSettle => FitsSettle(w, id, a, ans);
    case AtMark(_) => FitsMark(w, id, a, ans);
  }

  lemma FitsConsentStep(w: World, id: string, a: Actor, ans: Answer)
    requires CL.Valid(w.consent) && id != "" && CallsConsent(a.pc) && Fits(SliceOf(w, id), Some(a))
    requires Generated(w, a, ans)
    ensures var (after, b) := ConsentStep(w, id, a, ans); Fits(SliceOf(after, id), After(b))
  {
    match a.pc
    case AtReserve => FitsReserve(w, id, a, ans);
    case AtConfirm => FitsConfirm(w, id, a, ans);
    case AtRelease(_) => FitsRelease(w, id, a, ans);
  }

  lemma FitsMoneyStep(w: World, id: string, a: Actor, ans: Answer)
    requires ClientId(id) && LL.Books(w.ledger) && LL.Paired(w.ledger) && BankSound(w.bank)
    requires CallsMoney(a.pc) && Fits(SliceOf(w, id), Some(a)) && Generated(w, a, ans)
    ensures var (after, b) := MoneyStep(w, id, a, ans); Fits(SliceOf(after, id), After(b))
  {
    match a.pc
    case AtBank => FitsBank(w, id, a, ans);
    case AtPost => FitsPost(w, id, a, ans);
    case AtUndoLedger => FitsUndoLedger(w, id, a, ans);
    case AtUndoBank(_, _) => FitsUndoBank(w, id, a, ans);
  }

  lemma FitsRisked(v: Slice, a: Actor, b: Actor)
    requires a.pc.AtRisk? && Fits(v, Some(a)) && (b.pc.AtUndoBank? || b.pc.AtSaveRisk?)
    requires b.memory == a.memory.(risk := b.memory.risk)
    ensures Fits(v, Some(b))
  {
  }

  lemma FitsOtherStep(w: World, id: string, a: Actor, ans: Answer)
    requires (a.pc.AtRisk? || a.pc.AtComplete?) && Fits(SliceOf(w, id), Some(a))
    ensures var (after, b) := Advance(w, id, a, ans); Fits(SliceOf(after, id), After(b))
  {
    var (after, b) := Advance(w, id, a, ans);
    assert SliceOf(after, id) == SliceOf(w, id);
    if a.pc.AtRisk? {
      FitsRisked(SliceOf(w, id), a, b);
    }
  }

  lemma AdvanceFits(w: World, id: string, a: Actor, ans: Answer)
    requires Sound(w) && ClientId(id) && id in w.repo.rows && Fits(SliceOf(w, id), Some(a)) && Generated(w, a, ans)
    ensures var (after, b) := Advance(w, id, a, ans); Fits(SliceOf(after, id), After(b))
  {
    assert TableSound(w, ConsentTables) && TableSound(w, JournalBooks) && TableSound(w, JournalPairs)
      && TableSound(w, BankTable);
    if WritesRow(a.pc) {
      FitsRowStep(w, id, a, ans);
    } else if CallsConsent(a.pc) {
      FitsConsentStep(w, id, a, ans);
    } else if CallsMoney(a.pc) {
      FitsMoneyStep(w, id, a, ans);
    } else {
      FitsOtherStep(w, id, a, ans);
    }
  }

  // ---------- step by step: the tables stay in order ----------

  ghost predicate OnlyRows(w: World, after: World) {
    after == w.(repo := after.repo) && RepoSound(after.repo)
    && after.repo.rows.Keys == w.repo.rows.Keys && after.repo.byKey == w.repo.byKey
  }

  lemma StatusWriteSound(w: World, id: string, from: P.Status, to: P.Status, change: P.Payment -> P.Payment,
                         write: P.Write)
    requires RepoSound(w.repo) && forall p :: change(p).key == p.key
    ensures OnlyRows(w, w.(repo := P.StatusWrite(w.repo, id, from, to, change, write).0))
  {
  }

  lemma SettleSound(w: World, id: string, from: P.Status, up: bool)
    requires RepoSound(w.repo)
    ensures OnlyRows(w, w.(repo := P.Settle(w.repo, id, from, up).0))
  {
  }

  lemma RowStepSound(w: World, id: string, a: Actor, ans: Answer)
    requires RepoSound(w.repo) && WritesRow(a.pc)
    ensures OnlyRows(w, RowStep(w, id, a, ans).0)
  {
    var p := a.memory;
    match a.pc
    case AtSaveConsent(r, c) => StatusWriteSound(w, id, p.status, P.ConsentReserved, P.AfterConsent(r, c), ans.write);
    case AtSaveRisk(score, d) => StatusWriteSound(w, id, p.status, P.RiskPassed, P.AfterRisk(score, d), ans.write);
    case AtSaveBank(ref) => StatusWriteSound(w, id, p.status, P.Authorising, P.AfterBank(ref), ans.write);
    case AtSettle => SettleSound(w, id, p.status, ans.up);
    case AtMark(failed) =>
      StatusWriteSound(w, id, p.status, if failed then P.ManualReview else P.Failed, P.Unchanged(), ans.write);
  }

  lemma ReserveSound(w: World, id: string, a: Actor, ans: Answer)
    requires ConsentSound(w.consent) && ClientId(id)
    ensures var after := StepReserve(w, id, a, ans).0;
            after == w.(consent := after.consent) && ConsentSound(after.consent)
  {
    var p := a.memory;
    CL.ReserveKeepsValid(w.consent, p.consent, id, p.amount, p.currency, ans.now, ans.newId);
    CL.ReserveAddsHold(w.consent, CL.At(ans.now, CL.ReserveOp(p.consent, id, p.amount, p.currency, ans.newId)));
  }

  lemma ConfirmSound(w: World, id: string, a: Actor, ans: Answer)
    requires ConsentSound(w.consent)
    ensures var after := StepConfirm(w, id, a, ans).0;
            after == w.(consent := after.consent) && ConsentSound(after.consent)
  {
    if a.memory.reservation.Some? {
      CL.ConfirmKeepsValid(w.consent, a.memory.reservation.value, id, ans.now);
    }
  }

  lemma ReleaseSound(w: World, a: Actor, ans: Answer)
    requires ConsentSound(w.consent) && a.pc.AtRelease?
    ensures var after := StepRelease(w, a, ans).0;
            after == w.(consent := after.consent) && ConsentSound(after.consent)
  {
    if a.memory.reservation.Some? {
      CL.ReleaseKeepsValid(w.consent, a.memory.reservation.value);
    }
  }

  lemma PostSound(l: L.Ledger, id: string, text: string, lines: seq<L.LineInput>)
    requires LL.Books(l) && LL.Paired(l) && ClientId(id)
    ensures LL.Books(L.Post(l, id, text, lines).0) && LL.Paired(L.Post(l, id, text, lines).0)
  {
    LL.PostKeepsBooks(l, id, text, lines);
    LL.PostKeepsPaired(l, id, text, lines);
  }

  lemma StepPostSound(w: World, id: string, a: Actor, ans: Answer)
    requires LL.Books(w.ledger) && LL.Paired(w.ledger) && ClientId(id)
    ensures var after := StepPost(w, id, a, ans).0;
            after == w.(ledger := after.ledger) && LL.Books(after.ledger) && LL.Paired(after.ledger)
  {
    PostSound(w.ledger, id, PostText(a.kind, id), SagaLines(a.memory));
  }

  lemma UndoLedgerSound(w: World, id: string, a: Actor, ans: Answer)
    requires LL.Books(w.ledger) && LL.Paired(w.ledger) && ClientId(id)
    ensures var after := StepUndoLedger(w, id, a, ans).0;
            after == w.(ledger := after.ledger) && LL.Books(after.ledger) && LL.Paired(after.ledger)
  {
    LL.ReverseKeepsBooks(w.ledger, id, "settle failed");
    LL.ReverseKeepsPaired(w.ledger, id, "settle failed");
  }

  lemma BankStepSound(w: World, id: string, a: Actor, ans: Answer)
    requires BankSound(w.bank) && (a.pc.AtBank? || a.pc.AtUndoBank?)
    ensures var after := MoneyStep(w, id, a, ans).0;
            after == w.(bank := after.bank) && BankSound(after.bank)
  {
  }

  lemma AdvanceSound(w: World, id: string, a: Actor, ans: Answer)
    requires Sound(w) && ClientId(id)
    ensures Sound(Advance(w, id, a, ans).0)
  {
    var after := Advance(w, id, a, ans).0;
    assert TableSound(w, ConsentTables) && TableSound(w, JournalBooks) && TableSound(w, JournalPairs)
        && TableSound(w, BankTable) && TableSound(w, PaymentTable);
    if WritesRow(a.pc) {
      RowStepSound(w, id, a, ans);
      SoundAgain(w, after);
    } else if CallsConsent(a.pc) {
      ConsentStepSound(w, id, a, ans);
      SoundAgain(w, after);
    } else if a.pc.AtPost? || a.pc.AtUndoLedger? {
      LedgerStepSound(w, id, a, ans);
      SoundAgain(w, after);
    } else if a.pc.AtBank? || a.pc.AtUndoBank? {
      BankStepSound(w, id, a, ans);
      SoundAgain(w, after);
    } else {
      OtherStepSound(w, id, a, ans);
      SoundAgain(w, after);
    }
  }

  lemma ConsentStepSound(w: World, id: string, a: Actor, ans: Answer)
    requires ConsentSound(w.consent) && ClientId(id) && CallsConsent(a.pc)
    ensures var after := ConsentStep(w, id, a, ans).0;
            after == w.(consent := after.consent) && ConsentSound(after.consent)
  {
    match a.pc
    case AtReserve => ReserveSound(w, id, a, ans);
    case AtConfirm => ConfirmSound(w, id, a, ans);
    case AtRelease(_) => ReleaseSound(w, a, ans);
  }

  lemma LedgerStepSound(w: World, id: string, a: Actor, ans: Answer)
    requires LL.Books(w.ledger) && LL.Paired(w.ledger) && ClientId(id) && (a.pc.AtPost? || a.pc.AtUndoLedger?)
    ensures var after := MoneyStep(w, id, a, ans).0;
            after == w.(ledger := after.ledger) && LL.Books(after.ledger) && LL.Paired(after.ledger)
  {
    match a.pc
    case AtPost => StepPostSound(w, id, a, ans);
    case AtUndoLedger => UndoLedgerSound(w, id, a, ans);
  }

  lemma OtherStepSound(w: World, id: string, a: Actor, ans: Answer)
    requires a.pc.AtRisk? || a.pc.AtComplete? || a.pc.AtEnd?
    ensures var after := Advance(w, id, a, ans).0; after == w.(idem := after.idem)
  {
  }

  /** A step neither adds nor removes a row. */
  lemma AdvanceKeepsKeys(w: World, id: string, a: Actor, ans: Answer)
    requires RepoSound(w.repo)
    ensures Advance(w, id, a, ans).0.repo.rows.Keys == w.repo.rows.Keys
  {
    if WritesRow(a.pc) {
      RowStepSound(w, id, a, ans);
    }
  }

  // ---------- every label ----------

  /** Only one payment changed, and it fits: the invariant is kept. */
  lemma OwnChange(s: Sys, after: Sys, id: string)
    requires Inv(s) && Sound(after.w) && ClientId(id)
    requires after.w.repo.rows.Keys == s.w.repo.rows.Keys + {id}
    requires forall o :: o != id ==> Lookup(after.actors, o) == Lookup(s.actors, o)
    requires forall o :: ClientId(o) && o != id ==> SliceOf(after.w, o) == SliceOf(s.w, o)
    requires Fits(SliceOf(after.w, id), Lookup(after.actors, id))
    ensures Inv(after)
  {
    forall o | ClientId(o) ensures InvAt(after, o) {
      assert InvAt(s, o);
      assert o != id ==> Lookup(after.actors, o) == Lookup(s.actors, o);
    }
    forall o | o in after.actors ensures ClientId(o) {
      assert o != id ==> Lookup(after.actors, o) == Lookup(s.actors, o);
    }
  }

  lemma StepElsewhere(s: Sys, id: string, a: Actor, ans: Answer)
    requires Inv(s) && id in s.actors && s.actors[id] == a && Generated(s.w, a, ans)
    ensures forall o :: ClientId(o) && o != id ==> SliceOf(Advance(s.w, id, a, ans).0, o) == SliceOf(s.w, o)
  {
    assert ClientId(id) && InvAt(s, id) && TableSound(s.w, ConsentTables);
    forall o | ClientId(o) && o != id ensures SliceOf(Advance(s.w, id, a, ans).0, o) == SliceOf(s.w, o) {
      AdvanceFrame(s.w, id, a, ans, o);
    }
  }

  lemma StepKeepsInv(s: Sys, id: string, a: Actor, ans: Answer)
    requires Inv(s) && id in s.actors && s.actors[id] == a && Generated(s.w, a, ans)
    ensures var (w, b) := Advance(s.w, id, a, ans); Inv(Sys(w, Assign(s.actors, id, b)))
  {
    var (w, b) := Advance(s.w, id, a, ans);
    assert ClientId(id) && InvAt(s, id) && TableSound(s.w, PaymentTable);
    AdvanceSound(s.w, id, a, ans);
    AdvanceKeepsKeys(s.w, id, a, ans);
    AdvanceFits(s.w, id, a, ans);
    StepElsewhere(s, id, a, ans);
    OwnChange(s, Sys(w, Assign(s.actors, id, b)), id);
  }

  lemma CreateSound(w: World, id: string, p: P.Payment, write: P.Write)
    requires RepoSound(w.repo) && ClientId(id) && id !in w.repo.rows && p.key !in w.repo.byKey && write != P.Lost
    ensures var repo := P.CreatePayment(w.repo, id, p, write).0;
            RepoSound(repo) && repo.rows.Keys == w.repo.rows.Keys + {id}
  {
    DistinctAppend(w.repo.order, id);
  }

  lemma CreateFacts(w: World, id: string, p: P.Payment, write: P.Write)
    requires RepoSound(w.repo) && ClientId(id) && id !in w.repo.rows && p.key !in w.repo.byKey && write != P.Lost
    ensures var repo := P.CreatePayment(w.repo, id, p, write).0;
            && RepoSound(repo) && repo.rows.Keys == w.repo.rows.Keys + {id}
            && SliceOf(w.(repo := repo), id).row == Some(p)
            && SliceOf(w.(repo := repo), id) ==
                 SliceOf(w, id).(row := Some(p), events := SliceOf(w.(repo := repo), id).events)
            && forall o :: o != id ==> SliceOf(w.(repo := repo), o) == SliceOf(w, o)
  {
    CreateSound(w, id, p, write);
    CreatedSlices(w, w.(repo := P.CreatePayment(w.repo, id, p, write).0), id, p);
  }

  lemma CreatedSlices(w: World, after: World, id: string, p: P.Payment)
    requires after == w.(repo := after.repo) && after.repo.rows == w.repo.rows[id := p]
    requires after.repo.outbox == w.repo.outbox
    requires forall o :: o != id ==> P.EventsOf(after.repo, o) == P.EventsOf(w.repo, o)
    ensures SliceOf(after, id) == SliceOf(w, id).(row := Some(p), events := SliceOf(after, id).events)
    ensures forall o :: o != id ==> SliceOf(after, o) == SliceOf(w, o)
  {
  }

  lemma CreateKeepsInv(s: Sys, id: string, p: P.Payment, write: P.Write)
    requires Inv(s) && ClientId(id) && id !in s.w.repo.rows && p.key !in s.w.repo.byKey && Acceptable(p)
    requires write != P.Lost
    ensures var repo := P.CreatePayment(s.w.repo, id, p, write).0;
            && Inv(Sys(s.w.(repo := repo), s.actors))
            && Inv(Sys(s.w.(repo := repo), s.actors[id := Pending(First, AtReserve, p)]))
  {
    var repo := P.CreatePayment(s.w.repo, id, p, write).0;
    assert InvAt(s, id);
    assert TableSound(s.w, PaymentTable);
    CreateFacts(s.w, id, p, write);
    SoundAgain(s.w, s.w.(repo := repo));
    OwnChange(s, Sys(s.w.(repo := repo), s.actors), id);
    OwnChange(s, Sys(s.w.(repo := repo), s.actors[id := Pending(First, AtReserve, p)]), id);
  }

  /** Nobody works on the payment and its row is FAILED: the reset goes through. */
  predicate CanRetry(s: Sys, id: string) {
    id !in s.actors && id in s.w.repo.rows && s.w.repo.rows[id].status == P.Failed
  }

  function RetryRepo(r: P.Repo, id: string, write: P.Write): (P.Repo, bool) {
    P.StatusWrite(r, id, P.Failed, P.Initiated, p => P.Cleared(p), write)
  }

  function RetryActor(p: P.Payment): Actor {
    Pending(Retried, AtReserve, P.Cleared(p).(status := P.Initiated))
  }

  lemma RetryFits(w: World, id: string, write: P.Write)
    requires id in w.repo.rows && w.repo.rows[id].status == P.Failed && Fits(SliceOf(w, id), None)
    ensures var (repo, ok) := RetryRepo(w.repo, id, write);
            && Fits(SliceOf(w.(repo := repo), id), None)
            && (ok ==> Fits(SliceOf(w.(repo := repo), id), Some(RetryActor(w.repo.rows[id]))))
  {
    OwnStatusWrite(w, id, P.Failed, P.Initiated, p => P.Cleared(p), write);
  }

  lemma RetryElsewhere(w: World, id: string, write: P.Write)
    requires Sound(w)
    ensures var repo := RetryRepo(w.repo, id, write).0;
            && Sound(w.(repo := repo)) && repo.rows.Keys == w.repo.rows.Keys
            && forall o :: o != id ==> SliceOf(w.(repo := repo), o) == SliceOf(w, o)
  {
    var repo := RetryRepo(w.repo, id, write).0;
    assert TableSound(w, PaymentTable);
    StatusWriteSound(w, id, P.Failed, P.Initiated, p => P.Cleared(p), write);
    SoundAgain(w, w.(repo := repo));
    forall o | o != id ensures SliceOf(w.(repo := repo), o) == SliceOf(w, o) {
      StatusWriteFrame(w, id, P.Failed, P.Initiated, p => P.Cleared(p), write, o);
    }
  }

  lemma RetryKeepsInv(s: Sys, id: string, write: P.Write)
    requires Inv(s) && CanRetry(s, id)
    ensures var (repo, ok) := RetryRepo(s.w.repo, id, write);
            && Inv(Sys(s.w.(repo := repo), s.actors))
            && (ok ==> Inv(Sys(s.w.(repo := repo), s.actors[id := RetryActor(s.w.repo.rows[id])])))
  {
    var (repo, ok) := RetryRepo(s.w.repo, id, write);
    assert TableSound(s.w, PaymentTable);
    assert InvAt(s, id);
    RetryFits(s.w, id, write);
    RetryElsewhere(s.w, id, write);
    OwnChange(s, Sys(s.w.(repo := repo), s.actors), id);
    if ok {
      OwnChange(s, Sys(s.w.(repo := repo), s.actors[id := RetryActor(s.w.repo.rows[id])]), id);
    }
  }

  lemma RecoverFits(w: World, id: string, bankUp: bool)
    requires id in w.repo.rows && P.InFlight(w.repo.rows[id].status) && Fits(SliceOf(w, id), None)
    ensures Recover(w, w.repo.rows[id], bankUp).Some? ==> Fits(SliceOf(w, id), Recover(w, w.repo.rows[id], bankUp))
  {
  }

  lemma ReconcileKeepsInv(s: Sys, id: string, bankUp: bool)
    requires Inv(s) && id !in s.actors && id in s.w.repo.rows && P.InFlight(s.w.repo.rows[id].status)
    ensures var a := Recover(s.w, s.w.repo.rows[id], bankUp);
            a.Some? ==> Inv(s.(actors := s.actors[id := a.value]))
  {
    var a := Recover(s.w, s.w.repo.rows[id], bankUp);
    assert TableSound(s.w, PaymentTable);
    assert InvAt(s, id);
    RecoverFits(s.w, id, bankUp);
    if a.Some? {
      OwnChange(s, s.(actors := s.actors[id := a.value]), id);
    }
  }

  lemma CrashKeepsInv(s: Sys, id: string)
    requires Inv(s) && id in s.actors
    ensures Inv(s.(actors := s.actors - {id}))
  {
    assert TableSound(s.w, PaymentTable) && InvAt(s, id);
    OwnChange(s, s.(actors := s.actors - {id}), id);
  }

  lemma AdminKeepsInv(s: Sys, after: Sys)
    requires Inv(s) && after == s.(w := s.w.(consent := after.w.consent))
    requires after.w.consent == s.w.consent.(consents := after.w.consent.consents)
    requires forall c :: c in s.w.consent.consents ==> c in after.w.consent.consents
    ensures Inv(after)
  {
    assert TableSound(s.w, ConsentTables);
    CL.AdminKeepsValid(s.w.consent, after.w.consent);
    SoundAgain(s.w, after.w);
    forall o | ClientId(o) ensures InvAt(after, o) {
      assert InvAt(s, o);
      assert SliceOf(after.w, o) == SliceOf(s.w, o);
    }
  }

  lemma NextKeepsInv(s: Sys, event: Label)
    requires Inv(s)
    ensures Inv(Next(s, event))
  {
    if Enabled(s, event) {
      match event
      case Create(id, p, write) =>
        if write != P.Lost && p.key !in s.w.repo.byKey {
          CreateKeepsInv(s, id, p, write);
        }
      case Step(id, ans) => StepKeepsInv(s, id, s.actors[id], ans);
      case Crash(id) => CrashKeepsInv(s, id);
      case Reconcile(id, bankUp) => ReconcileKeepsInv(s, id, bankUp);
      case Retry(id, write) =>
        if s.w.repo.rows[id].status == P.Failed {
          RetryKeepsInv(s, id, write);
        }
      case NewConsent(id, c, now) =>
        CL.CreateIsAdmin(s.w.consent, id, c, now);
        AdminKeepsInv(s, s.(w := s.w.(consent := C.Create(s.w.consent, id, c, now).0)));
      case RevokeConsent(id, merchant, _) =>
        CL.RevokeIsAdmin(s.w.consent, id, merchant);
        AdminKeepsInv(s, s.(w := s.w.(consent := C.Revoke(s.w.consent, id, merchant).0)));
    }
  }

  lemma InitInv()
    ensures Inv(INIT)
  {
    forall id | ClientId(id) ensures InvAt(INIT, id) {
      assert RefsOf(map[], id) == {} && B.TakenRefs(map[], id) == {};
    }
    forall t ensures TableSound(Saga.EMPTY, t) {
      assert forall p :: CL.UsageMatches(C.EMPTY, p);
    }
  }

  lemma {:induction false} RunKeepsInv(run: seq<Label>)
    ensures Inv(Exec(run))
  {
    if run == [] {
      InitInv();
    } else {
      RunKeepsInv(run[..|run| - 1]);
      NextKeepsInv(Exec(run[..|run| - 1]), run[|run| - 1]);
    }
  }

  // ---------- what follows for every run ----------

  /** At most one payment is ever stored under an idempotency key, whatever is created, retried or torn. */
  lemma OneRowPerKey(run: seq<Label>, id: string, other: string)
    requires id in Exec(run).w.repo.rows && other in Exec(run).w.repo.rows
    requires Exec(run).w.repo.rows[id].key == Exec(run).w.repo.rows[other].key
    ensures id == other
  {
    RunKeepsInv(run);
    assert TableSound(Exec(run).w, PaymentTable);
  }

  /** A payment's settlement event is in the outbox insertions exactly once if the payment is SETTLED, and
      never otherwise, whatever crashed, tore or was retried. */
  lemma OneEventPerSettlement(run: seq<Label>, id: string)
    requires ClientId(id)
    ensures var r := Exec(run).w.repo;
            Count(r.outbox, id) == (if id in r.rows && r.rows[id].status == P.Settled then 1 else 0)
  {
    RunKeepsInv(run);
    assert InvAt(Exec(run), id);
  }

  /** Every usage row belongs to a SETTLED payment, whose reservation is the confirmed one. */
  lemma UsageOnlyIfSettled(run: seq<Label>, id: string)
    requires id in Exec(run).w.consent.usage
    ensures var w := Exec(run).w;
            && id in w.repo.rows && w.repo.rows[id].status == P.Settled
            && HoldStatusOf(w.consent, id) == Some(C.Confirmed)
  {
    RunKeepsInv(run);
    assert TableSound(Exec(run).w, ConsentTables);
    assert CL.UsageMatches(Exec(run).w.consent, id);
    assert InvAt(Exec(run), id);
  }
}
