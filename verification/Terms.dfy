/** The terms of a payment reach every store unchanged: over every run, the hold and the usage carry the payment's
    amount and consent, the bank is asked for that amount on behalf of the consent's consumer, and only payments
    the risk check did not decline go to the bank. */
module Terms {
  import opened Basics
  import opened Saga
  import opened Platform
  import opened Slices
  import opened AllRuns
  import B = Banks
  import C = Consents
  import P = Payments
  import CL = ConsentLaws

  // ---------- what should be stored ----------

  predicate Known(w: World, p: P.Payment) {
    p.consent in w.consent.consents
  }

  function ConsentOf(w: World, p: P.Payment): C.Consent
    requires Known(w, p)
  {
    w.consent.consents[p.consent]
  }

  /** What the bank should be asked for. */
  function Charge(w: World, id: string, p: P.Payment): B.Request
    requires Known(w, p)
  {
    var c := ConsentOf(w, p);
    B.Request(id, c.bankConsentRef, c.consumer, p.amount, if p.currency == "" then "GBP" else p.currency)
  }

  predicate RecordMatches(w: World, ref: string)
    requires ref in w.bank
  {
    var id := w.bank[ref].request.paymentId;
    id in w.repo.rows && Known(w, w.repo.rows[id]) && w.bank[ref].request == Charge(w, id, w.repo.rows[id])
  }

  /** Every record of the bank that belongs to a payment is for that payment's charge. */
  ghost predicate RecordsMatch(w: World) {
    forall ref :: ref in w.bank && w.bank[ref].request.paymentId != "" ==> RecordMatches(w, ref)
  }

  predicate HoldMatches(w: World, id: string)
    requires id in w.consent.byPayment
  {
    var r := w.consent.byPayment[id];
    && id in w.repo.rows && r in w.consent.reservations
    && w.consent.reservations[r].consentId == w.repo.rows[id].consent
    && w.consent.reservations[r].amount == w.repo.rows[id].amount
  }

  ghost predicate HoldsMatch(w: World) {
    forall id :: id in w.consent.byPayment ==> HoldMatches(w, id)
  }

  predicate Screened(p: P.Payment) {
    p.risk.Some? && p.risk.value.1 != "DECLINE"
  }

  /** From the reservation on a row names the consumer of its consent, from the risk check on it has passed that. */
  predicate RowNamed(w: World, p: P.Payment) {
    && (p.status in {P.ConsentReserved, P.RiskPassed, P.Authorising, P.Settled} ==>
          Known(w, p) && p.consumer == ConsentOf(w, p).consumer)
    && (p.status in {P.RiskPassed, P.Authorising, P.Settled} ==> Screened(p))
  }

  ghost predicate RowsNamed(w: World) {
    forall id :: id in w.repo.rows ==> RowNamed(w, w.repo.rows[id])
  }

  predicate ActorNamed(w: World, a: Actor) {
    match a.pc
    case AtSaveConsent(_, consumer) =>
      && Known(w, a.memory) && consumer == ConsentOf(w, a.memory).consumer
      && a.consentRef == ConsentOf(w, a.memory).bankConsentRef
    case AtRisk => Ready(w, a)
    case AtSaveRisk(_, decision) => Ready(w, a) && decision != "DECLINE"
    case AtBank => Ready(w, a)
    case _ => true
  }

  predicate Ready(w: World, a: Actor) {
    && Known(w, a.memory) && a.memory.consumer == ConsentOf(w, a.memory).consumer
    && a.consentRef == ConsentOf(w, a.memory).bankConsentRef
  }

  ghost predicate ActorsNamed(w: World, actors: map<string, Actor>) {
    forall id :: id in actors ==> ActorNamed(w, actors[id])
  }

  datatype Part = Records | Holds | Rows | Actors

  ghost predicate PartMatches(s: Sys, part: Part) {
    match part
    case Records => RecordsMatch(s.w)
    case Holds => HoldsMatch(s.w)
    case Rows => RowsNamed(s.w)
    case Actors => ActorsNamed(s.w, s.actors)
  }

  ghost predicate TermsKept(s: Sys) {
    forall part :: PartMatches(s, part)
  }

  // ---------- what a change of the stores must respect ----------

  /** Rows keep their terms, and consents what they grant to whom. */
  ghost predicate SameDeals(w: World, after: World) {
    && (forall id :: id in w.repo.rows ==> id in after.repo.rows && SameTerms(w.repo.rows[id], after.repo.rows[id]))
    && SameConsents(w.consent, after.consent)
  }

  ghost predicate SameConsents(c: C.State, after: C.State) {
    forall k :: k in c.consents ==>
      && k in after.consents && after.consents[k].consumer == c.consents[k].consumer
      && after.consents[k].bankConsentRef == c.consents[k].bankConsentRef
  }

  lemma RecordsStay(w: World, after: World)
    requires RecordsMatch(w) && SameDeals(w, after) && after.bank == w.bank
    ensures RecordsMatch(after)
  {
    forall ref | ref in after.bank && after.bank[ref].request.paymentId != "" ensures RecordMatches(after, ref) {
      assert RecordMatches(w, ref);
    }
  }

  lemma HoldsStay(w: World, after: World)
    requires HoldsMatch(w) && SameDeals(w, after)
    requires after.consent.byPayment == w.consent.byPayment && after.consent.reservations == w.consent.reservations
    ensures HoldsMatch(after)
  {
    forall id | id in after.consent.byPayment ensures HoldMatches(after, id) {
      assert HoldMatches(w, id);
    }
  }

  lemma ActorsStay(w: World, after: World, actors: map<string, Actor>)
    requires ActorsNamed(w, actors) && SameConsents(w.consent, after.consent)
    ensures ActorsNamed(after, actors)
  {
    forall id | id in actors ensures ActorNamed(after, actors[id]) {
      assert ActorNamed(w, actors[id]);
    }
  }

  lemma RowsStay(w: World, after: World, id: string)
    requires RowsNamed(w) && SameConsents(w.consent, after.consent)
    requires forall o :: o in after.repo.rows && o != id ==> o in w.repo.rows && after.repo.rows[o] == w.repo.rows[o]
    requires id in after.repo.rows ==> RowNamed(after, after.repo.rows[id])
    ensures RowsNamed(after)
  {
    forall o | o in after.repo.rows ensures RowNamed(after, after.repo.rows[o]) {
      if o != id {
        assert RowNamed(w, w.repo.rows[o]);
      }
    }
  }

  // ---------- steps that write the row ----------

  lemma WriteKeepsTerms(w: World, id: string, from: P.Status, to: P.Status, change: P.Payment -> P.Payment,
                        write: P.Write)
    requires forall p :: SameTerms(p, change(p))
    ensures var after := w.(repo := P.StatusWrite(w.repo, id, from, to, change, write).0);
            && SameDeals(w, after)
            && forall o :: o in after.repo.rows && o != id ==> o in w.repo.rows && after.repo.rows[o] == w.repo.rows[o]
  {
  }

  lemma RowStepTerms(w: World, id: string, a: Actor, ans: Answer)
    requires WritesRow(a.pc)
    ensures var after := RowStep(w, id, a, ans).0;
            && SameDeals(w, after) && after.bank == w.bank && after.consent == w.consent
            && forall o :: o in after.repo.rows && o != id ==> o in w.repo.rows && after.repo.rows[o] == w.repo.rows[o]
  {
    var p := a.memory;
    match a.pc
    case AtSaveConsent(r, c) => WriteKeepsTerms(w, id, p.status, P.ConsentReserved, P.AfterConsent(r, c), ans.write);
    case AtSaveRisk(score, d) => WriteKeepsTerms(w, id, p.status, P.RiskPassed, P.AfterRisk(score, d), ans.write);
    case AtSaveBank(ref) => WriteKeepsTerms(w, id, p.status, P.Authorising, P.AfterBank(ref), ans.write);
    case AtSettle =>
    case AtMark(failed) =>
      WriteKeepsTerms(w, id, p.status, if failed then P.ManualReview else P.Failed, P.Unchanged(), ans.write);
  }

  /** The row a step writes, and the actor that goes on. */
  lemma RowStepNames(w: World, id: string, a: Actor, ans: Answer)
    requires id in w.repo.rows && WritesRow(a.pc) && PcFits(a.pc, w.repo.rows[id].status)
    requires SameTerms(a.memory, w.repo.rows[id]) && ActorNamed(w, a) && RowNamed(w, w.repo.rows[id])
    ensures var (after, b) := RowStep(w, id, a, ans);
            id in after.repo.rows && RowNamed(after, after.repo.rows[id]) && ActorNamed(after, b)
  {
    match a.pc
    case AtSaveConsent(_, _) => SaveConsentNames(w, id, a, ans);
    case AtSaveRisk(_, _) => SaveRiskNames(w, id, a, ans);
    case AtSaveBank(_) => SaveBankNames(w, id, a, ans);
    case AtSettle =>
    case AtMark(_) =>
  }

  lemma WrittenRow(w: World, id: string, from: P.Status, to: P.Status, change: P.Payment -> P.Payment, write: P.Write)
    requires id in w.repo.rows
    ensures var (repo, ok) := P.StatusWrite(w.repo, id, from, to, change, write);
            && id in repo.rows
            && (repo.rows[id] == w.repo.rows[id] || repo.rows[id] == change(w.repo.rows[id]).(status := to))
  {
  }

  lemma SaveConsentNames(w: World, id: string, a: Actor, ans: Answer)
    requires id in w.repo.rows && a.pc.AtSaveConsent? && PcFits(a.pc, w.repo.rows[id].status)
    requires SameTerms(a.memory, w.repo.rows[id]) && ActorNamed(w, a) && RowNamed(w, w.repo.rows[id])
    ensures var (after, b) := StepSaveConsent(w, id, a, ans);
            id in after.repo.rows && RowNamed(after, after.repo.rows[id]) && ActorNamed(after, b)
  {
    WrittenRow(w, id, a.memory.status, P.ConsentReserved, P.AfterConsent(a.pc.reservation, a.pc.consumer), ans.write);
  }

  lemma SaveRiskNames(w: World, id: string, a: Actor, ans: Answer)
    requires id in w.repo.rows && a.pc.AtSaveRisk? && PcFits(a.pc, w.repo.rows[id].status)
    requires SameTerms(a.memory, w.repo.rows[id]) && ActorNamed(w, a) && RowNamed(w, w.repo.rows[id])
    ensures var (after, b) := StepSaveRisk(w, id, a, ans);
            id in after.repo.rows && RowNamed(after, after.repo.rows[id]) && ActorNamed(after, b)
  {
    WrittenRow(w, id, a.memory.status, P.RiskPassed, P.AfterRisk(a.pc.score, a.pc.decision), ans.write);
  }

  lemma SaveBankNames(w: World, id: string, a: Actor, ans: Answer)
    requires id in w.repo.rows && a.pc.AtSaveBank? && PcFits(a.pc, w.repo.rows[id].status)
    requires RowNamed(w, w.repo.rows[id])
    ensures var (after, b) := StepSaveBank(w, id, a, ans);
            id in after.repo.rows && RowNamed(after, after.repo.rows[id]) && ActorNamed(after, b)
  {
    WrittenRow(w, id, a.memory.status, P.Authorising, P.AfterBank(a.pc.ref), ans.write);
  }

  // ---------- steps that call consent ----------

  lemma ReserveTerms(w: World, id: string, a: Actor, ans: Answer)
    requires CL.Valid(w.consent) && HoldsMatch(w) && id in w.repo.rows && SameTerms(a.memory, w.repo.rows[id])
    ensures var (after, b) := StepReserve(w, id, a, ans);
            && after == w.(consent := after.consent) && after.consent.consents == w.consent.consents
            && HoldsMatch(after) && ActorNamed(after, b)
  {
    var p := a.memory;
    CL.ReserveAddsHold(w.consent, CL.At(ans.now, CL.ReserveOp(p.consent, id, p.amount, p.currency, ans.newId)));
    var (after, b) := StepReserve(w, id, a, ans);
    ReservedFor(w, id, p, ans.now, ans.newId);
    forall o | o in after.consent.byPayment ensures HoldMatches(after, o) {
      assert o in w.consent.byPayment ==> HoldMatches(w, o);
    }
  }

  /** Consent answers with the consumer and the reference of the payment's own consent, for a new hold or an old one. */
  lemma ReservedFor(w: World, id: string, p: P.Payment, now: int, newId: string)
    requires CL.Valid(w.consent) && HoldsMatch(w) && id in w.repo.rows && SameTerms(p, w.repo.rows[id])
    ensures var r := C.Reserve(w.consent, p.consent, id, p.amount, p.currency, now, newId).1;
            r.Ok? ==>
              && Known(w, p) && r.value.consumer == ConsentOf(w, p).consumer
              && r.value.bankConsentRef == ConsentOf(w, p).bankConsentRef
  {
    assert id in w.consent.byPayment ==> HoldMatches(w, id);
  }

  /** The same reservations for the same payments, whatever became of their status. */
  ghost predicate SameHolds(c: C.State, after: C.State) {
    && after.consents == c.consents && after.byPayment == c.byPayment
    && forall r :: r in c.reservations ==>
         && r in after.reservations && after.reservations[r].consentId == c.reservations[r].consentId
         && after.reservations[r].amount == c.reservations[r].amount
  }

  lemma HoldsAlike(w: World, after: World)
    requires HoldsMatch(w) && after.repo == w.repo && SameHolds(w.consent, after.consent)
    ensures HoldsMatch(after)
  {
    forall o | o in after.consent.byPayment ensures HoldMatches(after, o) {
      assert HoldMatches(w, o);
    }
  }

  lemma ConfirmKeepsHolds(c: C.State, r: string, id: string, now: int)
    ensures SameHolds(c, C.Confirm(c, r, id, now).0)
  {
  }

  lemma ReleaseKeepsHolds(c: C.State, r: string)
    ensures SameHolds(c, C.Release(c, r).0)
  {
  }

  lemma ConfirmTerms(w: World, id: string, a: Actor, ans: Answer)
    requires HoldsMatch(w)
    ensures var (after, b) := StepConfirm(w, id, a, ans);
            && after == w.(consent := after.consent) && after.consent.consents == w.consent.consents
            && HoldsMatch(after) && ActorNamed(after, b)
  {
    if a.memory.reservation.Some? {
      ConfirmKeepsHolds(w.consent, a.memory.reservation.value, id, ans.now);
    }
    HoldsAlike(w, StepConfirm(w, id, a, ans).0);
  }

  lemma ReleaseTerms(w: World, a: Actor, ans: Answer)
    requires HoldsMatch(w) && a.pc.AtRelease?
    ensures var (after, b) := StepRelease(w, a, ans);
            && after == w.(consent := after.consent) && after.consent.consents == w.consent.consents
            && HoldsMatch(after) && ActorNamed(after, b)
  {
    if a.memory.reservation.Some? {
      ReleaseKeepsHolds(w.consent, a.memory.reservation.value);
    }
    HoldsAlike(w, StepRelease(w, a, ans).0);
  }

  lemma ConsentStepTerms(w: World, id: string, a: Actor, ans: Answer)
    requires CL.Valid(w.consent) && HoldsMatch(w) && id in w.repo.rows && SameTerms(a.memory, w.repo.rows[id])
    requires CallsConsent(a.pc)
    ensures var (after, b) := ConsentStep(w, id, a, ans);
            && after == w.(consent := after.consent) && after.consent.consents == w.consent.consents
            && HoldsMatch(after) && ActorNamed(after, b)
  {
    match a.pc
    case AtReserve => ReserveTerms(w, id, a, ans);
    case AtConfirm => ConfirmTerms(w, id, a, ans);
    case AtRelease(_) => ReleaseTerms(w, a, ans);
  }

  // ---------- steps that call the bank or the ledger ----------

  lemma BankTerms(w: World, id: string, a: Actor, ans: Answer)
    requires RecordsMatch(w) && id in w.repo.rows && SameTerms(a.memory, w.repo.rows[id])
    requires a.pc.AtBank? && ActorNamed(w, a) && Generated(w, a, ans)
    ensures var (after, b) := StepBank(w, id, a, ans);
            after == w.(bank := after.bank) && RecordsMatch(after) && ActorNamed(after, b)
  {
    var (after, b) := StepBank(w, id, a, ans);
    forall ref | ref in after.bank && after.bank[ref].request.paymentId != "" ensures RecordMatches(after, ref) {
      assert ref in w.bank ==> w.bank[ref].request.paymentId != "" ==> RecordMatches(w, ref);
    }
  }

  lemma UndoBankTerms(w: World, a: Actor, ans: Answer)
    requires RecordsMatch(w) && a.pc.AtUndoBank?
    ensures var (after, b) := StepUndoBank(w, a, ans);
            after == w.(bank := after.bank) && RecordsMatch(after) && ActorNamed(after, b)
  {
    var (after, b) := StepUndoBank(w, a, ans);
    forall ref | ref in after.bank && after.bank[ref].request.paymentId != "" ensures RecordMatches(after, ref) {
      assert ref in w.bank && RecordMatches(w, ref);
    }
  }

  lemma LedgerTerms(w: World, id: string, a: Actor, ans: Answer)
    requires a.pc.AtPost? || a.pc.AtUndoLedger?
    ensures var (after, b) := MoneyStep(w, id, a, ans); after == w.(ledger := after.ledger) && ActorNamed(after, b)
  {
  }

  // ---------- every label ----------

  /** Only these parts can break; the others have been seen to. */
  lemma PartsMatch(s: Sys)
    requires RecordsMatch(s.w) && HoldsMatch(s.w) && RowsNamed(s.w) && ActorsNamed(s.w, s.actors)
    ensures TermsKept(s)
  {
  }

  lemma NextActors(w: World, after: World, actors: map<string, Actor>, id: string, b: Actor)
    requires ActorsNamed(w, actors) && SameConsents(w.consent, after.consent) && ActorNamed(after, b)
    ensures ActorsNamed(after, Assign(actors, id, b))
  {
    ActorsStay(w, after, actors);
  }

  lemma RowStepKeepsTerms(s: Sys, id: string, a: Actor, ans: Answer)
    requires Inv(s) && TermsKept(s) && id in s.actors && s.actors[id] == a && WritesRow(a.pc)
    ensures var (w, b) := RowStep(s.w, id, a, ans); TermsKept(Sys(w, Assign(s.actors, id, b)))
  {
    var (w, b) := RowStep(s.w, id, a, ans);
    assert PartMatches(s, Records) && PartMatches(s, Holds) && PartMatches(s, Rows) && PartMatches(s, Actors);
    assert InvAt(s, id) && ActorNamed(s.w, a) && RowNamed(s.w, s.w.repo.rows[id]);
    RowStepTerms(s.w, id, a, ans);
    RowStepNames(s.w, id, a, ans);
    RecordsStay(s.w, w);
    HoldsStay(s.w, w);
    RowsStay(s.w, w, id);
    NextActors(s.w, w, s.actors, id, b);
    PartsMatch(Sys(w, Assign(s.actors, id, b)));
  }

  lemma ConsentStepKeepsTerms(s: Sys, id: string, a: Actor, ans: Answer)
    requires Inv(s) && TermsKept(s) && id in s.actors && s.actors[id] == a && CallsConsent(a.pc)
    ensures var (w, b) := ConsentStep(s.w, id, a, ans); TermsKept(Sys(w, Assign(s.actors, id, b)))
  {
    var (w, b) := ConsentStep(s.w, id, a, ans);
    assert PartMatches(s, Records) && PartMatches(s, Holds) && PartMatches(s, Rows) && PartMatches(s, Actors);
    assert InvAt(s, id) && TableSound(s.w, ConsentTables);
    ConsentStepTerms(s.w, id, a, ans);
    RecordsStay(s.w, w);
    RowsStay(s.w, w, "");
    NextActors(s.w, w, s.actors, id, b);
    PartsMatch(Sys(w, Assign(s.actors, id, b)));
  }

  lemma MoneyStepTerms(w: World, id: string, a: Actor, ans: Answer)
    requires RecordsMatch(w) && id in w.repo.rows && SameTerms(a.memory, w.repo.rows[id])
    requires CallsMoney(a.pc) && ActorNamed(w, a) && Generated(w, a, ans)
    ensures var (after, b) := MoneyStep(w, id, a, ans);
            && after.repo == w.repo && after.consent == w.consent && RecordsMatch(after) && ActorNamed(after, b)
  {
    if a.pc.AtBank? {
      BankTerms(w, id, a, ans);
    } else if a.pc.AtUndoBank? {
      UndoBankTerms(w, a, ans);
    } else {
      LedgerTerms(w, id, a, ans);
      RecordsStay(w, MoneyStep(w, id, a, ans).0);
    }
  }

  lemma MoneyStepKeepsTerms(s: Sys, id: string, a: Actor, ans: Answer)
    requires Inv(s) && TermsKept(s) && id in s.actors && s.actors[id] == a && CallsMoney(a.pc) && Generated(s.w, a, ans)
    ensures var (w, b) := MoneyStep(s.w, id, a, ans); TermsKept(Sys(w, Assign(s.actors, id, b)))
  {
    var (w, b) := MoneyStep(s.w, id, a, ans);
    assert PartMatches(s, Records) && PartMatches(s, Holds) && PartMatches(s, Rows) && PartMatches(s, Actors);
    assert InvAt(s, id) && ActorNamed(s.w, a);
    MoneyStepTerms(s.w, id, a, ans);
    HoldsStay(s.w, w);
    RowsStay(s.w, w, "");
    NextActors(s.w, w, s.actors, id, b);
    PartsMatch(Sys(w, Assign(s.actors, id, b)));
  }

  lemma OtherStepTerms(w: World, id: string, a: Actor, ans: Answer)
    requires (a.pc.AtRisk? || a.pc.AtComplete? || a.pc.AtEnd?) && ActorNamed(w, a)
    ensures var (after, b) := Advance(w, id, a, ans); after == w.(idem := after.idem) && ActorNamed(after, b)
  {
  }

  lemma OtherStepKeepsTerms(s: Sys, id: string, a: Actor, ans: Answer)
    requires TermsKept(s) && id in s.actors && s.actors[id] == a
    requires !WritesRow(a.pc) && !CallsConsent(a.pc) && !CallsMoney(a.pc)
    ensures var (w, b) := Advance(s.w, id, a, ans); TermsKept(Sys(w, Assign(s.actors, id, b)))
  {
    var (w, b) := Advance(s.w, id, a, ans);
    assert PartMatches(s, Records) && PartMatches(s, Holds) && PartMatches(s, Rows) && PartMatches(s, Actors);
    assert ActorNamed(s.w, a);
    OtherStepTerms(s.w, id, a, ans);
    RecordsStay(s.w, w);
    HoldsStay(s.w, w);
    RowsStay(s.w, w, "");
    NextActors(s.w, w, s.actors, id, b);
    PartsMatch(Sys(w, Assign(s.actors, id, b)));
  }

  lemma StepKeepsTerms(s: Sys, id: string, a: Actor, ans: Answer)
    requires Inv(s) && TermsKept(s) && id in s.actors && s.actors[id] == a && Generated(s.w, a, ans)
    ensures var (w, b) := Advance(s.w, id, a, ans); TermsKept(Sys(w, Assign(s.actors, id, b)))
  {
    if WritesRow(a.pc) {
      RowStepKeepsTerms(s, id, a, ans);
    } else if CallsConsent(a.pc) {
      ConsentStepKeepsTerms(s, id, a, ans);
    } else if CallsMoney(a.pc) {
      MoneyStepKeepsTerms(s, id, a, ans);
    } else {
      OtherStepKeepsTerms(s, id, a, ans);
    }
  }

  /** The labels that write one row and put an actor at work, or none. */
  lemma RowChangeKeepsTerms(s: Sys, after: Sys, id: string)
    requires TermsKept(s) && after.w == s.w.(repo := after.w.repo) && SameDeals(s.w, after.w)
    requires forall o :: o in after.w.repo.rows && o != id ==>
               o in s.w.repo.rows && after.w.repo.rows[o] == s.w.repo.rows[o]
    requires id in after.w.repo.rows ==> RowNamed(after.w, after.w.repo.rows[id])
    requires forall o :: o in after.actors && o != id ==> o in s.actors && after.actors[o] == s.actors[o]
    requires id in after.actors ==> ActorNamed(after.w, after.actors[id])
    ensures TermsKept(after)
  {
    assert PartMatches(s, Records) && PartMatches(s, Holds) && PartMatches(s, Rows) && PartMatches(s, Actors);
    RecordsStay(s.w, after.w);
    HoldsStay(s.w, after.w);
    RowsStay(s.w, after.w, id);
    ActorsStay(s.w, after.w, s.actors);
    PartsMatch(after);
  }

  lemma CreateKeepsTerms(s: Sys, id: string, p: P.Payment, write: P.Write, after: Sys)
    requires TermsKept(s) && id !in s.w.repo.rows && Acceptable(p)
    requires after.w == s.w.(repo := P.CreatePayment(s.w.repo, id, p, write).0)
    requires after.actors == s.actors || after.actors == s.actors[id := Pending(First, AtReserve, p)]
    ensures TermsKept(after)
  {
    assert PartMatches(s, Actors);
    CreatedRows(s.w.repo, id, p, write);
    RowChangeKeepsTerms(s, after, id);
  }

  lemma CreatedRows(r: P.Repo, id: string, p: P.Payment, write: P.Write)
    ensures P.CreatePayment(r, id, p, write).0.rows in {r.rows, r.rows[id := p]}
  {
  }

  lemma RetryKeepsTerms(s: Sys, id: string, write: P.Write, after: Sys)
    requires TermsKept(s) && CanRetry(s, id) && after.w == s.w.(repo := RetryRepo(s.w.repo, id, write).0)
    requires after.actors == s.actors || after.actors == s.actors[id := RetryActor(s.w.repo.rows[id])]
    ensures TermsKept(after)
  {
    assert PartMatches(s, Rows) && RowNamed(s.w, s.w.repo.rows[id]);
    WriteKeepsTerms(s.w, id, P.Failed, P.Initiated, p => P.Cleared(p), write);
    RowChangeKeepsTerms(s, after, id);
  }

  lemma AdminKeepsTerms(s: Sys, after: Sys)
    requires TermsKept(s) && after == s.(w := s.w.(consent := after.w.consent))
    requires after.w.consent == s.w.consent.(consents := after.w.consent.consents)
    requires SameConsents(s.w.consent, after.w.consent)
    ensures TermsKept(after)
  {
    assert PartMatches(s, Records) && PartMatches(s, Holds) && PartMatches(s, Rows) && PartMatches(s, Actors);
    RecordsStay(s.w, after.w);
    HoldsStay(s.w, after.w);
    RowsStay(s.w, after.w, "");
    ActorsStay(s.w, after.w, s.actors);
    PartsMatch(after);
  }

  lemma ReconcileKeepsTerms(s: Sys, id: string, bankUp: bool)
    requires TermsKept(s) && id in s.w.repo.rows
    ensures var a := Recover(s.w, s.w.repo.rows[id], bankUp);
            a.Some? ==> TermsKept(s.(actors := s.actors[id := a.value]))
  {
    var a := Recover(s.w, s.w.repo.rows[id], bankUp);
    if a.Some? {
      assert PartMatches(s, Rows) && RowNamed(s.w, s.w.repo.rows[id]);
      RowChangeKeepsTerms(s, s.(actors := s.actors[id := a.value]), id);
    }
  }

  lemma CrashKeepsTerms(s: Sys, id: string)
    requires TermsKept(s)
    ensures TermsKept(s.(actors := s.actors - {id}))
  {
    assert PartMatches(s, Rows) && PartMatches(s, Actors);
    RowChangeKeepsTerms(s, s.(actors := s.actors - {id}), "");
  }

  lemma AdminLabelKeepsTerms(s: Sys, event: Label)
    requires TermsKept(s) && (event.NewConsent? || event.RevokeConsent?)
    ensures TermsKept(Next(s, event))
  {
    if event.NewConsent? {
      AdminKeepsTerms(s, s.(w := s.w.(consent := C.Create(s.w.consent, event.id, event.consent, event.now).0)));
    } else {
      AdminKeepsTerms(s, s.(w := s.w.(consent := C.Revoke(s.w.consent, event.id, event.merchant).0)));
    }
  }

  lemma RowLabelKeepsTerms(s: Sys, event: Label)
    requires TermsKept(s) && Enabled(s, event) && (event.Create? || event.Retry?)
    ensures TermsKept(Next(s, event))
  {
    if event.Create? {
      CreateKeepsTerms(s, event.id, event.payment, event.write, Next(s, event));
    } else if CanRetry(s, event.id) {
      RetryKeepsTerms(s, event.id, event.write, Next(s, event));
    }
  }

  lemma NextKeepsTerms(s: Sys, event: Label)
    requires Inv(s) && TermsKept(s)
    ensures TermsKept(Next(s, event))
  {
    if Enabled(s, event) {
      if event.Step? {
        StepKeepsTerms(s, event.id, s.actors[event.id], event.answer);
      } else if event.Crash? {
        CrashKeepsTerms(s, event.id);
      } else if event.Reconcile? {
        ReconcileKeepsTerms(s, event.id, event.bankUp);
      } else if event.Create? || event.Retry? {
        RowLabelKeepsTerms(s, event);
      } else {
        AdminLabelKeepsTerms(s, event);
      }
    }
  }

  lemma {:induction false} RunKeepsTerms(run: seq<Label>)
    ensures TermsKept(Exec(run))
  {
    if run == [] {
      PartsMatch(INIT);
    } else {
      RunKeepsTerms(run[..|run| - 1]);
      RunKeepsInv(run[..|run| - 1]);
      NextKeepsTerms(Exec(run[..|run| - 1]), run[|run| - 1]);
    }
  }

  // ---------- what follows for every run ----------

  /** Whatever the bank records for a payment is for the payment's amount and currency, on behalf of the consumer of
      its consent and under that consent's own reference. */
  lemma BankIsAskedForThePayment(run: seq<Label>, id: string, ref: string)
    requires id in Exec(run).w.repo.rows && ref in RefsOf(Exec(run).w.bank, id)
    ensures var w := Exec(run).w;
            var p := w.repo.rows[id];
            && p.consent in w.consent.consents
            && var c, q := w.consent.consents[p.consent], w.bank[ref].request;
            && q.amount == p.amount && q.currency == (if p.currency == "" then "GBP" else p.currency)
            && q.consumer == c.consumer && q.consentRef == c.bankConsentRef
  {
    RunKeepsTerms(run);
    RunKeepsInv(run);
    assert PartMatches(Exec(run), Records) && TableSound(Exec(run).w, PaymentTable);
    assert RecordMatches(Exec(run).w, ref);
  }

  /** The reservation of a payment, and its usage once confirmed, are for the payment's amount under its consent. */
  lemma HoldIsForThePayment(run: seq<Label>, id: string)
    requires id in Exec(run).w.consent.byPayment
    ensures var w := Exec(run).w;
            && id in w.repo.rows && w.consent.byPayment[id] in w.consent.reservations
            && var p, r := w.repo.rows[id], w.consent.reservations[w.consent.byPayment[id]];
            && r.paymentId == id && r.consentId == p.consent && r.amount == p.amount
            && (id in w.consent.usage ==>
                  w.consent.usage[id].consentId == p.consent && w.consent.usage[id].amount == p.amount)
  {
    RunKeepsTerms(run);
    RunKeepsInv(run);
    assert PartMatches(Exec(run), Holds) && TableSound(Exec(run).w, ConsentTables);
    assert HoldMatches(Exec(run).w, id) && CL.UsageMatches(Exec(run).w.consent, id);
  }

  /** A payment that is past the risk check has passed it, and one past the reservation names the consumer who gave
      the consent. */
  lemma OnlyScreenedProceed(run: seq<Label>, id: string)
    requires id in Exec(run).w.repo.rows
    ensures var w := Exec(run).w;
            var p := w.repo.rows[id];
            && (p.status in {P.RiskPassed, P.Authorising, P.Settled} ==> p.risk.Some? && p.risk.value.1 != "DECLINE")
            && (p.status in {P.ConsentReserved, P.RiskPassed, P.Authorising, P.Settled} ==>
                  p.consent in w.consent.consents && p.consumer == w.consent.consents[p.consent].consumer)
  {
    RunKeepsTerms(run);
    assert PartMatches(Exec(run), Rows);
  }
}
