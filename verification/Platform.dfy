/** The platform as a whole: any number of payments, each worked on by at most one actor, whose calls
    interleave freely; crashes at any point; the reconciler; retries; consent administration. Every
    finite sequence of labels is a run: a label that is not enabled changes nothing. */
module Platform {
  import opened Basics
  import opened Saga
  import B = Banks
  import C = Consents
  import L = Ledgers
  import P = Payments
  import CL = ConsentLaws

  /** `actors` holds the payments somebody is working on right now. */
  datatype Sys = Sys(w: World, actors: map<string, Actor>)

  const INIT := Sys(Saga.EMPTY, map[])

  datatype Label =
    | Create(id: string, payment: P.Payment, write: P.Write)
    | Step(id: string, answer: Answer)
    | Crash(id: string)
    | Reconcile(id: string, bankUp: bool)
    | Retry(id: string, write: P.Write)
    | NewConsent(id: string, consent: C.Consent, now: int)
    | RevokeConsent(id: string, merchant: string, now: int)

  /** What validateInitiate and the constructor of the row let into the table. */
  predicate Acceptable(p: P.Payment) {
    && 1 <= p.amount <= INT64_MAX
    && |NormaliseCurrency(p.currency)| == 3
    && p.status == P.Initiated && p.consumer == "" && p.bankRef == "" && p.reservation.None? && p.risk.None?
  }

  /** Generated ids are never empty, and the bank never hands out a reference it already knows. */
  predicate Generated(w: World, a: Actor, ans: Answer) {
    && (a.pc.AtReserve? ==> ans.newId != "")
    && (a.pc.AtBank? && !ans.bank.BankDown? ==> ans.bank.ref != "" && ans.bank.ref !in w.bank)
  }

  predicate Enabled(s: Sys, event: Label) {
    match event
    case Create(id, p, _) => ClientId(id) && id !in s.w.repo.rows && Acceptable(p)
    case Step(id, ans) => id in s.actors && Generated(s.w, s.actors[id], ans)
    case Crash(id) => id in s.actors
    case Reconcile(id, _) => id !in s.actors && id in s.w.repo.rows && P.InFlight(s.w.repo.rows[id].status)
    case Retry(id, _) => id !in s.actors && id in s.w.repo.rows
    case NewConsent(_, _, _) => true
    case RevokeConsent(_, _, _) => true
  }

  function Assign(actors: map<string, Actor>, id: string, a: Actor): map<string, Actor> {
    if a.pc.AtEnd? then actors - {id} else actors[id := a]
  }

  function Next(s: Sys, event: Label): Sys {
    if !Enabled(s, event) then s
    else match event
      case Create(id, p, write) =>
        var (repo, err) := P.CreatePayment(s.w.repo, id, p, write);
        Sys(s.w.(repo := repo), if err.None? then s.actors[id := Pending(First, AtReserve, p)] else s.actors)
      case Step(id, ans) =>
        var (w, a) := Advance(s.w, id, s.actors[id], ans);
        Sys(w, Assign(s.actors, id, a))
      case Crash(id) => s.(actors := s.actors - {id})
      case Reconcile(id, bankUp) =>
        var a := Recover(s.w, s.w.repo.rows[id], bankUp);
        if a.Some? then s.(actors := s.actors[id := a.value]) else s
      case Retry(id, write) =>
        var (repo, err) := P.ResetForRetry(s.w.repo, id, write);
        var again := Pending(Retried, AtReserve, P.Cleared(s.w.repo.rows[id]).(status := P.Initiated));
        Sys(s.w.(repo := repo), if err.None? then s.actors[id := again] else s.actors)
      case NewConsent(id, c, now) => s.(w := s.w.(consent := C.Create(s.w.consent, id, c, now).0))
      case RevokeConsent(id, merchant, _) => s.(w := s.w.(consent := C.Revoke(s.w.consent, id, merchant).0))
  }

  function Exec(run: seq<Label>): Sys {
    if run == [] then INIT else Next(Exec(run[..|run| - 1]), run[|run| - 1])
  }

  /** Where a run goes on from a state. */
  function Continue(s: Sys, run: seq<Label>): Sys {
    if run == [] then s else Next(Continue(s, run[..|run| - 1]), run[|run| - 1])
  }

  lemma {:induction false} RunContinues(run: seq<Label>, more: seq<Label>)
    ensures Exec(run + more) == Continue(Exec(run), more)
  {
    if more == [] {
      assert run + more == run;
    } else {
      RunContinues(run, more[..|more| - 1]);
      assert (run + more)[..|run + more| - 1] == run + more[..|more| - 1];
    }
  }

  // ---------- everything the stores hold about one payment ----------

  datatype Slice = Slice(
    row: Option<P.Payment>, events: seq<P.Event>, sent: nat,
    hold: Option<string>, holdStatus: Option<C.HoldStatus>, used: bool,
    refs: set<string>, taken: set<string>,
    entry: Option<L.Entry>, rev: Option<L.Entry>)

  function Lookup<V>(m: map<string, V>, k: string): Option<V> {
    if k in m then Some(m[k]) else None
  }

  function Count(ids: seq<string>, id: string): nat {
    if ids == [] then 0 else Count(ids[..|ids| - 1], id) + (if ids[|ids| - 1] == id then 1 else 0)
  }

  function HoldStatusOf(c: C.State, id: string): Option<C.HoldStatus> {
    if id in c.byPayment && c.byPayment[id] in c.reservations then Some(c.reservations[c.byPayment[id]].status)
    else None
  }

  function RefsOf(b: B.Bank, id: string): set<string> {
    set ref | ref in b && b[ref].request.paymentId == id
  }

  function SliceOf(w: World, id: string): Slice {
    Slice(Lookup(w.repo.rows, id), P.EventsOf(w.repo, id), Count(w.repo.outbox, id),
          Lookup(w.consent.byPayment, id), HoldStatusOf(w.consent, id), id in w.consent.usage,
          RefsOf(w.bank, id), B.TakenRefs(w.bank, id),
          Lookup(w.ledger.entries, id), Lookup(w.ledger.entries, Rev(id)))
  }

  /** The reservation and bank reference a copy of the payment carries are the payment's own. */
  predicate Owns(v: Slice, p: P.Payment) {
    && (p.reservation.Some? ==> v.hold == p.reservation)
    && (p.bankRef != "" ==> p.bankRef in v.refs)
  }

  // ---------- store by store, a step of one payment leaves the others alone ----------

  lemma CountAppend(ids: seq<string>, x: string, id: string)
    ensures Count(ids + [x], id) == Count(ids, id) + (if x == id then 1 else 0)
  {
    assert (ids + [x])[..|ids|] == ids;
  }

  lemma StatusWriteFrame(w: World, id: string, from: P.Status, to: P.Status, change: P.Payment -> P.Payment,
                         write: P.Write, o: string)
    requires o != id
    ensures SliceOf(w.(repo := P.StatusWrite(w.repo, id, from, to, change, write).0), o) == SliceOf(w, o)
  {
  }

  lemma SettleFrame(w: World, id: string, from: P.Status, up: bool, o: string)
    requires o != id
    ensures SliceOf(w.(repo := P.Settle(w.repo, id, from, up).0), o) == SliceOf(w, o)
  {
    CountAppend(w.repo.outbox, id, o);
  }

  lemma ReserveFrame(w: World, id: string, consentId: string, amount: int, currency: string, now: int, newId: string,
                     o: string)
    requires o != id && CL.Indexed(w.consent)
    ensures SliceOf(w.(consent := C.Reserve(w.consent, consentId, id, amount, currency, now, newId).0), o) ==
              SliceOf(w, o)
  {
    CL.ReserveAddsHold(w.consent, CL.At(now, CL.ReserveOp(consentId, id, amount, currency, newId)));
  }

  lemma ConfirmFrame(w: World, id: string, r: string, now: int, o: string)
    requires o != id && CL.Valid(w.consent)
    requires id in w.consent.byPayment && w.consent.byPayment[id] == r
    ensures SliceOf(w.(consent := C.Confirm(w.consent, r, id, now).0), o) == SliceOf(w, o)
  {
    CL.ConfirmEffect(w.consent, r, id, now);
  }

  lemma ReleaseFrame(w: World, id: string, r: string, o: string)
    requires o != id && CL.Indexed(w.consent)
    requires id in w.consent.byPayment && w.consent.byPayment[id] == r
    ensures SliceOf(w.(consent := C.Release(w.consent, r).0), o) == SliceOf(w, o)
  {
  }

  lemma PostFrame(w: World, id: string, text: string, lines: seq<L.LineInput>, o: string)
    requires o != id && ClientId(o) && ClientId(id)
    ensures SliceOf(w.(ledger := L.Post(w.ledger, id, text, lines).0), o) == SliceOf(w, o)
  {
    RevNotClient(o);
  }

  lemma ReverseFrame(w: World, id: string, reason: string, o: string)
    requires o != id && ClientId(o) && ClientId(id)
    ensures SliceOf(w.(ledger := L.Reverse(w.ledger, id, reason).0), o) == SliceOf(w, o)
  {
    RevNotClient(o);
    RevNotClient(id);
    if Rev(o) == Rev(id) {
      RevInjective(o, id);
    }
  }

  lemma TakeFrame(w: World, ref: string, q: B.Request, o: string)
    requires o != q.paymentId && ref !in w.bank
    ensures SliceOf(w.(bank := B.Initiate(w.bank, ref, q).0), o) == SliceOf(w, o)
  {
    var bank := B.Initiate(w.bank, ref, q).0;
    assert RefsOf(bank, o) == RefsOf(w.bank, o);
    assert B.TakenRefs(bank, o) == B.TakenRefs(w.bank, o);
  }

  lemma RejectFrame(w: World, ref: string, o: string)
    requires o != "" && ref !in w.bank
    ensures SliceOf(w.(bank := B.Reject(w.bank, ref)), o) == SliceOf(w, o)
  {
    var bank := B.Reject(w.bank, ref);
    assert RefsOf(bank, o) == RefsOf(w.bank, o);
    assert B.TakenRefs(bank, o) == B.TakenRefs(w.bank, o);
  }

  lemma GiveBackFrame(w: World, id: string, ref: string, o: string)
    requires o != id && ref in RefsOf(w.bank, id)
    ensures SliceOf(w.(bank := B.Reverse(w.bank, ref).0), o) == SliceOf(w, o)
  {
    var bank := B.Reverse(w.bank, ref).0;
    assert RefsOf(bank, o) == RefsOf(w.bank, o);
    assert B.TakenRefs(bank, o) == B.TakenRefs(w.bank, o);
  }

  lemma RowStepFrame(w: World, id: string, a: Actor, ans: Answer, o: string)
    requires o != id && WritesRow(a.pc)
    ensures SliceOf(RowStep(w, id, a, ans).0, o) == SliceOf(w, o)
  {
    var p := a.memory;
    match a.pc
    case AtSaveConsent(r, c) =>
      StatusWriteFrame(w, id, p.status, P.ConsentReserved, P.AfterConsent(r, c), ans.write, o);
    case AtSaveRisk(score, decision) =>
      StatusWriteFrame(w, id, p.status, P.RiskPassed, P.AfterRisk(score, decision), ans.write, o);
    case AtSaveBank(ref) =>
      StatusWriteFrame(w, id, p.status, P.Authorising, P.AfterBank(ref), ans.write, o);
    case AtSettle => SettleFrame(w, id, p.status, ans.up, o);
    case AtMark(failed) =>
      StatusWriteFrame(w, id, p.status, if failed then P.ManualReview else P.Failed, P.Unchanged(), ans.write, o);
  }

  lemma OtherStepsKeepRows(w: World, id: string, a: Actor, ans: Answer)
    requires !WritesRow(a.pc)
    ensures Advance(w, id, a, ans).0.repo == w.repo
  {
  }

  lemma ConsentStepFrame(w: World, id: string, a: Actor, ans: Answer, o: string)
    requires o != id && CallsConsent(a.pc)
    requires CL.Valid(w.consent) && Owns(SliceOf(w, id), a.memory)
    ensures SliceOf(ConsentStep(w, id, a, ans).0, o) == SliceOf(w, o)
  {
    var p := a.memory;
    if a.pc.AtReserve? {
      ReserveFrame(w, id, p.consent, p.amount, p.currency, ans.now, ans.newId, o);
    } else if p.reservation.Some? {
      if a.pc.AtConfirm? {
        ConfirmFrame(w, id, p.reservation.value, ans.now, o);
      } else {
        ReleaseFrame(w, id, p.reservation.value, o);
      }
    }
  }

  lemma MoneyStepFrame(w: World, id: string, a: Actor, ans: Answer, o: string)
    requires ClientId(id) && ClientId(o) && o != id && CallsMoney(a.pc)
    requires Owns(SliceOf(w, id), a.memory) && Generated(w, a, ans)
    ensures SliceOf(MoneyStep(w, id, a, ans).0, o) == SliceOf(w, o)
  {
    var p := a.memory;
    if a.pc.AtBank? {
      match ans.bank {
        case BankDown =>
        case BankRejects(ref) => RejectFrame(w, ref, o);
        case BankTakes(ref) => TakeFrame(w, ref, BankRequest(id, p, a.consentRef), o);
      }
    } else if a.pc.AtPost? {
      PostFrame(w, id, PostText(a.kind, id), SagaLines(p), o);
    } else if a.pc.AtUndoLedger? {
      ReverseFrame(w, id, "settle failed", o);
    } else if p.bankRef != "" {
      GiveBackFrame(w, id, p.bankRef, o);
    }
  }

  /** A call made for one payment changes nothing that is stored about another. */
  lemma AdvanceFrame(w: World, id: string, a: Actor, ans: Answer, o: string)
    requires ClientId(id) && ClientId(o) && o != id
    requires CL.Valid(w.consent) && Owns(SliceOf(w, id), a.memory) && Generated(w, a, ans)
    ensures SliceOf(Advance(w, id, a, ans).0, o) == SliceOf(w, o)
  {
    if WritesRow(a.pc) {
      RowStepFrame(w, id, a, ans, o);
    } else if CallsConsent(a.pc) {
      ConsentStepFrame(w, id, a, ans, o);
    } else if CallsMoney(a.pc) {
      MoneyStepFrame(w, id, a, ans, o);
    }
  }
}
