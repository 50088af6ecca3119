/** What each call does to the slice of the payment it is made for. */
module Slices {
  import opened Basics
  import opened Saga
  import opened Platform
  import B = Banks
  import C = Consents
  import L = Ledgers
  import P = Payments
  import CL = ConsentLaws
  import LL = LedgerLaws

  ghost predicate BankSound(b: B.Bank) {
    forall ref :: ref in b ==> (b[ref].status == B.Rejected <==> b[ref].request.paymentId == "")
  }

  ghost predicate RepoSound(r: P.Repo) {
    && Distinct(r.order)
    && (forall id :: id in r.order <==> id in r.rows)
    && (forall id :: id in r.rows ==> ClientId(id))
    && (forall id :: id in r.outbox ==> id in r.rows)
    && (forall id :: id in r.rows ==> r.rows[id].key in r.byKey && r.byKey[r.rows[id].key] == id)
  }

  ghost predicate ConsentSound(c: C.State) {
    CL.Valid(c) && (forall id :: id in c.byPayment ==> ClientId(id))
  }

  datatype Table = ConsentTables | JournalBooks | JournalPairs | BankTable | PaymentTable

  ghost predicate TableSound(w: World, t: Table) {
    match t
    case ConsentTables => ConsentSound(w.consent)
    case JournalBooks => LL.Books(w.ledger)
    case JournalPairs => LL.Paired(w.ledger)
    case BankTable => BankSound(w.bank)
    case PaymentTable => RepoSound(w.repo)
  }

  /** The tables themselves are in order. */
  ghost predicate Sound(w: World) {
    forall t :: TableSound(w, t)
  }

  /** Each table is untouched, or in order again. */
  lemma SoundAgain(w: World, after: World)
    requires Sound(w)
    requires after.consent == w.consent || ConsentSound(after.consent)
    requires after.ledger == w.ledger || (LL.Books(after.ledger) && LL.Paired(after.ledger))
    requires after.bank == w.bank || BankSound(after.bank)
    requires after.repo == w.repo || RepoSound(after.repo)
    ensures Sound(after)
  {
    forall t ensures TableSound(after, t) {
      assert TableSound(w, t);
    }
  }

  lemma OwnStatusWrite(w: World, id: string, from: P.Status, to: P.Status, change: P.Payment -> P.Payment,
                       write: P.Write)
    requires id in w.repo.rows
    ensures var (repo, ok) := P.StatusWrite(w.repo, id, from, to, change, write);
            var v := SliceOf(w, id);
            && (ok <==> write == P.Done)
            && SliceOf(w.(repo := repo), id) ==
                 v.(row := if write == P.Lost then v.row else Some(change(v.row.value).(status := to)),
                    events := if write == P.Done then v.events + [P.Event(Some(from), to)] else v.events)
  {
  }

  lemma OwnSettle(w: World, id: string, from: P.Status, up: bool)
    requires id in w.repo.rows
    ensures var (repo, ok) := P.Settle(w.repo, id, from, up);
            var v := SliceOf(w, id);
            && (ok <==> up)
            && SliceOf(w.(repo := repo), id) ==
                 if up then v.(row := Some(v.row.value.(status := P.Settled)), sent := v.sent + 1,
                               events := v.events + [P.Event(Some(from), P.Settled)])
                 else v
  {
    CountAppend(w.repo.outbox, id, id);
  }

  lemma OwnReserve(w: World, id: string, consentId: string, amount: int, currency: string, now: int, newId: string)
    requires CL.Valid(w.consent)
    ensures var (consent, result) := C.Reserve(w.consent, consentId, id, amount, currency, now, newId);
            var v, after := SliceOf(w, id), SliceOf(w.(consent := consent), id);
            && CL.Valid(consent)
            && (result.Err? || v.hold.Some? ==> after == v)
            && (result.Ok? ==> after.hold == Some(result.value.reservationId))
            && (result.Ok? && v.hold.None? ==> after == v.(hold := Some(newId), holdStatus := Some(C.Held)))
  {
    CL.ReserveKeepsValid(w.consent, consentId, id, amount, currency, now, newId);
    CL.ReserveAddsHold(w.consent, CL.At(now, CL.ReserveOp(consentId, id, amount, currency, newId)));
    assert CL.UsageMatches(w.consent, id);
  }

  lemma OwnConfirm(w: World, id: string, r: string, now: int)
    requires CL.Valid(w.consent) && id != "" && SliceOf(w, id).hold == Some(r)
    ensures var consent := C.Confirm(w.consent, r, id, now).0;
            var v := SliceOf(w, id);
            && CL.Valid(consent)
            && SliceOf(w.(consent := consent), id) ==
                 if r != "" && v.holdStatus == Some(C.Held) then v.(holdStatus := Some(C.Confirmed), used := true)
                 else v
  {
    CL.ConfirmKeepsValid(w.consent, r, id, now);
    assert CL.UsageMatches(w.consent, id);
  }

  lemma OwnRelease(w: World, id: string, r: string)
    requires CL.Valid(w.consent) && SliceOf(w, id).hold == Some(r)
    ensures var (consent, err) := C.Release(w.consent, r);
            var v := SliceOf(w, id);
            && CL.Valid(consent)
            && (err.None? <==> r != "" && v.holdStatus != Some(C.Confirmed))
            && SliceOf(w.(consent := consent), id) == if err.None? then v.(holdStatus := Some(C.Released)) else v
  {
    CL.ReleaseKeepsValid(w.consent, r);
  }

  lemma OwnPost(w: World, id: string, text: string, lines: seq<L.LineInput>)
    requires ClientId(id) && LL.Books(w.ledger) && LL.Paired(w.ledger)
    ensures var (ledger, err) := L.Post(w.ledger, id, text, lines);
            var v := SliceOf(w, id);
            && LL.Books(ledger) && LL.Paired(ledger)
            && SliceOf(w.(ledger := ledger), id) ==
                 if err.None? && v.entry.None?
                 then v.(entry := Some(L.Entry(text, L.EntryLines(L.Normalised(lines)), false)))
                 else v
  {
    LL.PostKeepsBooks(w.ledger, id, text, lines);
    LL.PostKeepsPaired(w.ledger, id, text, lines);
    RevNotClient(id);
  }

  lemma OwnReverse(w: World, id: string, reason: string)
    requires ClientId(id) && LL.Books(w.ledger)
    ensures var (ledger, err) := L.Reverse(w.ledger, id, reason);
            var v, after := SliceOf(w, id), SliceOf(w.(ledger := ledger), id);
            && (err.None? <==> v.entry.Some?)
            && (v.entry.Some? ==> after == v.(entry := Some(v.entry.value.(reversed := true)), rev := after.rev))
            && (v.entry.None? ==> after == v)
  {
    LL.ReverseKeepsBooks(w.ledger, id, reason);
    RevNotClient(id);
  }

  lemma OwnTake(w: World, id: string, ref: string, q: B.Request)
    requires ref !in w.bank && q.paymentId == id
    ensures var (bank, ok) := B.Initiate(w.bank, ref, q);
            var v := SliceOf(w, id);
            && (ok ==> ref in bank)
            && SliceOf(w.(bank := bank), id) == if ok then v.(refs := v.refs + {ref}, taken := v.taken + {ref}) else v
  {
    var (bank, ok) := B.Initiate(w.bank, ref, q);
    if ok {
      assert RefsOf(bank, id) == RefsOf(w.bank, id) + {ref};
      assert B.TakenRefs(bank, id) == B.TakenRefs(w.bank, id) + {ref};
    }
  }

  lemma OwnGiveBack(w: World, id: string, ref: string)
    requires BankSound(w.bank) && id != "" && ref in SliceOf(w, id).refs
    ensures var (bank, err) := B.Reverse(w.bank, ref);
            var v := SliceOf(w, id);
            err.None? && SliceOf(w.(bank := bank), id) == v.(taken := v.taken - {ref})
  {
    var bank := B.Reverse(w.bank, ref).0;
    assert RefsOf(bank, id) == RefsOf(w.bank, id);
    assert B.TakenRefs(bank, id) == B.TakenRefs(w.bank, id) - {ref};
  }
}
