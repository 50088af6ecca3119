/** What the reconciler makes of a payment whose orchestrator crashed. */
module Recovery {
  import opened Basics
  import opened Saga
  import opened Platform
  import opened Slices
  import opened AllRuns
  import opened Split
  import opened CleanRuns
  import O = Orchestration
  import B = Banks
  import C = Consents
  import L = Ledgers
  import P = Payments
  import CL = ConsentLaws
  import LL = LedgerLaws

  /** Every call gets through and every write is done. */
  ghost predicate AllUp(script: Script) {
    forall st :: script(st).up && script(st).write == P.Done
  }

  ghost predicate AllUpBut(script: Script, one: Stage, other: Stage) {
    forall st :: st != one && st != other ==> script(st).up && script(st).write == P.Done
  }

  // ---------- finishing: settle, confirm, complete ----------

  function Settled(w: World, id: string, p: P.Payment): World {
    w.(repo := P.Settle(w.repo, id, p.status, true).0)
  }

  function Confirmed(w: World, id: string, p: P.Payment, now: int): World {
    if p.reservation.Some? then w.(consent := C.Confirm(w.consent, p.reservation.value, id, now).0) else w
  }

  /** A retried attempt leaves the idempotency key alone. */
  function Completed(w: World, id: string, kind: Kind, p: P.Payment): World {
    if kind == Retried then w else w.(idem := w.idem[p.key := id])
  }

  /** From the settlement on, with every call getting through. */
  function Finish(w: World, id: string, kind: Kind, p: P.Payment, now: int): World {
    Completed(Confirmed(Settled(w, id, p), id, p, now), id, kind, p)
  }

  lemma ConfirmRun(w: World, id: string, a: Actor, script: Script)
    requires AllUp(script) && a.pc.AtConfirm?
    ensures var done := Confirmed(w, id, a.memory, script(Confirm).now);
            RunFrom(w, id, a, script) == (Completed(done, id, a.kind, a.memory), true)
  {
    assert script(Confirm).up && script(Complete).up;
    O.Unfold(w, id, a, script);
    if a.kind != Retried {
      var (w1, b) := Advance(w, id, a, script(Confirm));
      O.Unfold(w1, id, b, script);
    }
  }

  lemma FinishRun(w: World, id: string, a: Actor, script: Script)
    requires AllUp(script) && a.pc.AtSettle? && id in w.repo.rows
    ensures RunFrom(w, id, a, script) == (Finish(w, id, a.kind, a.memory, script(Confirm).now), true)
  {
    assert script(Settle).up;
    O.Unfold(w, id, a, script);
    var b := a.(pc := AtConfirm, memory := a.memory.(status := P.Settled));
    assert Advance(w, id, a, script(Settle)) == (Settled(w, id, a.memory), b);
    ConfirmRun(Settled(w, id, a.memory), id, b, script);
  }

  lemma PostRun(w: World, id: string, a: Actor, script: Script)
    requires AllUp(script) && a.pc.AtPost? && Posting(w, id, a).1.None?
    ensures RunFrom(w, id, a, script) == RunFrom(w.(ledger := Posting(w, id, a).0), id, a.(pc := AtSettle), script)
  {
    assert script(Post).up;
    O.Unfold(w, id, a, script);
    assert Advance(w, id, a, script(Post)) == StepPost(w, id, a, script(Post));
  }

  lemma ResumeRun(w: World, id: string, a: Actor, script: Script)
    requires AllUp(script) && a.pc.AtPost? && id in w.repo.rows && Posting(w, id, a).1.None?
    ensures RunFrom(w, id, a, script) ==
              (Finish(w.(ledger := Posting(w, id, a).0), id, a.kind, a.memory, script(Confirm).now), true)
  {
    PostRun(w, id, a, script);
    FinishRun(w.(ledger := Posting(w, id, a).0), id, a.(pc := AtSettle), script);
  }

  // ---------- a resumed payment ends where the uninterrupted one would have ----------

  /** A ledger without the texts of its entries. */
  function WithoutTexts(l: L.Ledger): L.Ledger {
    l.(entries := map k | k in l.entries :: l.entries[k].(description := ""))
  }

  /** The consent tables without the times of settlement. */
  function WithoutTimes(c: C.State): C.State {
    c.(usage := map p | p in c.usage :: c.usage[p].(settledAt := 0))
  }

  /** Both, and the idempotency keys, which a retried attempt does not touch. */
  function Erased(w: World): World {
    w.(ledger := WithoutTexts(w.ledger), consent := WithoutTimes(w.consent), idem := map[])
  }

  lemma ErasedPost(l: L.Ledger, id: string, s: string, t: string, lines: seq<L.LineInput>)
    ensures L.Post(l, id, s, lines).1 == L.Post(l, id, t, lines).1
    ensures WithoutTexts(L.Post(l, id, s, lines).0) == WithoutTexts(L.Post(l, id, t, lines).0)
    ensures L.Post(l, id, s, lines).1.None? ==>
              L.Post(L.Post(l, id, s, lines).0, id, t, lines) == (L.Post(l, id, s, lines).0, None)
  {
  }

  lemma ErasedUsage(c: C.State, r: C.Reservation, now: int, later: int)
    ensures WithoutTimes(C.InsertUsage(c, r, now)) == WithoutTimes(C.InsertUsage(c, r, later))
  {
    var u, v := WithoutTimes(C.InsertUsage(c, r, now)).usage, WithoutTimes(C.InsertUsage(c, r, later)).usage;
    assert u.Keys == v.Keys;
    assert u == v;
  }

  lemma ErasedConfirm(c: C.State, r: string, id: string, now: int, later: int)
    ensures WithoutTimes(C.Confirm(c, r, id, now).0) == WithoutTimes(C.Confirm(c, r, id, later).0)
  {
    if r in c.reservations {
      ErasedUsage(c, c.reservations[r], now, later);
      ErasedUsage(C.SetStatus(c, r, C.Confirmed), c.reservations[r], now, later);
    }
  }

  lemma ErasedFinish(w: World, u: World, id: string, kind: Kind, other: Kind, p: P.Payment, now: int, later: int)
    requires u == w.(ledger := u.ledger) && WithoutTexts(w.ledger) == WithoutTexts(u.ledger)
    ensures Erased(Finish(w, id, kind, p, now)) == Erased(Finish(u, id, other, p, later))
  {
    if p.reservation.Some? {
      ErasedConfirm(w.consent, p.reservation.value, id, now, later);
    }
  }

  lemma {:induction false} ErasedBalance(l: L.Ledger, m: L.Ledger, a: L.Account)
    requires WithoutTexts(l) == WithoutTexts(m)
    ensures L.Balance(l, a) == L.Balance(m, a)
  {
    forall k ensures L.EffectAt(l.entries, k, a) == L.EffectAt(m.entries, k, a) {
      assert k in l.entries <==> k in WithoutTexts(l).entries;
      assert k in m.entries <==> k in WithoutTexts(m).entries;
      if k in l.entries {
        assert WithoutTexts(l).entries[k].lines == l.entries[k].lines;
        assert WithoutTexts(m).entries[k].lines == m.entries[k].lines;
      }
    }
    SumCongruent(l.order, k => L.EffectAt(l.entries, k, a), k => L.EffectAt(m.entries, k, a));
  }

  lemma PostingAgain(w: World, id: string, a: Actor, b: Actor)
    requires a.memory == b.memory && Posting(w, id, a).1.None?
    ensures var (ledger, _) := Posting(w, id, a);
            && Posting(w, id, b).1.None? && WithoutTexts(Posting(w, id, b).0) == WithoutTexts(ledger)
            && Posting(w.(ledger := ledger), id, b) == (ledger, None)
  {
    ErasedPost(w.ledger, id, PostText(a.kind, id), PostText(b.kind, id), SagaLines(a.memory));
  }

  /** In any state of a clean run, let an attempt of any kind stand before its ledger step with every further
      call getting through, and compare three futures: it goes on; it crashes there and the reconciler takes
      over; it crashes after the ledger step and the reconciler takes over. All end well, with the same
      payment rows, events, outbox, bank records, balances, reservation and usage -- up to the text of the
      ledger entry and the time of the usage row. The idempotency key names the payment in the end, unless
      the attempt that goes on is a retry, which leaves the key as it was. */
  lemma ResumeRefines(run: seq<Label>, id: string, script: Script, later: Script, account: L.Account)
    requires CleanRun(run) && AllUp(script) && AllUp(later)
    requires id in Exec(run).actors && Exec(run).actors[id].pc.AtPost?
    requires id in Exec(run).w.repo.rows && Postable(Exec(run).w.repo.rows[id])
    ensures var w, a := Exec(run).w, Exec(run).actors[id];
            var posted := StepPost(w, id, a, script(Post)).0;
            var here, there := Recover(w, w.repo.rows[id], true), Recover(posted, posted.repo.rows[id], true);
            && here.Some? && there.Some?
            && var (u, ok) := RunFrom(w, id, a, script);
            && var (v, ok1) := RunFrom(w, id, here.value, later);
            && var (x, ok2) := RunFrom(posted, id, there.value, later);
            && ok && ok1 && ok2
            && Erased(u) == Erased(v) && Erased(u) == Erased(x)
            && v.idem == x.idem == w.idem[a.memory.key := id]
            && u.idem == (if a.kind == Retried then w.idem else v.idem)
            && L.Balance(u.ledger, account) == L.Balance(v.ledger, account) == L.Balance(x.ledger, account)
            && id in u.repo.rows && u.repo.rows[id].status == P.Settled
  {
    var w, a := Exec(run).w, Exec(run).actors[id];
    ReadyToPost(run, id);
    var r := Pending(Resumed, AtPost, w.repo.rows[id]);
    PostSucceedsIff(w.ledger, id, PostText(a.kind, id), a.memory);
    PostingAgain(w, id, a, r);
    var ledger := Posting(w, id, a).0;
    var posted := w.(ledger := ledger);
    assert script(Post).up;
    ThreeFutures(w, id, a, r, script, later);
    ErasedBalance(RunFrom(w, id, a, script).0.ledger, RunFrom(w, id, r, later).0.ledger, account);
    ErasedBalance(RunFrom(w, id, a, script).0.ledger, RunFrom(posted, id, r, later).0.ledger, account);
  }

  lemma ReadyToPost(run: seq<Label>, id: string)
    requires CleanRun(run) && id in Exec(run).actors && Exec(run).actors[id].pc.AtPost?
    ensures var w, a := Exec(run).w, Exec(run).actors[id];
            && id in w.repo.rows && id != "" && a.memory == w.repo.rows[id] && 1 <= a.memory.amount <= INT64_MAX
            && a.memory.bankRef != "" && a.memory.bankRef in w.bank && w.bank[a.memory.bankRef].status == B.Settled
  {
    var s := Exec(run);
    RunClean(run);
    RunKeepsInv(run);
    assert CleanAt(s, id) && InvAt(s, id);
    assert s.actors[id].memory.bankRef in SliceOf(s.w, id).taken;
  }

  lemma ThreeFutures(w: World, id: string, a: Actor, r: Actor, script: Script, later: Script)
    requires AllUp(script) && AllUp(later) && a.pc.AtPost? && r.pc.AtPost? && r.kind == Resumed
    requires a.memory == r.memory && id in w.repo.rows && Posting(w, id, a).1.None?
    ensures var posted := w.(ledger := Posting(w, id, a).0);
            var (u, ok) := RunFrom(w, id, a, script);
            var (v, ok1) := RunFrom(w, id, r, later);
            var (x, ok2) := RunFrom(posted, id, r, later);
            && ok && ok1 && ok2 && Erased(u) == Erased(v) && Erased(u) == Erased(x)
            && v.idem == x.idem == w.idem[a.memory.key := id]
            && u.idem == (if a.kind == Retried then w.idem else v.idem)
            && id in u.repo.rows && u.repo.rows[id].status == P.Settled
  {
    PostingAgain(w, id, a, r);
    var posted := w.(ledger := Posting(w, id, a).0);
    var now, after := script(Confirm).now, later(Confirm).now;
    ResumeRun(w, id, a, script);
    ResumeRun(w, id, r, later);
    ResumeRun(posted, id, r, later);
    FinishFacts(posted, id, a.kind, a.memory, now);
    FinishFacts(w.(ledger := Posting(w, id, r).0), id, r.kind, a.memory, after);
    FinishFacts(posted, id, r.kind, a.memory, after);
    ErasedFinish(posted, w.(ledger := Posting(w, id, r).0), id, a.kind, r.kind, a.memory, now, after);
    ErasedFinish(posted, posted, id, a.kind, r.kind, a.memory, now, after);
  }

  lemma FinishFacts(w: World, id: string, kind: Kind, p: P.Payment, now: int)
    requires id in w.repo.rows
    ensures var after := Finish(w, id, kind, p, now);
            && after.idem == (if kind == Retried then w.idem else w.idem[p.key := id])
            && id in after.repo.rows && after.repo.rows[id].status == P.Settled
  {
  }

  // ---------- when the reconciler can put things right ----------

  function GivenBack(v: Slice, p: P.Payment, reverseBank: bool): Slice {
    if reverseBank && p.bankRef != "" then v.(taken := v.taken - {p.bankRef}) else v
  }

  function Released(v: Slice, p: P.Payment): Slice {
    if p.reservation.Some? then v.(holdStatus := Some(C.Released)) else v
  }

  lemma UndoBankSlice(w: World, id: string, a: Actor, ans: Answer)
    requires ans.up && BankSound(w.bank) && id != "" && a.pc.AtUndoBank? && !a.pc.failed
    requires a.memory.bankRef != "" ==> a.memory.bankRef in SliceOf(w, id).refs
    ensures var (after, b) := StepUndoBank(w, a, ans);
            && b == a.(pc := AtRelease(false))
            && SliceOf(after, id) == GivenBack(SliceOf(w, id), a.memory, a.pc.reverseBank)
            && after.consent == w.consent && after.repo == w.repo
  {
    if a.pc.reverseBank && a.memory.bankRef != "" {
      OwnGiveBack(w, id, a.memory.bankRef);
      assert StepUndoBank(w, a, ans).0 == w.(bank := B.Reverse(w.bank, a.memory.bankRef).0);
    }
  }

  lemma UndoBankCall(w: World, id: string, a: Actor, ans: Answer)
    requires a.pc.AtUndoBank?
    ensures Advance(w, id, a, ans) == StepUndoBank(w, a, ans)
  {
  }

  lemma UndoBankRun(w: World, id: string, a: Actor, script: Script, next: (World, Actor))
    requires AllUpBut(script, Post, SaveBank) && a.pc.AtUndoBank? && next == StepUndoBank(w, a, script(UndoBank))
    ensures script(UndoBank).up && RunFrom(w, id, a, script) == RunFrom(next.0, id, next.1, script)
  {
    UndoBankCall(w, id, a, script(UndoBank));
    O.GoesOn(w, id, a, script, next);
  }

  lemma ReleaseRun(w: World, id: string, a: Actor, script: Script)
    requires AllUpBut(script, Post, SaveBank) && CL.Valid(w.consent) && a.pc == AtRelease(false)
    requires a.memory.reservation.Some? ==>
               SliceOf(w, id).hold == a.memory.reservation && SliceOf(w, id).holdStatus != Some(C.Confirmed)
                 && SliceOf(w, id).hold != Some("")
    ensures var after := StepRelease(w, a, script(Release)).0;
            && RunFrom(w, id, a, script) == RunFrom(after, id, a.(pc := AtMark(false)), script)
            && SliceOf(after, id) == Released(SliceOf(w, id), a.memory) && after.repo == w.repo
  {
    assert script(Release).up;
    O.Unfold(w, id, a, script);
    if a.memory.reservation.Some? {
      OwnRelease(w, id, a.memory.reservation.value);
    }
  }

  lemma MarkedSlice(w: World, id: string, a: Actor, ans: Answer)
    requires ans.write == P.Done && a.pc == AtMark(false) && id in w.repo.rows
    ensures var (after, b) := StepMark(w, id, a, ans);
            var v := SliceOf(w, id);
            && b == a.(pc := if a.kind == First then AtComplete(false) else AtEnd(false))
            && SliceOf(after, id) ==
                 v.(row := Some(v.row.value.(status := P.Failed)), events := SliceOf(after, id).events)
  {
    OwnStatusWrite(w, id, a.memory.status, P.Failed, P.Unchanged(), P.Done);
  }

  lemma EndRun(w: World, id: string, a: Actor, script: Script)
    requires a.pc == AtComplete(false) || a.pc == AtEnd(false)
    ensures var (after, ok) := RunFrom(w, id, a, script); !ok && SliceOf(after, id) == SliceOf(w, id)
  {
    if a.pc.AtComplete? {
      O.Unfold(w, id, a, script);
    }
  }

  lemma MarkRun(w: World, id: string, a: Actor, script: Script)
    requires AllUpBut(script, Post, SaveBank) && a.pc == AtMark(false) && id in w.repo.rows
    ensures var (after, ok) := RunFrom(w, id, a, script);
            var v := SliceOf(w, id);
            !ok && SliceOf(after, id) ==
              v.(row := Some(v.row.value.(status := P.Failed)), events := SliceOf(after, id).events)
  {
    assert script(Mark).write == P.Done;
    O.Unfold(w, id, a, script);
    MarkedSlice(w, id, a, script(Mark));
    var (marked, b) := StepMark(w, id, a, script(Mark));
    EndRun(marked, id, b, script);
  }

  /** A payment rolled back with every call of the rollback getting through. */
  lemma UndoRun(w: World, id: string, a: Actor, script: Script)
    requires AllUpBut(script, Post, SaveBank) && BankSound(w.bank) && CL.Valid(w.consent) && id in w.repo.rows
    requires id != ""
    requires a.pc.AtUndoBank? && !a.pc.failed
    requires Owns(SliceOf(w, id), a.memory) && SliceOf(w, id).hold != Some("")
    requires SliceOf(w, id).holdStatus != Some(C.Confirmed)
    ensures var (after, ok) := RunFrom(w, id, a, script);
            var v := Released(GivenBack(SliceOf(w, id), a.memory, a.pc.reverseBank), a.memory);
            !ok && SliceOf(after, id) ==
              v.(row := Some(w.repo.rows[id].(status := P.Failed)), events := SliceOf(after, id).events)
  {
    UndoBankRun(w, id, a, script, StepUndoBank(w, a, script(UndoBank)));
    UndoBankSlice(w, id, a, script(UndoBank));
    var w1 := StepUndoBank(w, a, script(UndoBank)).0;
    var b := a.(pc := AtRelease(false));
    ReleaseRun(w1, id, b, script);
    var w2 := StepRelease(w1, b, script(Release)).0;
    MarkRun(w2, id, b.(pc := AtMark(false)), script);
  }

  /** The slice of a payment that is posted (unless it was), settled and confirmed. */
  lemma FinishedSlice(w: World, id: string, kind: Kind, p: P.Payment, now: int)
    requires CL.Valid(w.consent) && id in w.repo.rows && id != "" && SliceOf(w, id).hold != Some("")
    requires p.reservation.Some? && SliceOf(w, id).hold == p.reservation
    ensures var v, after := SliceOf(w, id), SliceOf(Finish(w, id, kind, p, now), id);
            && after.row == Some(w.repo.rows[id].(status := P.Settled))
            && after.taken == v.taken && after.entry == v.entry
            && after.holdStatus == (if v.holdStatus == Some(C.Held) then Some(C.Confirmed) else v.holdStatus)
  {
    OwnSettle(w, id, p.status, true);
    OwnConfirm(Settled(w, id, p), id, p.reservation.value, now);
  }

  lemma NotConfirmedInFlight(s: Sys, id: string)
    requires Inv(s) && id in s.w.repo.rows && P.InFlight(s.w.repo.rows[id].status)
    ensures SliceOf(s.w, id).holdStatus != Some(C.Confirmed)
  {
    assert TableSound(s.w, PaymentTable) && TableSound(s.w, ConsentTables);
    assert InvAt(s, id);
    assert CL.UsageMatches(s.w.consent, id);
  }

  predicate Terminal(v: Slice) {
    v.row.Some? && v.row.value.status in {P.Settled, P.Failed}
  }

  lemma FinishedCleanIff(v: Slice, after: Slice)
    requires Fits(v, None) && P.InFlight(v.row.value.status) && v.holdStatus != Some(C.Confirmed)
    requires v.row.value.bankRef != "" && v.row.value.bankRef in v.taken
    requires after.row == Some(v.row.value.(status := P.Settled)) && after.taken == v.taken
    requires after.entry.Some? && (v.entry.Some? ==> after.entry == v.entry)
    requires (v.entry.None? ==> !after.entry.value.reversed)
    requires after.holdStatus == (if v.holdStatus == Some(C.Held) then Some(C.Confirmed) else v.holdStatus)
    ensures Terminal(after) && (Clean(after) <==> Recoverable(v))
  {
  }

  lemma UndoneCleanIff(v: Slice, after: Slice)
    requires Fits(v, None) && P.InFlight(v.row.value.status) && v.holdStatus != Some(C.Confirmed)
    requires v.row.value.bankRef == "" || v.row.value.bankRef !in v.taken
    requires after.row == Some(v.row.value.(status := P.Failed)) && after.taken == v.taken && after.entry == v.entry
    requires after.holdStatus == (if v.row.value.reservation.Some? then Some(C.Released) else v.holdStatus)
    ensures Terminal(after) && (Clean(after) <==> Recoverable(v))
  {
  }

  lemma ResumedIsCleanIff(w: World, id: string, script: Script)
    requires Sound(w) && ClientId(id) && id in w.repo.rows && AllUp(script) && Postable(w.repo.rows[id])
    requires Fits(SliceOf(w, id), None) && P.InFlight(w.repo.rows[id].status)
    requires SliceOf(w, id).holdStatus != Some(C.Confirmed)
    requires w.repo.rows[id].bankRef != "" && w.repo.rows[id].bankRef in SliceOf(w, id).taken
    ensures var after := RunFrom(w, id, Pending(Resumed, AtPost, w.repo.rows[id]), script).0;
            Terminal(SliceOf(after, id)) && (Clean(SliceOf(after, id)) <==> Recoverable(SliceOf(w, id)))
  {
    var p := w.repo.rows[id];
    var a := Pending(Resumed, AtPost, p);
    assert TableSound(w, ConsentTables) && TableSound(w, JournalBooks) && TableSound(w, JournalPairs);
    ResumedSlice(w, id, a, script);
    FinishedCleanIff(SliceOf(w, id), SliceOf(RunFrom(w, id, a, script).0, id));
  }

  lemma ResumedSlice(w: World, id: string, a: Actor, script: Script)
    requires CL.Valid(w.consent) && LL.Books(w.ledger) && LL.Paired(w.ledger) && ClientId(id) && AllUp(script)
    requires a.pc.AtPost? && Postable(a.memory) && 1 <= a.memory.amount <= INT64_MAX
    requires id in w.repo.rows && SliceOf(w, id).hold == a.memory.reservation
    requires a.memory.reservation !in {None, Some("")}
    ensures var v, after := SliceOf(w, id), SliceOf(RunFrom(w, id, a, script).0, id);
            && after.row == Some(w.repo.rows[id].(status := P.Settled)) && after.taken == v.taken
            && after.entry.Some? && (v.entry.Some? ==> after.entry == v.entry)
                 && (v.entry.None? ==> !after.entry.value.reversed)
            && after.holdStatus == (if v.holdStatus == Some(C.Held) then Some(C.Confirmed) else v.holdStatus)
  {
    PostSucceedsIff(w.ledger, id, PostText(a.kind, id), a.memory);
    ResumeRun(w, id, a, script);
    PostedSlice(w, id, a);
    FinishedSlice(w.(ledger := Posting(w, id, a).0), id, a.kind, a.memory, script(Confirm).now);
  }

  lemma PostedSlice(w: World, id: string, a: Actor)
    requires ClientId(id) && LL.Books(w.ledger) && LL.Paired(w.ledger)
    requires Postable(a.memory) && 1 <= a.memory.amount <= INT64_MAX
    ensures var v, after := SliceOf(w, id), SliceOf(w.(ledger := Posting(w, id, a).0), id);
            && after == v.(entry := after.entry)
            && after.entry.Some? && (v.entry.Some? ==> after.entry == v.entry)
                 && (v.entry.None? ==> !after.entry.value.reversed)
  {
    PostSucceedsIff(w.ledger, id, PostText(a.kind, id), a.memory);
    PostedSliceOf(w, id, PostText(a.kind, id), SagaLines(a.memory));
  }

  lemma PostedSliceOf(w: World, id: string, text: string, lines: seq<L.LineInput>)
    requires ClientId(id) && LL.Books(w.ledger) && LL.Paired(w.ledger) && L.Post(w.ledger, id, text, lines).1.None?
    ensures var v, after := SliceOf(w, id), SliceOf(w.(ledger := L.Post(w.ledger, id, text, lines).0), id);
            && after == v.(entry := after.entry)
            && after.entry.Some? && (v.entry.Some? ==> after.entry == v.entry)
                 && (v.entry.None? ==> !after.entry.value.reversed)
  {
    OwnPost(w, id, text, lines);
  }

  lemma UndoneIsCleanIff(w: World, id: string, script: Script)
    requires Sound(w) && ClientId(id) && id in w.repo.rows && AllUp(script)
    requires Fits(SliceOf(w, id), None) && P.InFlight(w.repo.rows[id].status)
    requires SliceOf(w, id).holdStatus != Some(C.Confirmed)
    requires w.repo.rows[id].bankRef == "" || w.repo.rows[id].bankRef !in SliceOf(w, id).taken
    ensures var p := w.repo.rows[id];
            var after := RunFrom(w, id, Pending(Stale, AtUndoBank(false, p.bankRef != ""), p), script).0;
            Terminal(SliceOf(after, id)) && (Clean(SliceOf(after, id)) <==> Recoverable(SliceOf(w, id)))
  {
    var p := w.repo.rows[id];
    assert TableSound(w, ConsentTables) && TableSound(w, BankTable);
    var a := Pending(Stale, AtUndoBank(false, p.bankRef != ""), p);
    UndoRun(w, id, a, script);
    UndoneCleanIff(SliceOf(w, id), SliceOf(RunFrom(w, id, a, script).0, id));
  }

  /** A resumed payment the ledger refuses is rolled back. */
  lemma RefusedRun(w: World, id: string, a: Actor, script: Script)
    requires AllUp(script) && a.pc.AtPost? && Posting(w, id, a).1.Some?
    ensures RunFrom(w, id, a, script) == RunFrom(w, id, a.(pc := AtUndoBank(false, true)), script)
  {
    assert script(Post).up;
    O.Unfold(w, id, a, script);
    RefusedPost(w.ledger, id, PostText(a.kind, id), SagaLines(a.memory));
    assert StepPost(w, id, a, script(Post)) == (w, a.(pc := AtUndoBank(false, true)));
  }

  lemma RefusedPost(l: L.Ledger, id: string, text: string, lines: seq<L.LineInput>)
    requires L.Post(l, id, text, lines).1.Some?
    ensures L.Post(l, id, text, lines).0 == l
  {
  }

  lemma RefusedCleanIff(v: Slice, after: Slice)
    requires Fits(v, None) && P.InFlight(v.row.value.status)
    requires v.row.value.bankRef != "" && v.row.value.bankRef in v.taken
    requires after.row == Some(v.row.value.(status := P.Failed)) && after.taken == v.taken - {v.row.value.bankRef}
    requires after.entry == v.entry && after.holdStatus == Some(C.Released)
    ensures Terminal(after) && (Clean(after) <==> v.taken == {v.row.value.bankRef} && NoEntry(v))
  {
    assert v.taken == (v.taken - {v.row.value.bankRef}) + {v.row.value.bankRef};
  }

  lemma RefusedIsCleanIff(w: World, id: string, script: Script)
    requires Sound(w) && ClientId(id) && id in w.repo.rows && AllUp(script) && !Postable(w.repo.rows[id])
    requires Fits(SliceOf(w, id), None) && P.InFlight(w.repo.rows[id].status)
    requires SliceOf(w, id).holdStatus != Some(C.Confirmed)
    requires w.repo.rows[id].bankRef != "" && w.repo.rows[id].bankRef in SliceOf(w, id).taken
    ensures var after := RunFrom(w, id, Pending(Resumed, AtPost, w.repo.rows[id]), script).0;
            var v := SliceOf(w, id);
            && Terminal(SliceOf(after, id))
            && (Clean(SliceOf(after, id)) <==> v.taken == {w.repo.rows[id].bankRef} && NoEntry(v))
  {
    var p := w.repo.rows[id];
    var a := Pending(Resumed, AtPost, p);
    var b := a.(pc := AtUndoBank(false, true));
    assert TableSound(w, ConsentTables) && TableSound(w, BankTable);
    PostSucceedsIff(w.ledger, id, PostText(Resumed, id), p);
    RefusedRun(w, id, a, script);
    UndoRun(w, id, b, script);
    RefusedCleanIff(SliceOf(w, id), SliceOf(RunFrom(w, id, b, script).0, id));
  }

  /** What the reconciler can put right: a recoverable payment, or one the bank took, the ledger will not accept,
      and nothing is posted of. */
  predicate Mendable(v: Slice)
    requires v.row.Some?
  {
    var p := v.row.value;
    if p.bankRef != "" && p.bankRef in v.taken && !Postable(p) then v.taken == {p.bankRef} && NoEntry(v)
    else Recoverable(v)
  }

  /** In any state of any run, clean or not: let a stale payment be taken up by the reconciler, with every call
      getting through. It ends SETTLED or FAILED, and the four stores agree with that ending exactly when they
      were mendable: the money is known and nothing has been undone, or nothing is out but a hold the row
      knows. */
  lemma RecoveryIsCleanIff(run: seq<Label>, id: string, script: Script)
    requires AllUp(script) && id in Exec(run).w.repo.rows && id !in Exec(run).actors
    requires P.InFlight(Exec(run).w.repo.rows[id].status)
    ensures var w := Exec(run).w;
            var a := Recover(w, w.repo.rows[id], true);
            && a.Some?
            && var after := RunFrom(w, id, a.value, script).0;
               Terminal(SliceOf(after, id)) && (Clean(SliceOf(after, id)) <==> Mendable(SliceOf(w, id)))
  {
    var s := Exec(run);
    var p := s.w.repo.rows[id];
    RunKeepsInv(run);
    NotConfirmedInFlight(s, id);
    assert TableSound(s.w, PaymentTable);
    assert InvAt(s, id);
    if p.bankRef == "" || p.bankRef !in SliceOf(s.w, id).taken {
      UndoneIsCleanIff(s.w, id, script);
    } else if Postable(p) {
      ResumedIsCleanIff(s.w, id, script);
    } else {
      RefusedIsCleanIff(s.w, id, script);
    }
  }

  /** In particular: a crash between the reservation and its recording leaves a hold the row does not know, and
      such a payment ends FAILED with the hold standing. */
  lemma UnrecordedHoldStays(run: seq<Label>, id: string, script: Script)
    requires AllUp(script) && id in Exec(run).w.repo.rows && id !in Exec(run).actors
    requires Exec(run).w.repo.rows[id].status == P.Initiated && HoldStatusOf(Exec(run).w.consent, id) == Some(C.Held)
    requires Exec(run).w.repo.rows[id].reservation.None?
    ensures var w := Exec(run).w;
            var a := Recover(w, w.repo.rows[id], true);
            && a.Some?
            && var after := RunFrom(w, id, a.value, script).0;
            && id in after.repo.rows && after.repo.rows[id].status == P.Failed
            && HoldStatusOf(after.consent, id) == Some(C.Held)
  {
    var s := Exec(run);
    RunKeepsInv(run);
    assert TableSound(s.w, PaymentTable) && TableSound(s.w, ConsentTables) && TableSound(s.w, BankTable);
    assert InvAt(s, id);
    var p := s.w.repo.rows[id];
    UndoRun(s.w, id, Pending(Stale, AtUndoBank(false, false), p), script);
  }
}
