/** Compensation converges: compensateFull may be called any number of times, each call failing in any of
    its parts. */
module Compensation {
  import opened Basics
  import opened Saga
  import opened Platform
  import opened Slices
  import opened AllRuns
  import opened CleanRuns
  import opened Recovery
  import opened Orchestration
  import B = Banks
  import C = Consents
  import L = Ledgers
  import P = Payments

  /** The world after the calls, one script per call, in order. */
  function Repeated(w: World, id: string, p: P.Payment, scripts: seq<Script>): World {
    if scripts == [] then w
    else UndoAll(Repeated(w, id, p, scripts[..|scripts| - 1]), id, p, scripts[|scripts| - 1]).0
  }

  /** The world with the named participants undone once. */
  function Undo(w: World, id: string, p: P.Payment, ledger: bool, bank: bool, consent: bool): World {
    w.(ledger := if ledger then L.Reverse(w.ledger, id, "settle failed").0 else w.ledger,
       bank := if bank && p.bankRef != "" then B.Reverse(w.bank, p.bankRef).0 else w.bank,
       consent := if consent && p.reservation.Some? then C.Release(w.consent, p.reservation.value).0 else w.consent)
  }

  /** Some call reached this participant. */
  ghost predicate Reached(scripts: seq<Script>, st: Stage) {
    exists i :: 0 <= i < |scripts| && scripts[i](st).up
  }

  lemma ReachedAppend(scripts: seq<Script>, st: Stage)
    requires scripts != []
    ensures Reached(scripts, st) <==> Reached(scripts[..|scripts| - 1], st) || scripts[|scripts| - 1](st).up
  {
    var front := scripts[..|scripts| - 1];
    if Reached(scripts, st) {
      var i :| 0 <= i < |scripts| && scripts[i](st).up;
      assert i < |front| ==> front[i](st).up;
    }
    if Reached(front, st) {
      var i :| 0 <= i < |front| && front[i](st).up;
      assert scripts[i](st).up;
    }
  }

  lemma ReverseTwice(l: L.Ledger, id: string)
    ensures var once := L.Reverse(l, id, "settle failed").0; L.Reverse(once, id, "settle failed").0 == once
  {
    assert |Rev(id)| != |id|;
  }

  lemma OneCall(w: World, id: string, p: P.Payment, script: Script)
    ensures UndoAll(w, id, p, script).0 ==
              Undo(w, id, p, script(UndoLedger).up, script(UndoBank).up, script(Release).up)
  {
  }

  lemma UndoTwice(w: World, id: string, p: P.Payment, l: bool, b: bool, c: bool, l': bool, b': bool, c': bool)
    ensures Undo(Undo(w, id, p, l, b, c), id, p, l', b', c') == Undo(w, id, p, l || l', b || b', c || c')
  {
    ReverseTwice(w.ledger, id);
    B.ReverseOnce(w.bank, p.bankRef, id);
  }

  /** From any state whatsoever: the outcome of any number of partially failing calls is that each participant
      some call reached is undone once. Neither the order nor the number of the failures matters. */
  lemma {:induction false} OutcomeOfRepeatedCalls(w: World, id: string, p: P.Payment, scripts: seq<Script>)
    ensures Repeated(w, id, p, scripts) ==
              Undo(w, id, p, Reached(scripts, UndoLedger), Reached(scripts, UndoBank), Reached(scripts, Release))
  {
    if scripts != [] {
      var front, last := scripts[..|scripts| - 1], scripts[|scripts| - 1];
      OutcomeOfRepeatedCalls(w, id, p, front);
      OneCall(Repeated(w, id, p, front), id, p, last);
      UndoTwice(w, id, p, Reached(front, UndoLedger), Reached(front, UndoBank), Reached(front, Release),
                last(UndoLedger).up, last(UndoBank).up, last(Release).up);
      ReachedAppend(scripts, UndoLedger);
      ReachedAppend(scripts, UndoBank);
      ReachedAppend(scripts, Release);
    }
  }

  // ---------- what that means for a payment whose settlement failed ----------

  lemma UndoSlice(w: World, id: string, p: P.Payment, l: bool, b: bool, c: bool)
    requires Sound(w) && ClientId(id)
    requires var v := SliceOf(w, id);
             && v.entry.Some? && p.bankRef != "" && p.bankRef in v.refs
             && p.reservation.Some? && v.hold == p.reservation && v.hold != Some("")
                  && v.holdStatus != Some(C.Confirmed)
    ensures var v, u := SliceOf(w, id), SliceOf(Undo(w, id, p, l, b, c), id);
            && u.entry == (if l then Some(v.entry.value.(reversed := true)) else v.entry)
            && u.taken == (if b then v.taken - {p.bankRef} else v.taken)
            && u.holdStatus == (if c then Some(C.Released) else v.holdStatus)
            && u.row == v.row
  {
    assert TableSound(w, JournalBooks) && TableSound(w, BankTable) && TableSound(w, ConsentTables);
    OwnReverse(w, id, "settle failed");
    OwnGiveBack(w, id, p.bankRef);
    OwnRelease(w, id, p.reservation.value);
  }

  /** In any state of a clean run in which a settlement has just failed: after any number of compensation
      calls, each participant is undone if and only if some call reached it; and once all three are undone,
      a further call that gets through succeeds and changes nothing. */
  lemma CompensationConverges(run: seq<Label>, id: string, scripts: seq<Script>, again: Script)
    requires CleanRun(run) && id in Exec(run).actors && Exec(run).actors[id].pc.AtUndoLedger? && AllUp(again)
    ensures var w, p := Exec(run).w, Exec(run).actors[id].memory;
            var after := Repeated(w, id, p, scripts);
            && id in after.ledger.entries
            && (after.ledger.entries[id].reversed <==> Reached(scripts, UndoLedger))
            && (B.TakenRefs(after.bank, id) == {} <==> Reached(scripts, UndoBank))
            && (HoldStatusOf(after.consent, id) == Some(C.Released) <==> Reached(scripts, Release))
            && (Undone(SliceOf(after, id)) ==> UndoAll(after, id, p, again) == (after, false))
  {
    var w, p := Exec(run).w, Exec(run).actors[id].memory;
    SettlementFailed(run, id);
    OutcomeOfRepeatedCalls(w, id, p, scripts);
    var l, b, c := Reached(scripts, UndoLedger), Reached(scripts, UndoBank), Reached(scripts, Release);
    UndoSlice(w, id, p, l, b, c);
    var after := Undo(w, id, p, l, b, c);
    assert SliceOf(after, id).entry.Some?;
    if Undone(SliceOf(after, id)) {
      NothingLeftToUndo(after, id, p, again);
    }
  }

  lemma SettlementFailed(run: seq<Label>, id: string)
    requires CleanRun(run) && id in Exec(run).actors && Exec(run).actors[id].pc.AtUndoLedger?
    ensures var w, p := Exec(run).w, Exec(run).actors[id].memory;
            var v := SliceOf(w, id);
            && Sound(w) && ClientId(id)
            && v.entry.Some? && !v.entry.value.reversed && p.bankRef != "" && p.bankRef in v.refs
                 && v.taken == {p.bankRef}
            && p.reservation.Some? && v.hold == p.reservation && v.hold != Some("") && v.holdStatus == Some(C.Held)
  {
    var s := Exec(run);
    RunClean(run);
    RunKeepsInv(run);
    assert CleanAt(s, id) && InvAt(s, id);
  }

  lemma NothingLeftToUndo(w: World, id: string, p: P.Payment, script: Script)
    requires AllUp(script) && Undone(SliceOf(w, id)) && id != "" && id in w.ledger.entries
    requires p.bankRef in w.bank && w.bank[p.bankRef].request.paymentId == id
    requires w.bank[p.bankRef].status in {B.Settled, B.Reversed}
    requires p.reservation.Some? && p.reservation != Some("") && SliceOf(w, id).hold == p.reservation
    requires SliceOf(w, id).holdStatus.Some?
    ensures UndoAll(w, id, p, script) == (w, false)
  {
    assert script(UndoLedger).up && script(UndoBank).up && script(Release).up;
    assert p.bankRef !in SliceOf(w, id).taken;
  }
}
