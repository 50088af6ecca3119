/** The reconciliation worker (payment-svc, reconciliation.go): each pass lists at most fifty stale payments,
    oldest first, and finishes or rolls back every one of them. */
module Reconciliation {
  import opened Basics
  import opened Saga
  import opened Platform
  import opened Slices
  import opened AllRuns
  import B = Banks
  import P = Payments
  import O = Orchestration

  const PASS_LIMIT := 50

  // ---------- the listing ----------

  function Kept<K>(keys: seq<K>, f: K -> bool): seq<K> {
    if keys == [] then []
    else
      var last := keys[|keys| - 1];
      Kept(keys[..|keys| - 1], f) + (if f(last) then [last] else [])
  }

  predicate InFlightRow(rows: map<string, P.Payment>, id: string) {
    id in rows && P.InFlight(rows[id].status)
  }

  /** `aged` lists the payments last written before the threshold, oldest first; those still in flight are stale. */
  function StaleIn(r: P.Repo, aged: seq<string>): seq<string> {
    Kept(aged, id => InFlightRow(r.rows, id))
  }

  function Listed(r: P.Repo, aged: seq<string>): seq<string> {
    var stale := StaleIn(r, aged);
    if |stale| <= PASS_LIMIT then stale else stale[..PASS_LIMIT]
  }

  lemma {:induction false} KeptMember<K>(keys: seq<K>, f: K -> bool, k: K)
    ensures k in Kept(keys, f) <==> k in keys && f(k)
  {
    if keys != [] {
      KeptMember(keys[..|keys| - 1], f, k);
      assert keys == keys[..|keys| - 1] + [keys[|keys| - 1]];
    }
  }

  /** When the first `m` survivors drop out and nothing else changes, the rest survive in order. */
  lemma {:induction false} KeptDropsPrefix<K>(keys: seq<K>, f: K -> bool, g: K -> bool, m: nat)
    requires Distinct(keys) && m <= |Kept(keys, f)|
    requires forall k :: k in Kept(keys, f)[..m] ==> !g(k)
    requires forall k :: k in keys && k !in Kept(keys, f)[..m] ==> g(k) == f(k)
    ensures Kept(keys, g) == Kept(keys, f)[m..]
  {
    if keys != [] {
      var front, last := keys[..|keys| - 1], keys[|keys| - 1];
      assert keys == front + [last];
      var before := Kept(front, f);
      var n := if m <= |before| then m else |before|;
      assert Kept(keys, f)[..m][..n] == before[..n];
      KeptMember(front, f, last);
      forall k | k in front && k !in before[..n] ensures g(k) == f(k) {
        KeptMember(front, f, k);
        assert k !in Kept(keys, f)[..m];
      }
      KeptDropsPrefix(front, f, g, n);
      if m <= |before| {
        assert last !in before[..m];
        assert last !in Kept(keys, f)[..m];
      } else {
        assert Kept(keys, f)[..m] == before + [last];
      }
    }
  }

  // ---------- one pass ----------

  /** One payment of the listing: `answers` says whether the bank answers the status query. */
  function TakeUp(w: World, id: string, p: P.Payment, answers: bool, script: Script): World {
    match Recover(w, p, answers)
    case None => w
    case Some(a) => RunFrom(w, id, a, script).0
  }

  /** The rows are read when the pass starts. */
  function Over(w: World, rows: map<string, P.Payment>, ids: seq<string>, answers: string -> bool,
                scripts: string -> Script): World
    requires forall id :: id in ids ==> id in rows
  {
    if ids == [] then w
    else
      var id := ids[|ids| - 1];
      TakeUp(Over(w, rows, ids[..|ids| - 1], answers, scripts), id, rows[id], answers(id), scripts(id))
  }

  lemma ListedAreRows(r: P.Repo, aged: seq<string>, id: string)
    requires id in Listed(r, aged)
    ensures InFlightRow(r.rows, id) && id in aged
  {
    assert id in StaleIn(r, aged);
    KeptMember(aged, x => InFlightRow(r.rows, x), id);
  }

  function Pass(w: World, aged: seq<string>, answers: string -> bool, scripts: string -> Script): World {
    assert forall id :: id in Listed(w.repo, aged) ==> id in w.repo.rows by {
      forall id | id in Listed(w.repo, aged) ensures id in w.repo.rows {
        ListedAreRows(w.repo, aged, id);
      }
    }
    Over(w, w.repo.rows, Listed(w.repo, aged), answers, scripts)
  }

  class ReconciliationWorker {
    const orchestrator: O.Orchestrator

    constructor (o: O.Orchestrator)
      ensures orchestrator == o
    {
      orchestrator := o;
    }

    method List(aged: seq<string>) returns (list: seq<string>)
      ensures list == Listed(orchestrator.repo.View(), aged)
      ensures |list| <= 50 && list <= StaleIn(orchestrator.repo.View(), aged)
    {
      var rows := orchestrator.repo.rows;
      list := [];
      var all := [];
      var i := 0;
      while i < |aged|
        invariant 0 <= i <= |aged|
        invariant all == Kept(aged[..i], id => InFlightRow(rows, id))
      {
        assert aged[..i + 1][..i] == aged[..i];
        if InFlightRow(rows, aged[i]) {
          all := all + [aged[i]];
        }
        i := i + 1;
      }
      assert aged[..i] == aged;
      list := if |all| <= PASS_LIMIT then all else all[..PASS_LIMIT];
    }

    /** One payment: ask the bank if it was reached, then resume or roll back. */
    method Reconcile(id: string, p: P.Payment, answers: bool, script: Script)
      modifies orchestrator, orchestrator.repo, orchestrator.consent, orchestrator.bank, orchestrator.ledger
      ensures orchestrator.View() == TakeUp(old(orchestrator.View()), id, p, answers, script)
    {
      if p.bankRef != "" {
        var status := None;
        if answers {
          status := orchestrator.bank.HandleStatus(p.bankRef);
        }
        if status.None? {
          return;
        }
        if status.value == B.Settled {
          var _ := orchestrator.ResumeFromLedger(id, p, script);
          return;
        }
      }
      orchestrator.CompensateStale(id, p, script);
    }

    /** One pass; nothing happens if the listing itself fails. */
    method ReconcileStalePayments(aged: seq<string>, listing: bool, answers: string -> bool, scripts: string -> Script)
      modifies orchestrator, orchestrator.repo, orchestrator.consent, orchestrator.bank, orchestrator.ledger
      ensures orchestrator.View() ==
                if listing then Pass(old(orchestrator.View()), aged, answers, scripts) else old(orchestrator.View())
    {
      if !listing {
        return;
      }
      var rows := orchestrator.repo.rows;
      var list := List(aged);
      forall id | id in list ensures id in rows {
        ListedAreRows(orchestrator.repo.View(), aged, id);
      }
      var i := 0;
      while i < |list|
        invariant 0 <= i <= |list|
        invariant orchestrator.View() == Over(old(orchestrator.View()), rows, list[..i], answers, scripts)
      {
        assert list[..i + 1][..i] == list[..i];
        Reconcile(list[i], rows[list[i]], answers(list[i]), scripts(list[i]));
        i := i + 1;
      }
      assert list[..i] == list;
    }
  }

  /** A payment the bank was asked for is left alone as long as the bank does not answer; one it was never asked for is
      rolled back without asking; one it has settled is resumed. */
  lemma TakeUpDecides(w: World, id: string, p: P.Payment, script: Script)
    ensures p.bankRef != "" ==> TakeUp(w, id, p, false, script) == w
    ensures p.bankRef == "" ==>
              TakeUp(w, id, p, false, script) == TakeUp(w, id, p, true, script)
              == RunFrom(w, id, Pending(Stale, AtUndoBank(false, false), p), script).0
    ensures p.bankRef != "" && p.bankRef in w.bank ==>
              TakeUp(w, id, p, true, script) ==
                if w.bank[p.bankRef].status == B.Settled then RunFrom(w, id, Pending(Resumed, AtPost, p), script).0
                else RunFrom(w, id, Pending(Stale, AtUndoBank(false, true), p), script).0
  {
  }

  // ---------- every listed payment reaches a terminal status ----------

  /** Past the bank's answer: nothing is generated any more. */
  predicate PastBank(pc: Pc) {
    Rank(pc) <= Rank(AtPost)
  }

  /** Everything but one payment is as it was. */
  ghost predicate OthersKept(w: World, after: World, id: string) {
    after.repo.rows.Keys == w.repo.rows.Keys && forall o :: ClientId(o) && o != id ==>
      SliceOf(after, o) == SliceOf(w, o)
  }

  lemma StepEffect(s: Sys, id: string, a: Actor, ans: Answer)
    requires Inv(s) && id in s.actors && s.actors[id] == a && Generated(s.w, a, ans)
    ensures var (w, b) := Advance(s.w, id, a, ans);
            && Inv(Sys(w, if b.pc.AtEnd? then s.actors - {id} else s.actors[id := b])) && OthersKept(s.w, w, id)
  {
    assert TableSound(s.w, PaymentTable);
    StepKeepsInv(s, id, a, ans);
    AdvanceKeepsKeys(s.w, id, a, ans);
    StepElsewhere(s, id, a, ans);
  }

  lemma OthersKeptTwice(w: World, mid: World, after: World, id: string)
    requires OthersKept(w, mid, id) && OthersKept(mid, after, id)
    ensures OthersKept(w, after, id)
  {
    forall o | ClientId(o) && o != id ensures SliceOf(after, o) == SliceOf(w, o) {
      assert SliceOf(mid, o) == SliceOf(w, o);
    }
  }

  /** Run to its end, an actor past the bank leaves the invariant in place and the other payments alone. */
  lemma {:induction false} RunEffect(s: Sys, id: string, a: Actor, script: Script)
    requires id in s.actors && s.actors[id] == a && Inv(s) && PastBank(a.pc) && !a.pc.AtEnd?
    ensures var w := RunFrom(s.w, id, a, script).0;
            Inv(Sys(w, s.actors - {id})) && OthersKept(s.w, w, id)
    decreases Rank(a.pc), 0
  {
    var ans := script(StageOf(a.pc));
    AdvanceDescends(s.w, id, a, ans);
    O.Unfold(s.w, id, a, script);
    StepEffect(s, id, a, ans);
    RestEffect(s, id, Advance(s.w, id, a, ans), script);
  }

  lemma {:induction false} RestEffect(s: Sys, id: string, next: (World, Actor), script: Script)
    requires id in s.actors && PastBank(next.1.pc) && OthersKept(s.w, next.0, id)
    requires Inv(Sys(next.0, if next.1.pc.AtEnd? then s.actors - {id} else s.actors[id := next.1]))
    ensures var w := RunFrom(next.0, id, next.1, script).0;
            Inv(Sys(w, s.actors - {id})) && OthersKept(s.w, w, id)
    decreases Rank(next.1.pc), 1
  {
    if !next.1.pc.AtEnd? {
      var mid := Sys(next.0, s.actors[id := next.1]);
      RunEffect(mid, id, next.1, script);
      assert mid.actors - {id} == s.actors - {id};
      OthersKeptTwice(s.w, next.0, RunFrom(next.0, id, next.1, script).0, id);
    }
  }

  lemma {:induction false} RunEndsTerminal(w: World, id: string, a: Actor, script: Script)
    requires id in w.repo.rows && script(Mark).write != P.Lost && Rank(a.pc) <= Rank(AtPost)
    requires a.pc.AtEnd? || a.pc.AtConfirm? || a.pc.AtComplete? ==> !P.InFlight(w.repo.rows[id].status)
    ensures var after := RunFrom(w, id, a, script).0; id in after.repo.rows && !P.InFlight(after.repo.rows[id].status)
    decreases Rank(a.pc)
  {
    if !a.pc.AtEnd? {
      var ans := script(StageOf(a.pc));
      AdvanceDescends(w, id, a, ans);
      O.Unfold(w, id, a, script);
      StepTowardsEnd(w, id, a, ans);
      RunEndsTerminal(Advance(w, id, a, ans).0, id, Advance(w, id, a, ans).1, script);
    }
  }

  lemma StepTowardsEnd(w: World, id: string, a: Actor, ans: Answer)
    requires id in w.repo.rows && (a.pc.AtMark? ==> ans.write != P.Lost) && Rank(a.pc) <= Rank(AtPost)
    requires a.pc.AtEnd? || a.pc.AtConfirm? || a.pc.AtComplete? ==> !P.InFlight(w.repo.rows[id].status)
    ensures var (after, b) := Advance(w, id, a, ans);
            && id in after.repo.rows
            && (b.pc.AtEnd? || b.pc.AtConfirm? || b.pc.AtComplete? ==> !P.InFlight(after.repo.rows[id].status))
  {
    if a.pc.AtMark? {
      MarkEnds(w, id, a, ans);
    } else if a.pc.AtSettle? {
      SettleEnds(w, id, a, ans);
    } else if a.pc.AtEnd? || a.pc.AtConfirm? || a.pc.AtComplete? {
      OtherStepsKeepRows(w, id, a, ans);
    } else {
      OtherStepsKeepRows(w, id, a, ans);
      NotEndedElsewhere(w, id, a, ans);
    }
  }

  lemma NotEndedElsewhere(w: World, id: string, a: Actor, ans: Answer)
    requires Rank(a.pc) <= Rank(AtPost) && !a.pc.AtMark? && !a.pc.AtSettle?
    requires !a.pc.AtEnd? && !a.pc.AtConfirm? && !a.pc.AtComplete?
    ensures var pc := Advance(w, id, a, ans).1.pc; !pc.AtEnd? && !pc.AtConfirm? && !pc.AtComplete?
  {
  }

  lemma SettleEnds(w: World, id: string, a: Actor, ans: Answer)
    requires id in w.repo.rows && a.pc.AtSettle?
    ensures var (after, b) := StepSettle(w, id, a, ans);
            id in after.repo.rows && (b.pc.AtConfirm? ==> !P.InFlight(after.repo.rows[id].status))
            && (b.pc.AtConfirm? || b.pc.AtUndoLedger?)
  {
  }

  /** One stale payment, whatever the ledger, consent and bank-reverse calls answer. */
  lemma TakeUpEffect(s: Sys, id: string, script: Script)
    requires Inv(s) && id !in s.actors && InFlightRow(s.w.repo.rows, id) && script(Mark).write != P.Lost
    ensures var w := TakeUp(s.w, id, s.w.repo.rows[id], true, script);
            && Inv(Sys(w, s.actors)) && OthersKept(s.w, w, id)
            && id in w.repo.rows && !P.InFlight(w.repo.rows[id].status)
  {
    AnsweredMeansTaken(s, id);
    var a := Recover(s.w, s.w.repo.rows[id], true).value;
    RecoveredPc(s.w, s.w.repo.rows[id]);
    TakenUpKeeps(s, id, a, script);
    RunEndsTerminal(s.w, id, a, script);
  }

  lemma RecoveredPc(w: World, p: P.Payment)
    ensures var a := Recover(w, p, true); a.Some? ==> a.value.pc.AtUndoBank? || a.value.pc.AtPost?
  {
  }

  lemma TakenUpKeeps(s: Sys, id: string, a: Actor, script: Script)
    requires Inv(s) && id !in s.actors && InFlightRow(s.w.repo.rows, id)
    requires Recover(s.w, s.w.repo.rows[id], true) == Some(a) && (a.pc.AtUndoBank? || a.pc.AtPost?)
    ensures var w := RunFrom(s.w, id, a, script).0; Inv(Sys(w, s.actors)) && OthersKept(s.w, w, id)
  {
    ReconcileKeepsInv(s, id, true);
    var taken := s.(actors := s.actors[id := a]);
    RunEffect(taken, id, a, script);
    assert taken.actors - {id} == s.actors;
  }

  lemma AnsweredMeansTaken(s: Sys, id: string)
    requires Inv(s) && InFlightRow(s.w.repo.rows, id)
    ensures Recover(s.w, s.w.repo.rows[id], true).Some?
  {
    assert TableSound(s.w, PaymentTable);
    assert InvAt(s, id);
  }

  // ---------- a pass, and many passes ----------

  ghost predicate Drained(w: World, after: World, ids: seq<string>) {
    && after.repo.rows.Keys == w.repo.rows.Keys
    && (forall id :: id in ids ==> id in after.repo.rows && !P.InFlight(after.repo.rows[id].status))
    && (forall o :: ClientId(o) && o !in ids ==> SliceOf(after, o) == SliceOf(w, o))
  }

  /** The payment is stale, nobody works on it, and its final mark will be written. */
  ghost predicate Due(s: Sys, id: string, script: Script) {
    ClientId(id) && id !in s.actors && InFlightRow(s.w.repo.rows, id) && script(Mark).write != P.Lost
  }

  lemma {:induction false} OverDrains(s: Sys, ids: seq<string>, scripts: string -> Script)
    requires Inv(s) && Distinct(ids)
    requires forall id :: id in ids ==> id in s.w.repo.rows
    requires forall id :: id in ids ==> Due(s, id, scripts(id))
    ensures var w := Over(s.w, s.w.repo.rows, ids, _ => true, scripts);
            Inv(Sys(w, s.actors)) && Drained(s.w, w, ids)
  {
    if ids != [] {
      var n := |ids| - 1;
      var front, id := ids[..n], ids[n];
      assert id in ids && id !in front && ids == front + [id];
      OverDrains(s, front, scripts);
      var mid := Over(s.w, s.w.repo.rows, front, _ => true, scripts);
      OneMore(s, mid, front, id, scripts(id));
      forall k | k in front ensures ClientId(k) {
        assert k in ids;
      }
      DrainedOneMore(s.w, mid, TakeUp(mid, id, s.w.repo.rows[id], true, scripts(id)), front, id);
    }
  }

  lemma OneMore(s: Sys, mid: World, front: seq<string>, id: string, script: Script)
    requires Inv(s) && Inv(Sys(mid, s.actors)) && Drained(s.w, mid, front) && id !in front && Due(s, id, script)
    ensures var after := TakeUp(mid, id, s.w.repo.rows[id], true, script);
            && Inv(Sys(after, s.actors)) && OthersKept(mid, after, id)
            && id in after.repo.rows && !P.InFlight(after.repo.rows[id].status)
  {
    SameRow(s, mid, id, front);
    TakeUpEffect(Sys(mid, s.actors), id, script);
  }

  lemma SameRow(s: Sys, mid: World, id: string, front: seq<string>)
    requires Inv(s) && Drained(s.w, mid, front) && id !in front && id in s.w.repo.rows
    ensures id in mid.repo.rows && mid.repo.rows[id] == s.w.repo.rows[id]
  {
    assert TableSound(s.w, PaymentTable);
    assert SliceOf(mid, id) == SliceOf(s.w, id);
    assert SliceOf(s.w, id).row.Some?;
  }

  lemma DrainedOneMore(w: World, mid: World, after: World, front: seq<string>, id: string)
    requires Drained(w, mid, front) && OthersKept(mid, after, id) && id !in front
    requires id in after.repo.rows && !P.InFlight(after.repo.rows[id].status)
    requires forall k :: k in front ==> ClientId(k)
    ensures Drained(w, after, front + [id])
  {
    forall k | k in front ensures k in after.repo.rows && !P.InFlight(after.repo.rows[k].status) {
      assert SliceOf(after, k) == SliceOf(mid, k);
      assert SliceOf(mid, k).row.Some?;
    }
    forall o | ClientId(o) && o !in front + [id] ensures SliceOf(after, o) == SliceOf(w, o) {
      assert id in front + [id];
      assert SliceOf(after, o) == SliceOf(mid, o);
    }
  }

  lemma {:induction false} KeptDistinct<K>(keys: seq<K>, f: K -> bool)
    requires Distinct(keys)
    ensures Distinct(Kept(keys, f))
  {
    if keys != [] {
      var front, last := keys[..|keys| - 1], keys[|keys| - 1];
      KeptDistinct(front, f);
      KeptMember(front, f, last);
    }
  }

  /** The stale payments are a fixed set on which nobody works, whatever happens to them here. */
  ghost predicate Unattended(s: Sys, aged: seq<string>) {
    Distinct(aged) && forall id :: id in aged ==> ClientId(id) && id !in s.actors
  }

  ghost predicate MarksWritten(scripts: string -> Script) {
    forall id :: scripts(id)(Mark).write != P.Lost
  }

  /** One pass moves exactly the listed payments, the oldest ones, to a terminal status. */
  lemma PassDrains(s: Sys, aged: seq<string>, scripts: string -> Script)
    requires Inv(s) && Unattended(s, aged) && MarksWritten(scripts)
    ensures var w := Pass(s.w, aged, _ => true, scripts);
            && Inv(Sys(w, s.actors))
            && StaleIn(w.repo, aged) == StaleIn(s.w.repo, aged)[|Listed(s.w.repo, aged)|..]
  {
    var ids := Listed(s.w.repo, aged);
    KeptDistinct(aged, id => InFlightRow(s.w.repo.rows, id));
    forall id | id in ids ensures id in s.w.repo.rows && Due(s, id, scripts(id)) {
      ListedAreRows(s.w.repo, aged, id);
    }
    OverDrains(s, ids, scripts);
    var w := Over(s.w, s.w.repo.rows, ids, _ => true, scripts);
    assert ids == StaleIn(s.w.repo, aged)[..|ids|];
    forall id | id in aged && id !in ids ensures InFlightRow(w.repo.rows, id) == InFlightRow(s.w.repo.rows, id) {
      assert SliceOf(w, id) == SliceOf(s.w, id);
      assert SliceOf(w, id).row == SliceOf(s.w, id).row;
    }
    KeptDropsPrefix(aged, id => InFlightRow(s.w.repo.rows, id), id => InFlightRow(w.repo.rows, id), |ids|);
  }

  /** Pass after pass, each with its own answers. */
  function Passes(w: World, aged: seq<string>, passes: seq<string -> Script>): World {
    if passes == [] then w
    else Pass(Passes(w, aged, passes[..|passes| - 1]), aged, _ => true, passes[|passes| - 1])
  }

  lemma {:induction false} PassesDrain(s: Sys, aged: seq<string>, passes: seq<string -> Script>)
    requires Inv(s) && Unattended(s, aged) && forall i :: 0 <= i < |passes| ==> MarksWritten(passes[i])
    ensures var w := Passes(s.w, aged, passes);
            var n := |StaleIn(s.w.repo, aged)|;
            && Inv(Sys(w, s.actors))
            && |StaleIn(w.repo, aged)| == if n <= PASS_LIMIT * |passes| then 0 else n - PASS_LIMIT * |passes|
  {
    if passes != [] {
      var front := passes[..|passes| - 1];
      PassesDrain(s, aged, front);
      PassDrains(Sys(Passes(s.w, aged, front), s.actors), aged, passes[|passes| - 1]);
    }
  }

  /** From any state of any run: if the bank answers status queries and the final marks are written, then after
      k passes max(0, N - 50 k) of N stale payments are left, whatever the ledger, the consent service and
      the bank's reversals answer. */
  lemma ReconciliationDrains(run: seq<Label>, aged: seq<string>, passes: seq<string -> Script>)
    requires Unattended(Exec(run), aged) && forall i :: 0 <= i < |passes| ==> MarksWritten(passes[i])
    ensures var n := |StaleIn(Exec(run).w.repo, aged)|;
            |StaleIn(Passes(Exec(run).w, aged, passes).repo, aged)|
              == if n <= 50 * |passes| then 0 else n - 50 * |passes|
  {
    RunKeepsInv(run);
    PassesDrain(Exec(run), aged, passes);
  }
}
