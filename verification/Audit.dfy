/** The status machine of a payment over every run, and its audit trail over every run without torn writes. */
module Audit {
  import opened Basics
  import opened Saga
  import opened Platform
  import opened Slices
  import opened AllRuns
  import C = Consents
  import P = Payments

  predicate Edge(from: P.Status, to: P.Status) {
    || (from == P.Initiated && to == P.ConsentReserved)
    || (from == P.ConsentReserved && to == P.RiskPassed)
    || (from == P.RiskPassed && to == P.Authorising)
    || (from == P.Authorising && to == P.Settled)
    || (P.InFlight(from) && to in {P.Failed, P.ManualReview})
    || (from == P.Failed && to == P.Initiated)
  }

  predicate Moves(before: P.Payment, after: P.Payment) {
    after.status == before.status || Edge(before.status, after.status)
  }

  // ---------- statuses ----------

  /** A legal change of a row: along an edge or in place, final statuses for good, FAILED left only by a retry,
      and a recorded bank reference kept until a retry clears it. */
  predicate Legal(before: P.Payment, after: P.Payment, retried: bool) {
    && Moves(before, after)
    && (before.status in {P.Settled, P.ManualReview} ==> after.status == before.status)
    && (before.status == P.Failed && after.status != P.Failed ==> retried)
    && (before.bankRef != "" && !retried ==> after.bankRef == before.bankRef)
  }

  lemma StatusWriteMoves(w: World, id: string, from: P.Status, to: P.Status, change: P.Payment -> P.Payment,
                         write: P.Write)
    requires id in w.repo.rows && Edge(w.repo.rows[id].status, to) && w.repo.rows[id].status != P.Failed
    requires w.repo.rows[id].bankRef != "" ==> change(w.repo.rows[id]).bankRef == w.repo.rows[id].bankRef
    ensures var repo := P.StatusWrite(w.repo, id, from, to, change, write).0;
            id in repo.rows && Legal(w.repo.rows[id], repo.rows[id], false)
  {
  }

  lemma AdvanceMoves(w: World, id: string, a: Actor, ans: Answer)
    requires id in w.repo.rows && PcFits(a.pc, w.repo.rows[id].status) && WritesRow(a.pc)
    requires a.pc.AtSaveBank? ==> w.repo.rows[id].bankRef == ""
    ensures var repo := RowStep(w, id, a, ans).0.repo;
            id in repo.rows && Legal(w.repo.rows[id], repo.rows[id], false)
  {
    var p := a.memory;
    match a.pc
    case AtSaveConsent(r, c) => StatusWriteMoves(w, id, p.status, P.ConsentReserved, P.AfterConsent(r, c), ans.write);
    case AtSaveRisk(score, d) => StatusWriteMoves(w, id, p.status, P.RiskPassed, P.AfterRisk(score, d), ans.write);
    case AtSaveBank(ref) => StatusWriteMoves(w, id, p.status, P.Authorising, P.AfterBank(ref), ans.write);
    case AtSettle =>
    case AtMark(failed) =>
      StatusWriteMoves(w, id, p.status, if failed then P.ManualReview else P.Failed, P.Unchanged(), ans.write);
  }

  lemma StepMoves(s: Sys, worker: string, ans: Answer, id: string)
    requires Inv(s) && id in s.w.repo.rows && Enabled(s, Step(worker, ans))
    ensures var rows := Advance(s.w, worker, s.actors[worker], ans).0.repo.rows;
            id in rows && Legal(s.w.repo.rows[id], rows[id], false)
  {
    var a := s.actors[worker];
    assert InvAt(s, worker) && TableSound(s.w, PaymentTable) && TableSound(s.w, ConsentTables);
    if !WritesRow(a.pc) {
      OtherStepsKeepRows(s.w, worker, a, ans);
    } else if worker == id {
      AdvanceMoves(s.w, id, a, ans);
    } else {
      RowStepFrame(s.w, worker, a, ans, id);
      assert SliceOf(s.w, id).row.Some?;
    }
  }

  predicate Retries(event: Label, id: string) {
    event.Retry? && event.id == id
  }

  lemma OtherLabelMoves(s: Sys, event: Label, id: string)
    requires id in s.w.repo.rows && !event.Step? && Enabled(s, event)
    ensures var rows := Next(s, event).w.repo.rows;
            id in rows && Legal(s.w.repo.rows[id], rows[id], Retries(event, id))
  {
  }

  lemma NextMoves(s: Sys, event: Label, id: string)
    requires Inv(s) && id in s.w.repo.rows
    ensures var rows := Next(s, event).w.repo.rows;
            id in rows && Legal(s.w.repo.rows[id], rows[id], Retries(event, id))
  {
    if Enabled(s, event) {
      if event.Step? {
        StepMoves(s, event.id, event.answer, id);
      } else {
        OtherLabelMoves(s, event, id);
      }
    }
  }

  /** Over every run and every next event: a row is never removed, and its status stays or moves along an
      edge of the machine; only a retry takes a FAILED payment anywhere or forgets a bank reference. As no
      edge leaves SETTLED or MANUAL_REVIEW, those are for good. */
  lemma StatusMachine(run: seq<Label>, event: Label, id: string)
    requires id in Exec(run).w.repo.rows
    ensures var before, after := Exec(run).w.repo.rows[id], Next(Exec(run), event).w.repo.rows;
            && id in after
            && Legal(before, after[id], Retries(event, id))
            && (after[id].status in {P.Authorising, P.Settled} ==> after[id].bankRef != "")
  {
    RunKeepsInv(run);
    NextKeepsInv(Exec(run), event);
    NextMoves(Exec(run), event, id);
    BankRefKnown(Next(Exec(run), event), id);
  }

  lemma {:induction false} ReferenceKept(s: Sys, more: seq<Label>, id: string)
    requires Inv(s) && id in s.w.repo.rows && s.w.repo.rows[id].bankRef != ""
    requires forall i :: 0 <= i < |more| ==> !Retries(more[i], id)
    ensures var after := Continue(s, more);
            Inv(after) && id in after.w.repo.rows && after.w.repo.rows[id].bankRef == s.w.repo.rows[id].bankRef
  {
    if more != [] {
      var front, last := more[..|more| - 1], more[|more| - 1];
      ReferenceKept(s, front, id);
      NextKeepsInv(Continue(s, front), last);
      NextMoves(Continue(s, front), last, id);
    }
  }

  /** Once a row has reached AUTHORISING, its bank reference stays whatever becomes of it, until a retry. So a row
      without a reference never reached AUTHORISING in this attempt. */
  lemma ReferenceStays(run: seq<Label>, more: seq<Label>, id: string)
    requires id in Exec(run).w.repo.rows && Exec(run).w.repo.rows[id].status == P.Authorising
    requires forall i :: 0 <= i < |more| ==> !Retries(more[i], id)
    ensures var rows := Continue(Exec(run), more).w.repo.rows;
            id in rows && rows[id].bankRef != "" && rows[id].bankRef == Exec(run).w.repo.rows[id].bankRef
  {
    RunKeepsInv(run);
    BankRefKnown(Exec(run), id);
    ReferenceKept(Exec(run), more, id);
  }

  lemma BankRefKnown(s: Sys, id: string)
    requires Inv(s) && id in s.w.repo.rows
    ensures s.w.repo.rows[id].status in {P.Authorising, P.Settled} ==> s.w.repo.rows[id].bankRef != ""
  {
    assert TableSound(s.w, PaymentTable);
    assert InvAt(s, id);
  }

  // ---------- the audit trail ----------

  predicate Chain(events: seq<P.Event>, status: P.Status) {
    && |events| > 0
    && events[0] == P.Event(None, P.Initiated)
    && events[|events| - 1].to == status
    && forall i :: 0 < i < |events| ==> events[i].from == Some(events[i - 1].to) && Edge(events[i - 1].to, events[i].to)
  }

  /** The trail leads to the row, and whoever works on the payment knows its status. */
  ghost predicate Traced(v: Slice, a: Option<Actor>) {
    v.row.Some? ==>
      && Chain(v.events, v.row.value.status)
      && (a.Some? && !a.value.pc.AtComplete? ==> a.value.memory.status == v.row.value.status)
  }

  ghost predicate TracedAt(s: Sys, id: string) {
    Traced(SliceOf(s.w, id), Lookup(s.actors, id))
  }

  ghost predicate AllTraced(s: Sys) {
    forall id {:trigger TracedAt(s, id)} :: ClientId(id) ==> TracedAt(s, id)
  }

  predicate NotTorn(event: Label) {
    match event
    case Create(_, _, write) => write != P.Torn
    case Step(_, ans) => ans.write != P.Torn
    case Retry(_, write) => write != P.Torn
    case _ => true
  }

  lemma ChainGrows(events: seq<P.Event>, from: P.Status, to: P.Status)
    requires Chain(events, from) && Edge(from, to)
    ensures Chain(events + [P.Event(Some(from), to)], to)
  {
  }

  lemma TracedWrite(w: World, id: string, a: Actor, to: P.Status, change: P.Payment -> P.Payment, write: P.Write)
    requires id in w.repo.rows && Traced(SliceOf(w, id), Some(a)) && !a.pc.AtComplete? && write != P.Torn
    requires Edge(w.repo.rows[id].status, to)
    ensures var (repo, ok) := P.StatusWrite(w.repo, id, a.memory.status, to, change, write);
            var v := SliceOf(w.(repo := repo), id);
            v.row.Some? && v.row.value.status == (if ok then to else a.memory.status)
              && Chain(v.events, v.row.value.status)
  {
    OwnStatusWrite(w, id, a.memory.status, to, change, write);
    ChainGrows(SliceOf(w, id).events, a.memory.status, to);
  }

  lemma TracedSettle(w: World, id: string, a: Actor, ans: Answer)
    requires id in w.repo.rows && a.pc.AtSettle? && PcFits(a.pc, w.repo.rows[id].status)
    requires Traced(SliceOf(w, id), Some(a))
    ensures var (after, b) := StepSettle(w, id, a, ans); Traced(SliceOf(after, id), After(b))
  {
    OwnSettle(w, id, a.memory.status, ans.up);
    ChainGrows(SliceOf(w, id).events, a.memory.status, P.Settled);
  }

  lemma TracedMark(w: World, id: string, a: Actor, ans: Answer)
    requires id in w.repo.rows && a.pc.AtMark? && PcFits(a.pc, w.repo.rows[id].status)
    requires Traced(SliceOf(w, id), Some(a)) && ans.write != P.Torn
    ensures var (after, b) := StepMark(w, id, a, ans); Traced(SliceOf(after, id), After(b))
  {
    TracedWrite(w, id, a, if a.pc.failed then P.ManualReview else P.Failed, P.Unchanged(), ans.write);
  }

  lemma TracedRowStep(w: World, id: string, a: Actor, ans: Answer)
    requires id in w.repo.rows && PcFits(a.pc, w.repo.rows[id].status) && WritesRow(a.pc)
    requires Traced(SliceOf(w, id), Some(a)) && ans.write != P.Torn
    ensures var (after, b) := RowStep(w, id, a, ans); Traced(SliceOf(after, id), After(b))
  {
    match a.pc
    case AtSaveConsent(r, c) => TracedWrite(w, id, a, P.ConsentReserved, P.AfterConsent(r, c), ans.write);
    case AtSaveRisk(score, d) => TracedWrite(w, id, a, P.RiskPassed, P.AfterRisk(score, d), ans.write);
    case AtSaveBank(ref) => TracedWrite(w, id, a, P.Authorising, P.AfterBank(ref), ans.write);
    case AtSettle => TracedSettle(w, id, a, ans);
    case AtMark(_) => TracedMark(w, id, a, ans);
  }

  lemma TracedOtherStep(w: World, id: string, a: Actor, ans: Answer)
    requires !WritesRow(a.pc) && Traced(SliceOf(w, id), Some(a))
    ensures var (after, b) := Advance(w, id, a, ans); Traced(SliceOf(after, id), After(b))
  {
    OtherStepsKeepRows(w, id, a, ans);
    var (after, b) := Advance(w, id, a, ans);
    assert SliceOf(after, id).row == SliceOf(w, id).row && SliceOf(after, id).events == SliceOf(w, id).events;
    OtherStepsKeepStatus(w, id, a, ans);
  }

  lemma OtherStepsKeepStatus(w: World, id: string, a: Actor, ans: Answer)
    requires !WritesRow(a.pc)
    ensures Advance(w, id, a, ans).1.memory.status == a.memory.status
    ensures a.pc.AtComplete? ==> Advance(w, id, a, ans).1.pc.AtEnd?
  {
  }

  lemma OwnStepTraced(w: World, id: string, a: Actor, ans: Answer)
    requires id in w.repo.rows && PcFits(a.pc, w.repo.rows[id].status)
    requires Traced(SliceOf(w, id), Some(a)) && ans.write != P.Torn
    ensures var (after, b) := Advance(w, id, a, ans); Traced(SliceOf(after, id), After(b))
  {
    if WritesRow(a.pc) {
      TracedRowStep(w, id, a, ans);
    } else {
      TracedOtherStep(w, id, a, ans);
    }
  }

  lemma StepTraced(s: Sys, id: string, ans: Answer)
    requires Inv(s) && AllTraced(s) && Enabled(s, Step(id, ans)) && ans.write != P.Torn
    ensures var (w, b) := Advance(s.w, id, s.actors[id], ans); AllTraced(Sys(w, Assign(s.actors, id, b)))
  {
    var a := s.actors[id];
    assert InvAt(s, id) && TracedAt(s, id);
    OwnStepTraced(s.w, id, a, ans);
    var (w, b) := Advance(s.w, id, a, ans);
    StepElsewhere(s, id, a, ans);
    RowTraced(s, Sys(w, Assign(s.actors, id, b)), id);
  }

  /** The labels that touch one row at most, and its actor. */
  lemma RowTraced(s: Sys, after: Sys, id: string)
    requires AllTraced(s) && ClientId(id)
    requires forall o :: ClientId(o) && o != id ==> SliceOf(after.w, o) == SliceOf(s.w, o)
    requires forall o :: o != id ==> Lookup(after.actors, o) == Lookup(s.actors, o)
    requires Traced(SliceOf(after.w, id), Lookup(after.actors, id))
    ensures AllTraced(after)
  {
    forall o | ClientId(o) ensures TracedAt(after, o) {
      assert TracedAt(s, o);
      assert o != id ==> Lookup(after.actors, o) == Lookup(s.actors, o);
    }
  }

  lemma CreateTraced(s: Sys, id: string, p: P.Payment)
    requires Inv(s) && AllTraced(s) && ClientId(id) && id !in s.w.repo.rows && p.key !in s.w.repo.byKey
    requires p.status == P.Initiated
    ensures AllTraced(Sys(s.w.(repo := P.CreatePayment(s.w.repo, id, p, P.Done).0),
                   s.actors[id := Pending(First, AtReserve, p)]))
  {
    var w := s.w.(repo := P.CreatePayment(s.w.repo, id, p, P.Done).0);
    assert SliceOf(s.w, id).events == [] by {
      assert InvAt(s, id);
    }
    assert TableSound(s.w, PaymentTable);
    CreateFacts(s.w, id, p, P.Done);
    assert SliceOf(w, id).events == [P.Event(None, P.Initiated)];
    RowTraced(s, Sys(w, s.actors[id := Pending(First, AtReserve, p)]), id);
  }

  lemma RetryTraced(s: Sys, id: string)
    requires Inv(s) && AllTraced(s) && id in s.w.repo.rows && s.w.repo.rows[id].status == P.Failed
    ensures AllTraced(Sys(s.w.(repo := RetryRepo(s.w.repo, id, P.Done).0),
                   s.actors[id := RetryActor(s.w.repo.rows[id])]))
  {
    assert TracedAt(s, id) by {
      assert TableSound(s.w, PaymentTable);
    }
    OwnStatusWrite(s.w, id, P.Failed, P.Initiated, p => P.Cleared(p), P.Done);
    ChainGrows(SliceOf(s.w, id).events, P.Failed, P.Initiated);
    RetryElsewhere(s.w, id, P.Done);
    RowTraced(s, Sys(s.w.(repo := RetryRepo(s.w.repo, id, P.Done).0), s.actors[id := RetryActor(s.w.repo.rows[id])]),
              id);
  }

  /** A crash, or the reconciler taking a payment up. */
  lemma ActorTraced(s: Sys, id: string, actors: map<string, Actor>)
    requires AllTraced(s) && ClientId(id) && actors - {id} == s.actors - {id}
    requires id in actors ==> Lookup(s.w.repo.rows, id) == Some(actors[id].memory)
    ensures AllTraced(s.(actors := actors))
  {
    assert TracedAt(s, id);
    forall o | o != id ensures Lookup(actors, o) == Lookup(s.actors, o) {
      assert o in actors <==> o in actors - {id};
      assert o in s.actors <==> o in s.actors - {id};
      if o in actors {
        assert (actors - {id})[o] == actors[o];
      }
    }
    RowTraced(s, s.(actors := actors), id);
  }

  lemma ReconcileTraced(s: Sys, id: string, bankUp: bool)
    requires Inv(s) && AllTraced(s) && id in s.w.repo.rows && id !in s.actors
    ensures var a := Recover(s.w, s.w.repo.rows[id], bankUp);
            a.Some? ==> AllTraced(s.(actors := s.actors[id := a.value]))
  {
    assert TableSound(s.w, PaymentTable);
    var a := Recover(s.w, s.w.repo.rows[id], bankUp);
    if a.Some? {
      ActorTraced(s, id, s.actors[id := a.value]);
    }
  }

  lemma NextTraced(s: Sys, event: Label)
    requires Inv(s) && AllTraced(s) && NotTorn(event)
    ensures AllTraced(Next(s, event))
  {
    if Enabled(s, event) {
      match event
      case Step(id, ans) => StepTraced(s, id, ans);
      case Create(id, p, write) =>
        if write == P.Done && p.key !in s.w.repo.byKey {
          CreateTraced(s, id, p);
        }
      case Retry(id, write) =>
        if write == P.Done && s.w.repo.rows[id].status == P.Failed {
          RetryTraced(s, id);
        }
      case Crash(id) => ActorTraced(s, id, s.actors - {id});
      case Reconcile(id, bankUp) => ReconcileTraced(s, id, bankUp);
      case NewConsent(id, c, now) => AdminTraced(s, s.(w := s.w.(consent := C.Create(s.w.consent, id, c, now).0)));
      case RevokeConsent(id, m, _) => AdminTraced(s, s.(w := s.w.(consent := C.Revoke(s.w.consent, id, m).0)));
    }
  }

  lemma AdminTraced(s: Sys, after: Sys)
    requires AllTraced(s) && after.actors == s.actors && after.w.repo == s.w.repo
    ensures AllTraced(after)
  {
    forall o | ClientId(o) ensures TracedAt(after, o) {
      assert TracedAt(s, o);
    }
  }

  lemma {:induction false} RunTraced(run: seq<Label>)
    requires forall i :: 0 <= i < |run| ==> NotTorn(run[i])
    ensures AllTraced(Exec(run))
  {
    if run == [] {
      forall id | ClientId(id) ensures TracedAt(INIT, id) {
      }
    } else {
      RunTraced(run[..|run| - 1]);
      RunKeepsInv(run[..|run| - 1]);
      NextTraced(Exec(run[..|run| - 1]), run[|run| - 1]);
    }
  }

  /** In every run whose status writes are not torn, the events of every payment form one unbroken chain of
      legal moves from its creation to the status of its row. */
  lemma AuditTrail(run: seq<Label>, id: string)
    requires forall i :: 0 <= i < |run| ==> NotTorn(run[i])
    requires id in Exec(run).w.repo.rows
    ensures Chain(P.EventsOf(Exec(run).w.repo, id), Exec(run).w.repo.rows[id].status)
  {
    RunTraced(run);
    RunKeepsInv(run);
    assert TableSound(Exec(run).w, PaymentTable);
    assert TracedAt(Exec(run), id);
  }
}
