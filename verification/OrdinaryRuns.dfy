/** A plain sufficient condition for a run to be clean, in terms of what is called and when, without looking at
    the stores: key writes succeed, crashes come only where the last step has been recorded, no retries. */
module OrdinaryRuns {
  import opened Basics
  import opened Saga
  import opened Platform
  import opened Slices
  import opened AllRuns
  import opened CleanRuns
  import opened Attempts
  import C = Consents
  import P = Payments

  /** Just after a status write, or after the settlement. */
  predicate Checkpoint(pc: Pc) {
    pc.AtReserve? || pc.AtRisk? || pc.AtBank? || pc.AtPost? || pc.AtConfirm? || pc.AtComplete?
  }

  predicate KeyWrite(pc: Pc, write: P.Write) {
    (pc.AtSaveBank? ==> write == P.Done) && (pc.AtMark? ==> write != P.Lost)
  }

  predicate Ordinary(s: Sys, event: Label) {
    match event
    case Step(id, ans) => id in s.actors ==> KeyWrite(s.actors[id].pc, ans.write)
    case Crash(id) => id in s.actors && Checkpoint(s.actors[id].pc)
    case Retry(_, _) => false
    case _ => true
  }

  predicate OrdinaryRun(run: seq<Label>) {
    run == [] || (OrdinaryRun(run[..|run| - 1]) && Ordinary(Exec(run[..|run| - 1]), run[|run| - 1]))
  }

  // ---------- nothing is posted before its time ----------

  /** Nobody has posted the payment: not before the ledger step, and not while it lies in flight. */
  predicate Timely(v: Slice, a: Option<Actor>) {
    v.row.Some? ==>
      && (a.Some? && Rank(a.value.pc) >= Rank(AtPost) ==> v.entry.None?)
      && (a.Some? && a.value.pc.AtComplete? ==> !P.InFlight(v.row.value.status))
      && (a.None? && P.InFlight(v.row.value.status) ==> v.entry.None?)
  }

  ghost predicate TimelyAt(s: Sys, id: string) {
    Timely(SliceOf(s.w, id), Lookup(s.actors, id))
  }

  ghost predicate AllTimely(s: Sys) {
    forall id {:trigger TimelyAt(s, id)} :: ClientId(id) ==> TimelyAt(s, id)
  }

  lemma OwnTimelyChange(s: Sys, after: Sys, id: string)
    requires AllTimely(s)
    requires forall o :: ClientId(o) && o != id ==> SliceOf(after.w, o) == SliceOf(s.w, o)
    requires forall o :: o != id ==> Lookup(after.actors, o) == Lookup(s.actors, o)
    requires Timely(SliceOf(after.w, id), Lookup(after.actors, id))
    ensures AllTimely(after)
  {
    forall o | ClientId(o) ensures TimelyAt(after, o) {
      assert TimelyAt(s, o);
      assert o != id ==> Lookup(after.actors, o) == Lookup(s.actors, o);
    }
  }

  /** The step ends in a terminal status, or goes on to a place where nothing is posted or anything may be. */
  lemma AdvanceTimely(w: World, id: string, a: Actor, ans: Answer)
    requires RepoSound(w.repo) && id in w.repo.rows && Fits(SliceOf(w, id), Some(a)) && Timely(SliceOf(w, id), Some(a))
    requires KeyWrite(a.pc, ans.write) && !a.pc.AtEnd?
    ensures var (after, b) := Advance(w, id, a, ans); Timely(SliceOf(after, id), After(b))
  {
    AdvanceDescends(w, id, a, ans);
    AdvanceEnds(w, id, a, ans);
    var (after, b) := Advance(w, id, a, ans);
    if Rank(b.pc) >= Rank(AtPost) {
      LedgerUntouched(w, id, a, ans);
      assert SliceOf(after, id).entry == SliceOf(w, id).entry;
    }
  }

  lemma OwnStepTimely(s: Sys, id: string, ans: Answer)
    requires Inv(s) && AllTimely(s) && Enabled(s, Step(id, ans)) && Ordinary(s, Step(id, ans))
    ensures var (w, b) := Advance(s.w, id, s.actors[id], ans); Timely(SliceOf(w, id), After(b))
  {
    assert InvAt(s, id) && TimelyAt(s, id) && TableSound(s.w, PaymentTable);
    AdvanceTimely(s.w, id, s.actors[id], ans);
  }

  lemma StepTimely(s: Sys, id: string, ans: Answer)
    requires Inv(s) && AllTimely(s) && Enabled(s, Step(id, ans)) && Ordinary(s, Step(id, ans))
    ensures var (w, b) := Advance(s.w, id, s.actors[id], ans); AllTimely(Sys(w, Assign(s.actors, id, b)))
  {
    OwnStepTimely(s, id, ans);
    StepElsewhere(s, id, s.actors[id], ans);
    var (w, b) := Advance(s.w, id, s.actors[id], ans);
    OwnTimelyChange(s, Sys(w, Assign(s.actors, id, b)), id);
  }

  lemma CreateTimely(s: Sys, id: string, p: P.Payment, write: P.Write, after: Sys)
    requires Inv(s) && AllTimely(s) && ClientId(id) && id !in s.w.repo.rows && p.key !in s.w.repo.byKey
    requires write != P.Lost
    requires after.w == s.w.(repo := P.CreatePayment(s.w.repo, id, p, write).0)
    requires after.actors == s.actors || after.actors == s.actors[id := Pending(First, AtReserve, p)]
    ensures AllTimely(after)
  {
    assert InvAt(s, id) && TableSound(s.w, PaymentTable);
    CreateFacts(s.w, id, p, write);
    OwnTimelyChange(s, after, id);
  }

  lemma CrashTimely(s: Sys, id: string)
    requires Inv(s) && AllTimely(s) && id in s.actors && Checkpoint(s.actors[id].pc)
    ensures AllTimely(s.(actors := s.actors - {id}))
  {
    assert InvAt(s, id) && TimelyAt(s, id);
    OwnTimelyChange(s, s.(actors := s.actors - {id}), id);
  }

  lemma ReconcileTimely(s: Sys, id: string, bankUp: bool)
    requires Inv(s) && AllTimely(s) && Enabled(s, Reconcile(id, bankUp))
    ensures var a := Recover(s.w, s.w.repo.rows[id], bankUp);
            a.Some? ==> AllTimely(s.(actors := s.actors[id := a.value]))
  {
    assert TimelyAt(s, id) by {
      assert TableSound(s.w, PaymentTable);
    }
    var a := Recover(s.w, s.w.repo.rows[id], bankUp);
    if a.Some? {
      OwnTimelyChange(s, s.(actors := s.actors[id := a.value]), id);
    }
  }

  lemma AdminTimely(s: Sys, after: Sys)
    requires AllTimely(s) && after.actors == s.actors && after.w == s.w.(consent := after.w.consent)
    ensures AllTimely(after)
  {
    forall o | ClientId(o) ensures TimelyAt(after, o) {
      assert TimelyAt(s, o);
    }
  }

  lemma NextTimely(s: Sys, event: Label)
    requires Inv(s) && AllTimely(s) && Ordinary(s, event)
    ensures AllTimely(Next(s, event))
  {
    if Enabled(s, event) {
      match event
      case Create(id, p, write) =>
        if write != P.Lost && p.key !in s.w.repo.byKey {
          CreateTimely(s, id, p, write, Next(s, event));
        }
      case Step(id, ans) => StepTimely(s, id, ans);
      case Crash(id) => CrashTimely(s, id);
      case Reconcile(id, bankUp) => ReconcileTimely(s, id, bankUp);
      case NewConsent(id, c, now) => AdminTimely(s, s.(w := s.w.(consent := C.Create(s.w.consent, id, c, now).0)));
      case RevokeConsent(id, m, _) => AdminTimely(s, s.(w := s.w.(consent := C.Revoke(s.w.consent, id, m).0)));
    }
  }

  // ---------- ordinary runs are clean ----------

  lemma OrdinaryIsSafe(run: seq<Label>, event: Label)
    requires CleanRun(run) && AllTimely(Exec(run)) && Ordinary(Exec(run), event)
    ensures Safe(Exec(run), event)
  {
    var s := Exec(run);
    RunKeepsInv(run);
    if event.Crash? {
      CheckpointCrashIsSafe(run, event.id);
    } else if event.Step? && event.id in s.actors {
      assert InvAt(s, event.id) && TimelyAt(s, event.id);
    }
  }

  /** Every ordinary run is clean, so all that is proved of clean runs -- all or nothing, conservation, exact
      recovery -- holds under these assumptions. */
  lemma {:induction false} OrdinaryRunsAreClean(run: seq<Label>)
    requires OrdinaryRun(run)
    ensures CleanRun(run) && AllTimely(Exec(run))
  {
    if run == [] {
      forall id | ClientId(id) ensures TimelyAt(INIT, id) {
      }
    } else {
      var front, last := run[..|run| - 1], run[|run| - 1];
      OrdinaryRunsAreClean(front);
      OrdinaryIsSafe(front, last);
      RunKeepsInv(front);
      NextTimely(Exec(front), last);
    }
  }
}
