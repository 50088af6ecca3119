/** The accidents do happen: for each of them a run that reaches it. One consent, one payment of 100 pence, and
    calls that succeed unless said otherwise. */
module Accidents {
  import opened Basics
  import opened Saga
  import opened Platform
  import opened Slices
  import opened AllRuns
  import opened Split
  import opened CleanRuns
  import opened Recovery
  import opened Attempts
  import opened OrdinaryRuns
  import R = Retries
  import B = Banks
  import C = Consents
  import L = Ledgers
  import P = Payments
  import LL = LedgerLaws

  // ---------- the cast ----------

  const CONSENT := C.Consent(C.Active, "merchant", "consumer", "consent-ref", 1000, 1000, "GBP", 1000)

  const ORDER := P.Payment("key", "merchant", "consent", "", 100, "GBP", P.Initiated, "", None, None)

  /** Everything succeeds; the bank would hand out `ref`. */
  function Good(ref: string): Answer {
    Answer(true, P.Done, Scored(0, "ALLOW"), BankTakes(ref), 0, "reservation")
  }

  const GOOD := Good("ref")

  const DOWN := GOOD.(up := false)

  // ---------- how the platform moves ----------

  lemma OneMore(run: seq<Label>, event: Label)
    ensures Exec(run + [event]) == Next(Exec(run), event)
  {
    assert (run + [event])[..|run|] == run;
  }

  lemma Moved(s: Sys, id: string, ans: Answer)
    requires id in s.actors && Generated(s.w, s.actors[id], ans)
    ensures var (w, b) := Advance(s.w, id, s.actors[id], ans);
            Next(s, Step(id, ans)) == Sys(w, Assign(s.actors, id, b))
  {
  }

  lemma OrdinaryMore(run: seq<Label>, event: Label)
    requires OrdinaryRun(run) && Ordinary(Exec(run), event)
    ensures OrdinaryRun(run + [event])
  {
    assert (run + [event])[..|run|] == run;
  }

  lemma DoneIsOrdinary(s: Sys, id: string, ans: Answer)
    requires ans.write == P.Done
    ensures Ordinary(s, Step(id, ans))
  {
  }

  lemma StepIsOrdinary(run: seq<Label>, id: string, ans: Answer)
    requires OrdinaryRun(run) && ans.write == P.Done
    ensures OrdinaryRun(run + [Step(id, ans)])
  {
    DoneIsOrdinary(Exec(run), id, ans);
    OrdinaryMore(run, Step(id, ans));
  }

  // ---------- up to the bank ----------

  /** The first attempt stands at `pc` with `p` in memory, over these tables. */
  ghost predicate Stands(s: Sys, id: string, pc: Pc, p: P.Payment, c: C.State, b: B.Bank, l: L.Ledger) {
    && id in s.actors && s.actors[id] == Actor(First, pc, p, if pc.AtReserve? then "" else "consent-ref")
    && id in s.w.repo.rows && s.w.consent == c && s.w.bank == b && s.w.ledger == l
  }

  const ADMITTED := C.EMPTY.(consents := map["consent" := CONSENT])

  function Holding(id: string, status: C.HoldStatus): C.State {
    ADMITTED.(holds := ["reservation"], byPayment := map[id := "reservation"],
              reservations := map["reservation" := C.Reservation("consent", id, 100, status, C.HOLD_SECONDS)])
  }

  const RESERVED := ORDER.(status := P.ConsentReserved, reservation := Some("reservation"), consumer := "consumer")
  const SCORED := RESERVED.(status := P.RiskPassed, risk := Some((0, "ALLOW")))
  const SENT := SCORED.(status := P.Authorising, bankRef := "ref")

  function Opening(id: string): seq<Label> {
    [NewConsent("consent", CONSENT, 0), Create(id, ORDER, P.Done)]
  }

  lemma Admitted()
    ensures C.Create(C.EMPTY, "consent", CONSENT, 0) == (ADMITTED, None)
  {
  }

  lemma OrderIsAcceptable()
    ensures Acceptable(ORDER)
  {
    assert Trim("GBP") == "GBP";
  }

  lemma Opened(id: string)
    requires ClientId(id)
    ensures OrdinaryRun(Opening(id))
    ensures Stands(Exec(Opening(id)), id, AtReserve, ORDER, ADMITTED, map[], L.EMPTY)
  {
    var first := NewConsent("consent", CONSENT, 0);
    OneMore([], first);
    OneMore([first], Create(id, ORDER, P.Done));
    assert [] + [first] == [first] && [first] + [Create(id, ORDER, P.Done)] == Opening(id);
    Admitted();
    OrderIsAcceptable();
    OrdinaryMore([], first);
    OrdinaryMore([first], Create(id, ORDER, P.Done));
  }

  lemma Granted(id: string)
    requires ClientId(id)
    ensures C.Reserve(ADMITTED, "consent", id, 100, "GBP", 0, "reservation").0 == Holding(id, C.Held)
    ensures var r := C.Reserve(ADMITTED, "consent", id, 100, "GBP", 0, "reservation").1;
            r.Ok? && r.value.reservationId == "reservation" && r.value.consumer == "consumer"
              && r.value.bankConsentRef == "consent-ref"
  {
    assert C.Used(ADMITTED, "consent", 0) == 0 && C.HeldSum(ADMITTED, "consent", 0) == 0;
  }

  lemma AfterReserve(s: Sys, id: string)
    requires ClientId(id) && Stands(s, id, AtReserve, ORDER, ADMITTED, map[], L.EMPTY)
    ensures Stands(Next(s, Step(id, GOOD)), id, AtSaveConsent("reservation", "consumer"), ORDER, Holding(id, C.Held),
                   map[], L.EMPTY)
  {
    Moved(s, id, GOOD);
    Granted(id);
  }

  lemma AfterSaveConsent(s: Sys, id: string)
    requires Stands(s, id, AtSaveConsent("reservation", "consumer"), ORDER, Holding(id, C.Held), map[], L.EMPTY)
    ensures Stands(Next(s, Step(id, GOOD)), id, AtRisk, RESERVED, Holding(id, C.Held), map[], L.EMPTY)
  {
    Moved(s, id, GOOD);
  }

  lemma AfterRisk(s: Sys, id: string)
    requires Stands(s, id, AtRisk, RESERVED, Holding(id, C.Held), map[], L.EMPTY)
    ensures Stands(Next(s, Step(id, GOOD)), id, AtSaveRisk(0, "ALLOW"), RESERVED, Holding(id, C.Held), map[], L.EMPTY)
  {
    Moved(s, id, GOOD);
    assert "ALLOW"[0] != "DECLINE"[0];
  }

  lemma AfterSaveRisk(s: Sys, id: string)
    requires Stands(s, id, AtSaveRisk(0, "ALLOW"), RESERVED, Holding(id, C.Held), map[], L.EMPTY)
    ensures Stands(Next(s, Step(id, GOOD)), id, AtBank, SCORED, Holding(id, C.Held), map[], L.EMPTY)
  {
    Moved(s, id, GOOD);
  }

  function Charge(id: string): B.Request {
    B.Request(id, "consent-ref", "consumer", 100, "GBP")
  }

  function Taken(id: string): B.Bank {
    map["ref" := B.Record(Charge(id), B.Settled)]
  }

  lemma AfterBank(s: Sys, id: string)
    requires ClientId(id) && Stands(s, id, AtBank, SCORED, Holding(id, C.Held), map[], L.EMPTY)
    ensures Stands(Next(s, Step(id, GOOD)), id, AtSaveBank("ref"), SCORED, Holding(id, C.Held), Taken(id), L.EMPTY)
  {
    Moved(s, id, GOOD);
  }

  /** The opening, then `n` steps of the attempt that all succeed. */
  function Walk(id: string, n: nat): seq<Label> {
    if n == 0 then Opening(id) else Walk(id, n - 1) + [Step(id, GOOD)]
  }

  lemma {:induction false} WalkIsOrdinary(id: string, n: nat)
    requires ClientId(id)
    ensures OrdinaryRun(Walk(id, n))
  {
    if n == 0 {
      Opened(id);
    } else {
      WalkIsOrdinary(id, n - 1);
      StepIsOrdinary(Walk(id, n - 1), id, GOOD);
    }
  }

  lemma WalkOn(id: string, n: nat)
    ensures Exec(Walk(id, n + 1)) == Next(Exec(Walk(id, n)), Step(id, GOOD))
  {
    OneMore(Walk(id, n), Step(id, GOOD));
  }

  lemma WalkToRisk(id: string)
    requires ClientId(id)
    ensures Stands(Exec(Walk(id, 2)), id, AtRisk, RESERVED, Holding(id, C.Held), map[], L.EMPTY)
  {
    Opened(id);
    AfterReserve(Exec(Walk(id, 0)), id);
    WalkOn(id, 0);
    AfterSaveConsent(Exec(Walk(id, 1)), id);
    WalkOn(id, 1);
  }

  lemma WalkToSaveBank(id: string)
    requires ClientId(id)
    ensures Stands(Exec(Walk(id, 5)), id, AtSaveBank("ref"), SCORED, Holding(id, C.Held), Taken(id), L.EMPTY)
  {
    WalkToRisk(id);
    AfterRisk(Exec(Walk(id, 2)), id);
    WalkOn(id, 2);
    AfterSaveRisk(Exec(Walk(id, 3)), id);
    WalkOn(id, 3);
    AfterBank(Exec(Walk(id, 4)), id);
    WalkOn(id, 4);
  }

  // ---------- the lost reference ----------

  /** A clean run reaches the write of the bank reference; if that fails and all else succeeds, the payment is FAILED
      with the money taken. */
  lemma LostReferenceHappens(id: string, script: Script)
    requires ClientId(id) && AllUpBut(script, SaveBank, SaveBank) && script(SaveBank).write != P.Done
    ensures var s := Exec(Walk(id, 5));
            && CleanRun(Walk(id, 5)) && id in s.actors && s.actors[id].pc.AtSaveBank?
            && var after := RunFrom(s.w, id, s.actors[id], script).0;
            && id in after.repo.rows && after.repo.rows[id].status == P.Failed && B.TakenRefs(after.bank, id) != {}
  {
    WalkIsOrdinary(id, 5);
    OrdinaryRunsAreClean(Walk(id, 5));
    WalkToSaveBank(id);
    LostReferenceIff(Walk(id, 5), id, script);
  }

  // ---------- the standing entry ----------

  function Posted(id: string): L.Ledger {
    L.Post(L.EMPTY, id, PostText(First, id), SagaLines(SENT)).0
  }

  lemma SentIsPostable()
    ensures Postable(SENT)
  {
    assert Trim("consumer") == "consumer" && Trim("merchant") == "merchant" && Trim("GBP") == "GBP";
  }

  lemma PostedHasEntry(id: string)
    requires ClientId(id)
    ensures L.Post(L.EMPTY, id, PostText(First, id), SagaLines(SENT)).1.None?
    ensures id in Posted(id).entries && !Posted(id).entries[id].reversed
  {
    SentIsPostable();
    PostSucceedsIff(L.EMPTY, id, PostText(First, id), SENT);
    EntryAfter(id, PostText(First, id), SagaLines(SENT));
  }

  lemma EntryAfter(id: string, text: string, lines: seq<L.LineInput>)
    requires L.Post(L.EMPTY, id, text, lines).1.None?
    ensures var l := L.Post(L.EMPTY, id, text, lines).0; id in l.entries && !l.entries[id].reversed
  {
  }

  lemma AfterSaveBank(s: Sys, id: string)
    requires Stands(s, id, AtSaveBank("ref"), SCORED, Holding(id, C.Held), Taken(id), L.EMPTY)
    ensures Stands(Next(s, Step(id, GOOD)), id, AtPost, SENT, Holding(id, C.Held), Taken(id), L.EMPTY)
  {
    Moved(s, id, GOOD);
  }

  lemma AfterPost(s: Sys, id: string)
    requires ClientId(id) && Stands(s, id, AtPost, SENT, Holding(id, C.Held), Taken(id), L.EMPTY)
    ensures Stands(Next(s, Step(id, GOOD)), id, AtSettle, SENT, Holding(id, C.Held), Taken(id), Posted(id))
  {
    Moved(s, id, GOOD);
    PostedHasEntry(id);
    assert Advance(s.w, id, s.actors[id], GOOD) == StepPost(s.w, id, s.actors[id], GOOD);
  }

  lemma WalkToSettle(id: string)
    requires ClientId(id)
    ensures Stands(Exec(Walk(id, 7)), id, AtSettle, SENT, Holding(id, C.Held), Taken(id), Posted(id))
  {
    WalkToSaveBank(id);
    AfterSaveBank(Exec(Walk(id, 5)), id);
    WalkOn(id, 5);
    AfterPost(Exec(Walk(id, 6)), id);
    WalkOn(id, 6);
  }

  /** The attempt crashes after posting, and the reconciler takes over. */
  function TakenOver(id: string): seq<Label> {
    Walk(id, 7) + [Crash(id)] + [Reconcile(id, true)]
  }

  lemma CleanMore(run: seq<Label>, event: Label)
    requires CleanRun(run) && Safe(Exec(run), event)
    ensures CleanRun(run + [event])
  {
    assert (run + [event])[..|run|] == run;
  }

  lemma CrashedThenResumed(s: Sys, id: string)
    requires Stands(s, id, AtSettle, SENT, Holding(id, C.Held), Taken(id), Posted(id)) && s.w.repo.rows[id] == SENT
    ensures var after := Next(Next(s, Crash(id)), Reconcile(id, true));
            after.w == s.w && id in after.actors && after.actors[id] == Pending(Resumed, AtPost, SENT)
  {
    var crashed := s.(actors := s.actors - {id});
    assert Next(s, Crash(id)) == crashed;
    assert Recover(s.w, SENT, true) == Some(Pending(Resumed, AtPost, SENT));
  }

  lemma RowIsSent(id: string)
    requires ClientId(id)
    ensures CleanRun(Walk(id, 7))
    ensures id in Exec(Walk(id, 7)).w.repo.rows && Exec(Walk(id, 7)).w.repo.rows[id] == SENT
  {
    var run := Walk(id, 7);
    WalkIsOrdinary(id, 7);
    OrdinaryRunsAreClean(run);
    WalkToSettle(id);
    RunClean(run);
    assert CleanAt(Exec(run), id);
  }

  lemma TakenOverStands(id: string)
    requires ClientId(id)
    ensures CleanRun(TakenOver(id))
    ensures var s := Exec(TakenOver(id));
            id in s.actors && s.actors[id] == Pending(Resumed, AtPost, SENT) && s.w.ledger == Posted(id)
  {
    var run := Walk(id, 7);
    WalkToSettle(id);
    RowIsSent(id);
    OneMore(run, Crash(id));
    OneMore(run + [Crash(id)], Reconcile(id, true));
    CrashedThenResumed(Exec(run), id);
    CheckpointCrashIsSafe(run, id);
    CleanMore(run, Crash(id));
    CleanMore(run + [Crash(id)], Reconcile(id, true));
  }

  /** A clean run reaches a resumed attempt whose entry is posted; if the ledger does not answer it and all else
      succeeds, the payment is FAILED with the entry standing. */
  lemma StandingEntryHappens(id: string, script: Script)
    requires ClientId(id) && AllUpBut(script, Post, Post) && !script(Post).up
    ensures var s := Exec(TakenOver(id));
            && CleanRun(TakenOver(id)) && id in s.actors && s.actors[id].kind == Resumed && s.actors[id].pc.AtPost?
            && var after := RunFrom(s.w, id, s.actors[id], script).0;
            && id in after.repo.rows && after.repo.rows[id].status == P.Failed
            && id in after.ledger.entries && !after.ledger.entries[id].reversed
  {
    TakenOverStands(id);
    PostedHasEntry(id);
    StandingEntryIff(TakenOver(id), id, script);
  }

  // ---------- the retry after a reversal ----------

  /** The settlement fails, everything is undone and the payment marked. */
  function RolledBack(id: string, n: nat): seq<Label> {
    if n == 0 then Walk(id, 7) + [Step(id, DOWN)] else RolledBack(id, n - 1) + [Step(id, GOOD)]
  }

  lemma {:induction false} RolledBackIsOrdinary(id: string, n: nat)
    requires ClientId(id)
    ensures OrdinaryRun(RolledBack(id, n))
  {
    if n == 0 {
      WalkIsOrdinary(id, 7);
      StepIsOrdinary(Walk(id, 7), id, DOWN);
    } else {
      RolledBackIsOrdinary(id, n - 1);
      StepIsOrdinary(RolledBack(id, n - 1), id, GOOD);
    }
  }

  lemma RollOn(id: string, n: nat)
    ensures Exec(RolledBack(id, n + 1)) == Next(Exec(RolledBack(id, n)), Step(id, GOOD))
  {
    OneMore(RolledBack(id, n), Step(id, GOOD));
  }

  function Reversed(id: string): L.Ledger {
    L.Reverse(Posted(id), id, "settle failed").0
  }

  function GivenBackBank(id: string): B.Bank {
    map["ref" := B.Record(Charge(id), B.Reversed)]
  }

  lemma SettleFails(s: Sys, id: string)
    requires Stands(s, id, AtSettle, SENT, Holding(id, C.Held), Taken(id), Posted(id))
    ensures Stands(Next(s, Step(id, DOWN)), id, AtUndoLedger, SENT, Holding(id, C.Held), Taken(id), Posted(id))
  {
    Moved(s, id, DOWN);
  }

  lemma AfterUndoLedger(s: Sys, id: string)
    requires Stands(s, id, AtUndoLedger, SENT, Holding(id, C.Held), Taken(id), Posted(id))
    requires L.Reverse(Posted(id), id, "settle failed").1.None?
    ensures Stands(Next(s, Step(id, GOOD)), id, AtUndoBank(false, true), SENT, Holding(id, C.Held), Taken(id),
                   Reversed(id))
  {
    Moved(s, id, GOOD);
    assert Advance(s.w, id, s.actors[id], GOOD) == StepUndoLedger(s.w, id, s.actors[id], GOOD);
  }

  lemma AfterUndoBank(s: Sys, id: string)
    requires Stands(s, id, AtUndoBank(false, true), SENT, Holding(id, C.Held), Taken(id), Reversed(id))
    ensures Stands(Next(s, Step(id, GOOD)), id, AtRelease(false), SENT, Holding(id, C.Held), GivenBackBank(id),
                   Reversed(id))
  {
    Moved(s, id, GOOD);
    Returned(id);
  }

  lemma Returned(id: string)
    ensures B.Reverse(Taken(id), "ref") == (GivenBackBank(id), None)
  {
    assert Taken(id)["ref" := B.Record(Charge(id), B.Reversed)] == GivenBackBank(id);
  }

  lemma AfterRelease(s: Sys, id: string)
    requires Stands(s, id, AtRelease(false), SENT, Holding(id, C.Held), GivenBackBank(id), Reversed(id))
    ensures Stands(Next(s, Step(id, GOOD)), id, AtMark(false), SENT, Holding(id, C.Released), GivenBackBank(id),
                   Reversed(id))
  {
    Moved(s, id, GOOD);
    Freed(id);
  }

  lemma Freed(id: string)
    ensures C.Release(Holding(id, C.Held), "reservation") == (Holding(id, C.Released), None)
  {
    var r := C.Reservation("consent", id, 100, C.Released, C.HOLD_SECONDS);
    assert Holding(id, C.Held).reservations["reservation" := r] == Holding(id, C.Released).reservations;
  }

  lemma AfterMark(s: Sys, id: string)
    requires Stands(s, id, AtMark(false), SENT, Holding(id, C.Released), GivenBackBank(id), Reversed(id))
    ensures var after := Next(s, Step(id, GOOD));
            && Stands(after, id, AtComplete(false), SENT, Holding(id, C.Released), GivenBackBank(id), Reversed(id))
            && after.w.repo.rows[id].status == P.Failed
  {
    Moved(s, id, GOOD);
  }

  lemma AfterComplete(s: Sys, id: string)
    requires Stands(s, id, AtComplete(false), SENT, Holding(id, C.Released), GivenBackBank(id), Reversed(id))
    ensures var after := Next(s, Step(id, GOOD));
            id !in after.actors && after.w == s.w.(idem := after.w.idem)
  {
    Moved(s, id, GOOD);
  }

  lemma Reversible(id: string)
    requires ClientId(id)
    ensures L.Reverse(Posted(id), id, "settle failed").1.None?
    ensures id in Reversed(id).entries && Reversed(id).entries[id].reversed
  {
    WalkToSettle(id);
    PostedHasEntry(id);
    RunKeepsInv(Walk(id, 7));
    assert TableSound(Exec(Walk(id, 7)).w, JournalBooks);
    LL.ReverseFlags(Posted(id), id, "settle failed");
  }

  lemma RollToRelease(id: string)
    requires ClientId(id)
    ensures Stands(Exec(RolledBack(id, 2)), id, AtRelease(false), SENT, Holding(id, C.Held), GivenBackBank(id),
                   Reversed(id))
  {
    WalkToSettle(id);
    OneMore(Walk(id, 7), Step(id, DOWN));
    SettleFails(Exec(Walk(id, 7)), id);
    Reversible(id);
    AfterUndoLedger(Exec(RolledBack(id, 0)), id);
    RollOn(id, 0);
    AfterUndoBank(Exec(RolledBack(id, 1)), id);
    RollOn(id, 1);
  }

  lemma RollToComplete(id: string)
    requires ClientId(id)
    ensures var s := Exec(RolledBack(id, 4));
            && Stands(s, id, AtComplete(false), SENT, Holding(id, C.Released), GivenBackBank(id), Reversed(id))
            && s.w.repo.rows[id].status == P.Failed && SameTerms(SENT, s.w.repo.rows[id])
  {
    RollToRelease(id);
    AfterRelease(Exec(RolledBack(id, 2)), id);
    RollOn(id, 2);
    AfterMark(Exec(RolledBack(id, 3)), id);
    RollOn(id, 3);
    RunKeepsInv(RolledBack(id, 4));
    assert InvAt(Exec(RolledBack(id, 4)), id);
  }

  /** A clean run ends with the payment FAILED, its hold RELEASED and its entry reversed. */
  lemma RolledBackStands(id: string)
    requires ClientId(id)
    ensures CleanRun(RolledBack(id, 5))
    ensures var s := Exec(RolledBack(id, 5));
            && id !in s.actors && id in s.w.repo.rows && s.w.repo.rows[id].status == P.Failed
            && SameTerms(SENT, s.w.repo.rows[id])
            && s.w.consent == Holding(id, C.Released) && s.w.bank == GivenBackBank(id) && s.w.ledger == Reversed(id)
  {
    RolledBackIsOrdinary(id, 5);
    OrdinaryRunsAreClean(RolledBack(id, 5));
    RollToComplete(id);
    AfterComplete(Exec(RolledBack(id, 4)), id);
    RollOn(id, 4);
  }

  const AGAIN := C.Reserved("reservation", 1000, "consumer", "consent-ref")

  lemma GrantedAgain(id: string)
    requires ClientId(id)
    ensures C.Reserve(Holding(id, C.Released), "consent", id, 100, "GBP", 0, "reservation").1 == Ok(AGAIN)
  {
    var c := Holding(id, C.Released);
    assert C.Used(c, "consent", 0) == 0;
    assert c.holds[..0] == [];
    assert C.HeldSum(c, "consent", 0) == C.HeldTerm(c, "consent", 0, "reservation") == 0;
  }

  /** A second attempt, all of whose calls succeed. */
  function Second(): Script {
    _ => Good("other-ref")
  }

  lemma SecondSucceeds(id: string)
    requires ClientId(id)
    ensures R.RetrySucceeds(Exec(RolledBack(id, 5)), id, Second(), AGAIN)
  {
    RolledBackStands(id);
    SecondSucceedsFrom(Exec(RolledBack(id, 5)), id);
  }

  lemma SecondSucceedsFrom(s: Sys, id: string)
    requires ClientId(id) && id !in s.actors && id in s.w.repo.rows && s.w.repo.rows[id].status == P.Failed
    requires SameTerms(SENT, s.w.repo.rows[id])
    requires s.w.consent == Holding(id, C.Released) && s.w.bank == GivenBackBank(id)
    ensures R.RetrySucceeds(s, id, Second(), AGAIN)
  {
    GrantedAgain(id);
    SentIsPostable();
    SecondIsGood();
    assert |"other-ref"| != |"ref"|;
    assert Postable(s.w.repo.rows[id].(consumer := "consumer"));
  }

  lemma SecondIsGood()
    ensures R.AllGood(Second())
  {
    assert "ALLOW"[0] != "DECLINE"[0];
  }

  /** A clean run reaches a payment whose retry, every call succeeding, is SETTLED with the money taken, no ledger
      effect on any account and no usage. */
  lemma RetryAfterReversalHappens(id: string, account: L.Account)
    requires ClientId(id)
    ensures var s := Exec(RolledBack(id, 5));
            && CleanRun(RolledBack(id, 5)) && CanRetry(s, id)
            && var (after, ok) := R.Retrying(s, id, Second());
            && ok && id in after.repo.rows && after.repo.rows[id].status == P.Settled
            && B.TakenRefs(after.bank, id) != {}
            && L.Net(after.ledger.entries, id, account) == 0
            && id !in after.consent.usage
  {
    RolledBackStands(id);
    Reversible(id);
    SecondSucceeds(id);
    R.RetryAfterReversal(RolledBack(id, 5), id, Second(), AGAIN, account);
  }

  // ---------- the unrecorded hold ----------

  /** The attempt crashes between the reservation and its recording. */
  lemma UnrecordedHoldHappens(id: string, script: Script)
    requires ClientId(id) && AllUp(script)
    ensures var s := Exec(Walk(id, 1) + [Crash(id)]);
            && id in s.w.repo.rows && id !in s.actors
            && var a := Recover(s.w, s.w.repo.rows[id], true);
            && a.Some?
            && var after := RunFrom(s.w, id, a.value, script).0;
            && id in after.repo.rows && after.repo.rows[id].status == P.Failed
            && HoldStatusOf(after.consent, id) == Some(C.Held)
  {
    Opened(id);
    AfterReserve(Exec(Walk(id, 0)), id);
    WalkOn(id, 0);
    WalkIsOrdinary(id, 1);
    OneMore(Walk(id, 1), Crash(id));
    UnrecordedRow(id);
    UnrecordedHoldStays(Walk(id, 1) + [Crash(id)], id, script);
  }

  lemma UnrecordedRow(id: string)
    requires ClientId(id) && OrdinaryRun(Walk(id, 1))
    requires Stands(Exec(Walk(id, 1)), id, AtSaveConsent("reservation", "consumer"), ORDER, Holding(id, C.Held),
                   map[], L.EMPTY)
    ensures var s := Next(Exec(Walk(id, 1)), Crash(id));
            && id !in s.actors && id in s.w.repo.rows && s.w.repo.rows[id] == ORDER
            && HoldStatusOf(s.w.consent, id) == Some(C.Held)
  {
    OrdinaryRunsAreClean(Walk(id, 1));
    RunClean(Walk(id, 1));
    assert CleanAt(Exec(Walk(id, 1)), id);
  }
}
