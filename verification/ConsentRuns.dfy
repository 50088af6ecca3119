/** The consent limits under the platform: the consent tables of any run are those of the history of its calls. */
module ConsentRuns {
  import opened Basics
  import opened Saga
  import opened Platform
  import C = Consents
  import CL = ConsentLaws
  import CR = ConsentRules
  import opened AllRuns
  import opened Slices

  /** The call an actor makes to the consent service, if it gets through. */
  function CallOf(id: string, a: Actor, ans: Answer): Option<CL.Timed> {
    var p := a.memory;
    if !ans.up then None
    else match a.pc
      case AtReserve => Some(CL.At(ans.now, CL.ReserveOp(p.consent, id, p.amount, p.currency, ans.newId)))
      case AtConfirm =>
        if p.reservation.None? then None else Some(CL.At(ans.now, CL.ConfirmOp(p.reservation.value, id)))
      case AtRelease(_) =>
        if p.reservation.None? then None else Some(CL.At(ans.now, CL.ReleaseOp(p.reservation.value)))
      case _ => None
  }

  function CallIn(s: Sys, event: Label): Option<CL.Timed> {
    if !Enabled(s, event) then None
    else match event
      case Step(id, ans) => CallOf(id, s.actors[id], ans)
      case NewConsent(id, c, now) => Some(CL.At(now, CL.CreateOp(id, c)))
      case RevokeConsent(id, merchant, now) => Some(CL.At(now, CL.RevokeOp(id, merchant)))
      case _ => None
  }

  function Calls(run: seq<Label>): seq<CL.Timed> {
    if run == [] then []
    else
      var front := run[..|run| - 1];
      var call := CallIn(Exec(front), run[|run| - 1]);
      Calls(front) + (if call.Some? then [call.value] else [])
  }

  function Applied(c: C.State, call: Option<CL.Timed>): C.State {
    if call.None? then c else CL.Apply(c, call.value)
  }

  lemma OtherStepsKeepConsent(w: World, id: string, a: Actor, ans: Answer)
    requires !CallsConsent(a.pc)
    ensures Advance(w, id, a, ans).0.consent == w.consent
  {
  }

  lemma StepApplies(w: World, id: string, a: Actor, ans: Answer)
    requires CallsConsent(a.pc)
    ensures ConsentStep(w, id, a, ans).0.consent == Applied(w.consent, CallOf(id, a, ans))
  {
  }

  lemma NextApplies(s: Sys, event: Label)
    ensures Next(s, event).w.consent == Applied(s.w.consent, CallIn(s, event))
  {
    if Enabled(s, event) && event.Step? {
      var a := s.actors[event.id];
      if CallsConsent(a.pc) {
        StepApplies(s.w, event.id, a, event.answer);
      } else {
        OtherStepsKeepConsent(s.w, event.id, a, event.answer);
      }
    }
  }

  lemma RunApplies(history: seq<CL.Timed>, call: Option<CL.Timed>)
    ensures CL.Run(C.EMPTY, history + (if call.Some? then [call.value] else [])) ==
              Applied(CL.Run(C.EMPTY, history), call)
  {
    if call.Some? {
      assert (history + [call.value])[..|history|] == history;
    } else {
      assert history + [] == history;
    }
  }

  /** After every run of the platform, the consent tables are what the history of its consent calls makes them. */
  lemma {:induction false} RunIsHistory(run: seq<Label>)
    ensures Exec(run).w.consent == CL.Run(C.EMPTY, Calls(run))
  {
    if run != [] {
      var front, last := run[..|run| - 1], run[|run| - 1];
      RunIsHistory(front);
      NextApplies(Exec(front), last);
      RunApplies(Calls(front), CallIn(Exec(front), last));
    }
  }

  ghost predicate Until(run: seq<Label>, now: int) {
    CL.Monotone(Calls(run)) && (Calls(run) != [] ==> Calls(run)[|Calls(run)| - 1].now <= now)
  }

  /** So the limits hold of runs driven by the saga, whatever is interleaved, crashes or is retried. With a
      monotone clock: timely usage plus unexpired holds is within every monthly maximum at every instant, unless
      an addition overflowed. */
  lemma PlatformLimit(run: seq<Label>, now: int)
    requires Until(run, now) && CL.NoOverflow(Calls(run))
    ensures CL.WithinLimit(Exec(run).w.consent, now)
  {
    RunIsHistory(run);
    CL.RollingLimit(Calls(run), now);
  }

  /** And if confirmations are timely and every consent roomy, nothing overflows and used plus held is within every
      monthly maximum. */
  lemma PlatformTimelyLimit(run: seq<Label>, now: int)
    requires Until(run, now) && CL.TimelyHistory(Calls(run)) && CL.RoomyHistory(Calls(run))
    ensures CL.NoOverflow(Calls(run)) && CL.FullyWithin(Exec(run).w.consent, now)
  {
    RunIsHistory(run);
    CL.TimelyLimit(Calls(run), now);
  }

  /** The consent calls of a continuation are not made before `now`. */
  ghost predicate NotBefore(s: Sys, more: seq<Label>, now: int) {
    more == [] ||
    (&& NotBefore(s, more[..|more| - 1], now)
     && var call := CallIn(Continue(s, more[..|more| - 1]), more[|more| - 1]);
     && (call.Some? ==> now <= call.value.now))
  }

  lemma {:induction false} ClosedFrom(s: Sys, more: seq<Label>, c: string, now: int)
    requires Inv(s) && CR.Closed(s.w.consent, c, now)
    requires s.w.consent.consents[c].status == C.Revoked || NotBefore(s, more, now)
    ensures var after := Continue(s, more);
            && Inv(after) && CR.Closed(after.w.consent, c, now)
            && CR.HoldsOn(after.w.consent, c) == CR.HoldsOn(s.w.consent, c)
            && (s.w.consent.consents[c].status == C.Revoked ==> after.w.consent.consents[c].status == C.Revoked)
  {
    if more != [] {
      var front, last := more[..|more| - 1], more[|more| - 1];
      ClosedFrom(s, front, c, now);
      ClosedNext(Continue(s, front), last, c, now);
    }
  }

  lemma ClosedNext(s: Sys, event: Label, c: string, now: int)
    requires Inv(s) && CR.Closed(s.w.consent, c, now)
    requires var call := CallIn(s, event);
             s.w.consent.consents[c].status == C.Revoked || (call.Some? ==> now <= call.value.now)
    ensures var after := Next(s, event);
            && Inv(after) && CR.Closed(after.w.consent, c, now)
            && CR.HoldsOn(after.w.consent, c) == CR.HoldsOn(s.w.consent, c)
            && (s.w.consent.consents[c].status == C.Revoked ==> after.w.consent.consents[c].status == C.Revoked)
  {
    NextKeepsInv(s, event);
    NextApplies(s, event);
    assert TableSound(s.w, ConsentTables);
    var call := CallIn(s, event);
    if call.Some? {
      CR.ClosedStep(s.w.consent, call.value, c, now);
    }
  }

  /** On the platform: once a consent is revoked, or from its expiry on, no further payment gets a hold on it, whatever
      sagas, crashes, retries and reconciliations follow. */
  lemma ClosedOnThePlatform(run: seq<Label>, more: seq<Label>, c: string, now: int)
    requires CR.Closed(Exec(run).w.consent, c, now)
    requires Exec(run).w.consent.consents[c].status == C.Revoked || NotBefore(Exec(run), more, now)
    ensures CR.HoldsOn(Continue(Exec(run), more).w.consent, c) == CR.HoldsOn(Exec(run).w.consent, c)
  {
    RunKeepsInv(run);
    ClosedFrom(Exec(run), more, c, now);
  }
}
