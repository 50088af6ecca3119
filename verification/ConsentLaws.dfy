/** What every timed history of the consent service keeps: usage is exactly the confirmed
    reservations, and the rolling allowance is never exceeded by timely confirmations. */
module ConsentLaws {
  import opened Basics
  import opened Consents

  // ---------- consistency of the tables ----------

  ghost predicate Indexed(s: State) {
    && Distinct(s.holds) && (forall r :: r in s.holds <==> r in s.reservations)
    && Distinct(s.usages) && (forall p :: p in s.usages <==> p in s.usage)
    && (forall p :: p in s.byPayment ==>
          s.byPayment[p] in s.reservations && s.reservations[s.byPayment[p]].paymentId == p)
    && (forall r :: r in s.reservations ==>
          s.reservations[r].paymentId in s.byPayment && s.byPayment[s.reservations[r].paymentId] == r)
    && (forall r :: r in s.reservations ==> s.reservations[r].consentId in s.consents && s.reservations[r].amount > 0)
  }

  /** The reservation of a payment. */
  function RowOf(s: State, p: string): Option<Reservation> {
    if p in s.byPayment && s.byPayment[p] in s.reservations then Some(s.reservations[s.byPayment[p]]) else None
  }

  /** One payment has a usage row iff its reservation is confirmed, and then with that consent and amount. */
  ghost predicate UsageMatches(s: State, p: string) {
    && (p in s.usage <==> RowOf(s, p).Some? && RowOf(s, p).value.status == Confirmed)
    && (p in s.usage ==>
          s.usage[p].consentId == RowOf(s, p).value.consentId && s.usage[p].amount == RowOf(s, p).value.amount)
  }

  ghost predicate UsageIsConfirmed(s: State) {
    forall p :: UsageMatches(s, p)
  }

  ghost predicate Valid(s: State) {
    Indexed(s) && UsageIsConfirmed(s)
  }

  // ---------- timed histories ----------

  datatype Op =
    | CreateOp(id: string, consent: Consent)
    | RevokeOp(id: string, merchant: string)
    | ReserveOp(consentId: string, paymentId: string, amount: int, currency: string, newId: string)
    | ConfirmOp(reservation: string, payment: string)
    | ReleaseOp(reservation: string)

  datatype Timed = At(now: int, op: Op)

  function Apply(s: State, t: Timed): State {
    match t.op
    case CreateOp(id, c) => Create(s, id, c, t.now).0
    case RevokeOp(id, merchant) => Revoke(s, id, merchant).0
    case ReserveOp(consentId, paymentId, amount, currency, newId) =>
      Reserve(s, consentId, paymentId, amount, currency, t.now, newId).0
    case ConfirmOp(r, p) => Confirm(s, r, p, t.now).0
    case ReleaseOp(r) => Release(s, r).0
  }

  function Run(s: State, history: seq<Timed>): State {
    if history == [] then s else Apply(Run(s, history[..|history| - 1]), history[|history| - 1])
  }

  ghost predicate Monotone(history: seq<Timed>) {
    forall i, j :: 0 <= i < j < |history| ==> history[i].now <= history[j].now
  }

  lemma ReserveKeepsValid(s: State, consentId: string, paymentId: string, amount: int, currency: string, now: int,
                          newId: string)
    requires Valid(s)
    ensures Valid(Reserve(s, consentId, paymentId, amount, currency, now, newId).0)
  {
    var after := Reserve(s, consentId, paymentId, amount, currency, now, newId).0;
    if after != s {
      DistinctAppend(s.holds, newId);
      assert Indexed(after);
      forall p ensures UsageMatches(after, p) {
        assert UsageMatches(s, p);
      }
    }
  }

  lemma SetStatusKeepsIndexed(s: State, r: string, status: HoldStatus)
    requires Indexed(s) && r in s.reservations
    ensures Indexed(SetStatus(s, r, status))
  {
  }

  lemma ConfirmedIsIndexed(s: State, after: State, r: string, now: int)
    requires Valid(s) && HoldConfirmed(s, after, r, now)
    ensures Indexed(after)
  {
    var p := s.reservations[r].paymentId;
    SetStatusKeepsIndexed(s, r, Confirmed);
    assert UsageMatches(s, p);
    DistinctAppend(s.usages, p);
  }

  lemma ConfirmKeepsValid(s: State, r: string, paymentId: string, now: int)
    requires Valid(s)
    ensures Valid(Confirm(s, r, paymentId, now).0)
  {
    ConfirmEffect(s, r, paymentId, now);
    var after := Confirm(s, r, paymentId, now).0;
    if after != s {
      ConfirmedIsIndexed(s, after, r, now);
      forall p ensures UsageMatches(after, p) {
        ConfirmedMatches(s, after, r, now, p);
      }
    }
  }

  lemma ConfirmedMatches(s: State, after: State, r: string, now: int, p: string)
    requires Valid(s) && HoldConfirmed(s, after, r, now)
    ensures UsageMatches(after, p)
  {
    assert UsageMatches(s, p);
  }

  lemma ReleaseKeepsValid(s: State, r: string)
    requires Valid(s)
    ensures Valid(Release(s, r).0)
  {
    if Release(s, r).0 != s {
      SetStatusKeepsIndexed(s, r, Released);
      forall p ensures UsageMatches(Release(s, r).0, p) {
        assert UsageMatches(s, p);
      }
    }
  }

  lemma AdminKeepsValid(s: State, after: State)
    requires Valid(s) && after == s.(consents := after.consents) && forall c :: c in s.consents ==> c in after.consents
    ensures Valid(after)
  {
    forall p ensures UsageMatches(after, p) {
      assert UsageMatches(s, p);
    }
  }

  lemma ApplyKeepsValid(s: State, t: Timed)
    requires Valid(s)
    ensures Valid(Apply(s, t))
  {
    match t.op
    case CreateOp(id, c) =>
      AdminKeepsValid(s, Apply(s, t));
    case RevokeOp(id, merchant) =>
      AdminKeepsValid(s, Apply(s, t));
    case ReserveOp(consentId, paymentId, amount, currency, newId) =>
      ReserveKeepsValid(s, consentId, paymentId, amount, currency, t.now, newId);
    case ConfirmOp(r, p) => ConfirmKeepsValid(s, r, p, t.now);
    case ReleaseOp(r) => ReleaseKeepsValid(s, r);
  }

  /** Confirmed and released reservations are final: no operation changes such a row, and with it, by
      UsageIsConfirmed, whether and how much of it counts as usage. */
  lemma FinalRowsStay(s: State, t: Timed, r: string)
    requires Valid(s) && r in s.reservations && s.reservations[r].status != Held
    ensures r in Apply(s, t).reservations && Apply(s, t).reservations[r] == s.reservations[r]
  {
    match t.op
    case CreateOp(_, _) =>
    case RevokeOp(_, _) =>
    case ReserveOp(_, _, _, _, _) => ReserveAddsHold(s, t);
    case ConfirmOp(h, p) => ConfirmEffect(s, h, p, t.now);
    case ReleaseOp(_) =>
  }

  /** After any history at all, usage is exactly the confirmed reservations. */
  lemma {:induction false} UsageIsExactlyConfirmed(history: seq<Timed>)
    ensures Valid(Run(EMPTY, history))
  {
    if history != [] {
      UsageIsExactlyConfirmed(history[..|history| - 1]);
      ApplyKeepsValid(Run(EMPTY, history[..|history| - 1]), history[|history| - 1]);
    }
  }

  // ---------- the rolling limit ----------

  /** A usage row whose reservation was confirmed before its hold expired. */
  predicate Timely(s: State, p: string) {
    p in s.usage && p in s.byPayment && s.byPayment[p] in s.reservations
    && s.usage[p].settledAt < s.reservations[s.byPayment[p]].expiresAt
  }

  function TimelyTerm(s: State, consentId: string, now: int, p: string): int {
    if Timely(s, p) then UsedTerm(s, consentId, now, p) else 0
  }

  function TimelyUsed(s: State, consentId: string, now: int): int {
    Sum(s.usages, p => TimelyTerm(s, consentId, now, p))
  }

  ghost predicate WithinLimit(s: State, now: int) {
    forall c :: c in s.consents ==> TimelyUsed(s, c, now) + HeldSum(s, c, now) <= s.consents[c].maxMonthly
  }

  /** The reservation reaches the addition `used + held + amount`, and that sum does not fit 64 bits. */
  predicate Overflows(s: State, t: Timed) {
    && t.op.ReserveOp?
    && t.op.paymentId !in s.byPayment
    && t.op.consentId in s.consents
    && t.op.amount <= s.consents[t.op.consentId].maxAmount
    && Used(s, t.op.consentId, t.now) + HeldSum(s, t.op.consentId, t.now) + t.op.amount > INT64_MAX
  }

  lemma TimelyIsUsed(s: State, c: string, now: int)
    requires Valid(s)
    ensures 0 <= TimelyUsed(s, c, now) <= Used(s, c, now)
    ensures 0 <= HeldSum(s, c, now)
  {
    forall p | p in s.usages ensures 0 <= TimelyTerm(s, c, now, p) <= UsedTerm(s, c, now, p) {
      assert UsageMatches(s, p);
    }
    SumMonotone(s.usages, p => TimelyTerm(s, c, now, p), p => UsedTerm(s, c, now, p));
    NonNegative(s.usages, p => TimelyTerm(s, c, now, p));
    NonNegative(s.holds, r => HeldTerm(s, c, now, r));
  }

  lemma {:induction false} NonNegative<K>(keys: seq<K>, f: K -> int)
    requires forall k :: k in keys ==> f(k) >= 0
    ensures Sum(keys, f) >= 0
  {
    if keys != [] {
      NonNegative(keys[..|keys| - 1], f);
    }
  }

  /** Time only frees allowance. */
  lemma LimitSurvivesTime(s: State, now: int, later: int)
    requires Valid(s) && WithinLimit(s, now) && now <= later
    ensures WithinLimit(s, later)
  {
    forall c | c in s.consents
      ensures TimelyUsed(s, c, later) + HeldSum(s, c, later) <= s.consents[c].maxMonthly
    {
      forall p | p in s.usages ensures TimelyTerm(s, c, later, p) <= TimelyTerm(s, c, now, p) {
        assert UsageMatches(s, p);
      }
      SumMonotone(s.usages, p => TimelyTerm(s, c, later, p), p => TimelyTerm(s, c, now, p));
      SumMonotone(s.holds, r => HeldTerm(s, c, later, r), r => HeldTerm(s, c, now, r));
    }
  }

  /** `after` is `s` with one fresh hold of `amount` on `consentId`. */
  ghost predicate HoldAdded(s: State, after: State, consentId: string, paymentId: string, amount: int, now: int,
                            newId: string) {
    && newId !in s.reservations && paymentId !in s.byPayment
    && after == s.(holds := s.holds + [newId],
                   reservations :=
                     s.reservations[newId := Reservation(consentId, paymentId, amount, Held, now + HOLD_SECONDS)],
                   byPayment := s.byPayment[paymentId := newId])
  }

  lemma UsedAfterHold(s: State, after: State, consentId: string, paymentId: string, amount: int, now: int,
                      newId: string, c: string)
    requires Valid(s) && HoldAdded(s, after, consentId, paymentId, amount, now, newId)
    ensures TimelyUsed(after, c, now) == TimelyUsed(s, c, now)
    ensures Used(after, c, now) == Used(s, c, now)
  {
    forall p | p in s.usages ensures TimelyTerm(s, c, now, p) == TimelyTerm(after, c, now, p) {
      assert UsageMatches(s, p);
      assert p in s.byPayment && p != paymentId && s.byPayment[p] != newId;
    }
    SumCongruent(s.usages, p => TimelyTerm(s, c, now, p), p => TimelyTerm(after, c, now, p));
    SumCongruent(s.usages, p => UsedTerm(s, c, now, p), p => UsedTerm(after, c, now, p));
  }

  lemma HeldAfterHold(s: State, after: State, consentId: string, paymentId: string, amount: int, now: int,
                      newId: string, c: string)
    requires HoldAdded(s, after, consentId, paymentId, amount, now, newId)
    requires forall r :: r in s.holds ==> r in s.reservations
    ensures HeldSum(after, c, now) == HeldSum(s, c, now) + (if c == consentId then amount else 0)
  {
    SumAppend(s.holds, newId, k => HeldTerm(after, c, now, k));
    SumCongruent(s.holds, k => HeldTerm(s, c, now, k), k => HeldTerm(after, c, now, k));
  }

  lemma SumsAfterHold(s: State, after: State, consentId: string, paymentId: string, amount: int, now: int,
                      newId: string, c: string)
    requires Valid(s) && HoldAdded(s, after, consentId, paymentId, amount, now, newId)
    ensures TimelyUsed(after, c, now) == TimelyUsed(s, c, now)
    ensures Used(after, c, now) == Used(s, c, now)
    ensures HeldSum(after, c, now) == HeldSum(s, c, now) + (if c == consentId then amount else 0)
  {
    UsedAfterHold(s, after, consentId, paymentId, amount, now, newId, c);
    HeldAfterHold(s, after, consentId, paymentId, amount, now, newId, c);
  }

  /** A reservation either changes nothing, or adds a hold that the checks let through. */
  lemma ReserveAddsHold(s: State, t: Timed)
    requires t.op.ReserveOp?
    ensures var (after, answer) := Reserve(s, t.op.consentId, t.op.paymentId, t.op.amount, t.op.currency, t.now,
                                           t.op.newId);
            after == s ||
            (&& HoldAdded(s, after, t.op.consentId, t.op.paymentId, t.op.amount, t.now, t.op.newId)
             && t.op.consentId in s.consents && 0 < t.op.amount <= s.consents[t.op.consentId].maxAmount
             && Wrap64(Used(s, t.op.consentId, t.now) + HeldSum(s, t.op.consentId, t.now) + t.op.amount)
                  <= s.consents[t.op.consentId].maxMonthly
             && Readable(s, t.op.consentId, t.now)
             && answer.Ok? && answer.value.reservationId == t.op.newId
             && answer.value.remaining == Clamp(Wrap64(
                  s.consents[t.op.consentId].maxMonthly
                  - Used(s, t.op.consentId, t.now) - HeldSum(s, t.op.consentId, t.now) - t.op.amount)))
  {
  }

  lemma SumsAfterRelease(s: State, r: string, now: int, c: string)
    requires Valid(s)
    ensures TimelyUsed(Release(s, r).0, c, now) == TimelyUsed(s, c, now)
    ensures HeldSum(Release(s, r).0, c, now) <= HeldSum(s, c, now)
  {
    var after := Release(s, r).0;
    SumCongruent(s.usages, p => TimelyTerm(s, c, now, p), p => TimelyTerm(after, c, now, p));
    SumMonotone(s.holds, k => HeldTerm(after, c, now, k), k => HeldTerm(s, c, now, k));
  }

  /** The row `r`, held in `s`, is confirmed and given a usage row at `now`. */
  ghost predicate HoldConfirmed(s: State, after: State, r: string, now: int) {
    && r in s.reservations && s.reservations[r].status == Held
    && after == InsertUsage(SetStatus(s, r, Confirmed), s.reservations[r], now)
  }

  lemma ConfirmEffect(s: State, r: string, payment: string, now: int)
    requires Valid(s)
    ensures var after := Confirm(s, r, payment, now).0;
            after == s || HoldConfirmed(s, after, r, now)
  {
    if r in s.reservations && s.reservations[r].status == Confirmed {
      assert UsageMatches(s, s.reservations[r].paymentId);
    }
  }

  lemma TimelyAfterConfirm(s: State, after: State, r: string, now: int, c: string)
    requires Valid(s) && HoldConfirmed(s, after, r, now)
    ensures var row := s.reservations[r];
            TimelyUsed(after, c, now) ==
              TimelyUsed(s, c, now) + (if c == row.consentId && now < row.expiresAt then row.amount else 0)
  {
    var p := s.reservations[r].paymentId;
    assert UsageMatches(s, p);
    forall k | k in s.usages ensures TimelyTerm(s, c, now, k) == TimelyTerm(after, c, now, k) {
      assert UsageMatches(s, k);
      assert k in s.byPayment && s.byPayment[k] != r;
    }
    SumAppend(s.usages, p, k => TimelyTerm(after, c, now, k));
    SumCongruent(s.usages, k => TimelyTerm(s, c, now, k), k => TimelyTerm(after, c, now, k));
  }

  lemma HeldAfterConfirm(s: State, after: State, r: string, now: int, c: string)
    requires Distinct(s.holds) && r in s.holds && HoldConfirmed(s, after, r, now)
    ensures var row := s.reservations[r];
            HeldSum(after, c, now) ==
              HeldSum(s, c, now) - (if c == row.consentId && now < row.expiresAt then row.amount else 0)
  {
    SumChangeOne(s.holds, r, k => HeldTerm(s, c, now, k), k => HeldTerm(after, c, now, k));
  }

  /** A confirmation moves its amount from held to used if it is timely, and adds nothing timely otherwise. */
  lemma SumsAfterConfirm(s: State, r: string, payment: string, now: int, c: string)
    requires Valid(s)
    ensures var after := Confirm(s, r, payment, now).0;
            TimelyUsed(after, c, now) + HeldSum(after, c, now) == TimelyUsed(s, c, now) + HeldSum(s, c, now)
  {
    var after := Confirm(s, r, payment, now).0;
    ConfirmEffect(s, r, payment, now);
    if after != s {
      TimelyAfterConfirm(s, after, r, now, c);
      HeldAfterConfirm(s, after, r, now, c);
    }
  }

  lemma FreshConsentIsUnused(s: State, c: string, now: int)
    requires Valid(s) && c !in s.consents
    ensures TimelyUsed(s, c, now) == 0 && HeldSum(s, c, now) == 0
  {
    forall p | p in s.usages ensures TimelyTerm(s, c, now, p) == 0 {
      assert UsageMatches(s, p);
    }
    SumCongruent(s.usages, k => TimelyTerm(s, c, now, k), k => 0);
    SumCongruent(s.holds, k => HeldTerm(s, c, now, k), k => 0);
    Zeroes(s.usages);
    Zeroes(s.holds);
  }

  lemma {:induction false} Zeroes<K>(keys: seq<K>)
    ensures Sum(keys, k => 0) == 0
  {
    if keys != [] {
      Zeroes(keys[..|keys| - 1]);
    }
  }

  /** Consents come and go without touching reservations; limits of a consent never change. */
  ghost predicate AdminStep(s: State, after: State) {
    && after == s.(consents := after.consents)
    && (forall c :: c in s.consents ==> c in after.consents && after.consents[c].maxMonthly == s.consents[c].maxMonthly)
    && (forall c :: c in after.consents && c !in s.consents ==> after.consents[c].maxMonthly > 0)
  }

  lemma CreateIsAdmin(s: State, id: string, c: Consent, now: int)
    ensures AdminStep(s, Create(s, id, c, now).0)
  {
  }

  lemma RevokeIsAdmin(s: State, id: string, merchant: string)
    ensures AdminStep(s, Revoke(s, id, merchant).0)
  {
  }

  lemma AdminKeepsLimit(s: State, after: State, now: int)
    requires Valid(s) && WithinLimit(s, now) && AdminStep(s, after)
    ensures WithinLimit(after, now)
  {
    forall c | c in after.consents
      ensures TimelyUsed(after, c, now) + HeldSum(after, c, now) <= after.consents[c].maxMonthly
    {
      SumCongruent(s.usages, k => TimelyTerm(s, c, now, k), k => TimelyTerm(after, c, now, k));
      SumCongruent(s.holds, k => HeldTerm(s, c, now, k), k => HeldTerm(after, c, now, k));
      if c !in s.consents {
        FreshConsentIsUnused(s, c, now);
      }
    }
  }

  lemma ReserveKeepsLimit(s: State, t: Timed)
    requires Valid(s) && WithinLimit(s, t.now) && t.op.ReserveOp? && !Overflows(s, t)
    ensures WithinLimit(Reserve(s, t.op.consentId, t.op.paymentId, t.op.amount, t.op.currency, t.now, t.op.newId).0,
                   t.now)
  {
    var after := Reserve(s, t.op.consentId, t.op.paymentId, t.op.amount, t.op.currency, t.now, t.op.newId).0;
    ReserveAddsHold(s, t);
    if after != s {
      forall c | c in s.consents
        ensures TimelyUsed(after, c, t.now) + HeldSum(after, c, t.now) <= s.consents[c].maxMonthly
      {
        SumsAfterHold(s, after, t.op.consentId, t.op.paymentId, t.op.amount, t.now, t.op.newId, c);
        TimelyIsUsed(s, c, t.now);
      }
    }
  }

  lemma ConfirmKeepsLimit(s: State, r: string, payment: string, now: int)
    requires Valid(s) && WithinLimit(s, now)
    ensures WithinLimit(Confirm(s, r, payment, now).0, now)
  {
    var after := Confirm(s, r, payment, now).0;
    assert after.consents == s.consents;
    forall c | c in s.consents ensures TimelyUsed(after, c, now) + HeldSum(after, c, now) <= s.consents[c].maxMonthly {
      SumsAfterConfirm(s, r, payment, now, c);
    }
  }

  lemma ReleaseKeepsLimit(s: State, r: string, now: int)
    requires Valid(s) && WithinLimit(s, now)
    ensures WithinLimit(Release(s, r).0, now)
  {
    var after := Release(s, r).0;
    assert after.consents == s.consents;
    forall c | c in s.consents ensures TimelyUsed(after, c, now) + HeldSum(after, c, now) <= s.consents[c].maxMonthly {
      SumsAfterRelease(s, r, now, c);
    }
  }

  lemma ApplyKeepsLimit(s: State, t: Timed)
    requires Valid(s) && WithinLimit(s, t.now) && !Overflows(s, t)
    ensures WithinLimit(Apply(s, t), t.now)
  {
    match t.op
    case CreateOp(id, c) =>
      CreateIsAdmin(s, id, c, t.now);
      AdminKeepsLimit(s, Create(s, id, c, t.now).0, t.now);
    case RevokeOp(id, m) =>
      RevokeIsAdmin(s, id, m);
      AdminKeepsLimit(s, Revoke(s, id, m).0, t.now);
    case ReserveOp(_, _, _, _, _) => ReserveKeepsLimit(s, t);
    case ConfirmOp(r, p) => ConfirmKeepsLimit(s, r, p, t.now);
    case ReleaseOp(r) => ReleaseKeepsLimit(s, r, t.now);
  }

  /** No reservation of the history overflows the 64-bit addition. */
  ghost predicate NoOverflow(history: seq<Timed>) {
    forall i :: 0 <= i < |history| ==> !Overflows(Run(EMPTY, history[..i]), history[i])
  }

  /** Over every history with a monotone clock, at every later instant and for every consent: usage
      confirmed before its hold expired and still inside 30 days, plus unexpired holds, is within the
      monthly maximum. */
  lemma {:induction false} RollingLimit(history: seq<Timed>, now: int)
    requires Monotone(history) && NoOverflow(history)
    requires history != [] ==> history[|history| - 1].now <= now
    ensures WithinLimit(Run(EMPTY, history), now)
  {
    if history != [] {
      var n := |history| - 1;
      var front, last := history[..n], history[n];
      assert forall i :: 0 <= i < n ==> front[..i] == history[..i];
      assert history[..n] == front;
      RollingLimit(front, last.now);
      UsageIsExactlyConfirmed(front);
      UsageIsExactlyConfirmed(history);
      ApplyKeepsLimit(Run(EMPTY, front), last);
      LimitSurvivesTime(Run(EMPTY, history), last.now, now);
    }
  }

  /** The overflow guard is exact: an accepted reservation leaves used plus held within the maximum if
      and only if the sum it was checked with fits 64 bits. */
  lemma LimitKeptIffNoOverflow(s: State, t: Timed)
    requires Valid(s) && t.op.ReserveOp? && t.op.consentId in s.consents
    requires IsInt64(s.consents[t.op.consentId].maxMonthly)
    ensures var c := t.op.consentId;
            var after := Reserve(s, c, t.op.paymentId, t.op.amount, t.op.currency, t.now, t.op.newId).0;
            after != s ==>
              (Used(after, c, t.now) + HeldSum(after, c, t.now) <= s.consents[c].maxMonthly <==> !Overflows(s, t))
  {
    var c := t.op.consentId;
    var after := Reserve(s, c, t.op.paymentId, t.op.amount, t.op.currency, t.now, t.op.newId).0;
    ReserveAddsHold(s, t);
    if after != s {
      SumsAfterHold(s, after, c, t.op.paymentId, t.op.amount, t.now, t.op.newId, c);
      TimelyIsUsed(s, c, t.now);
    }
  }

  /** A consent with the largest possible limits, and a hold of all of it. */
  function Widest(now: int): Consent {
    Consent(Active, "m", "u", "ref", INT64_MAX, INT64_MAX, "GBP", now + 1)
  }

  function WidestHold(now: int, payment: string, newId: string): Timed {
    At(now, ReserveOp("c", payment, INT64_MAX, "GBP", newId))
  }

  lemma WidestHoldAccepted(s: State, now: int, payment: string, newId: string)
    requires Valid(s) && "c" in s.consents && s.consents["c"] == Widest(now)
    requires payment != "" && payment !in s.byPayment && newId !in s.reservations
    requires Used(s, "c", now) == 0 && HeldSum(s, "c", now) in {0, INT64_MAX}
    ensures var after := Apply(s, WidestHold(now, payment, newId));
            && Valid(after)
            && HoldAdded(s, after, "c", payment, INT64_MAX, now, newId)
            && Used(after, "c", now) == 0
            && HeldSum(after, "c", now) == HeldSum(s, "c", now) + INT64_MAX
  {
    var t := WidestHold(now, payment, newId);
    assert Wrap64(INT64_MAX + INT64_MAX) == -2;
    var after := Reserve(s, "c", payment, INT64_MAX, "GBP", now, newId).0;
    assert HoldAdded(s, after, "c", payment, INT64_MAX, now, newId);
    SumsAfterHold(s, after, "c", payment, INT64_MAX, now, newId, "c");
    ReserveKeepsValid(s, "c", payment, INT64_MAX, "GBP", now, newId);
  }

  /** The family that breaks it is reachable: such a consent accepts two holds of its whole allowance. */
  lemma OverflowBreaksLimit(now: int)
    ensures var history :=
              [At(now, CreateOp("c", Widest(now))), WidestHold(now, "p1", "r1"), WidestHold(now, "p2", "r2")];
            HeldSum(Run(EMPTY, history), "c", now) == 2 * INT64_MAX
  {
    var create := At(now, CreateOp("c", Widest(now)));
    var history := [create, WidestHold(now, "p1", "r1"), WidestHold(now, "p2", "r2")];
    assert history[..2][..1] == [create] && [create][..0] == [];
    assert Run(EMPTY, [create]) == Apply(EMPTY, create);
    var s := EMPTY.(consents := map["c" := Widest(now)]);
    assert Create(EMPTY, "c", Widest(now), now).0 == s;
    UsageIsExactlyConfirmed([create]);
    WidestHoldAccepted(s, now, "p1", "r1");
    WidestHoldAccepted(Apply(s, WidestHold(now, "p1", "r1")), now, "p2", "r2");
  }

  // ---------- timely histories ----------

  predicate TimelyConfirm(s: State, t: Timed) {
    var onHeld := t.op.ConfirmOp? && t.op.reservation in s.reservations
      && s.reservations[t.op.reservation].status == Held;
    onHeld ==> t.now < s.reservations[t.op.reservation].expiresAt
  }

  ghost predicate TimelyHistory(history: seq<Timed>) {
    forall i :: 0 <= i < |history| ==> TimelyConfirm(Run(EMPTY, history[..i]), history[i])
  }

  /** Every consent created leaves room for one more payment above its monthly maximum. */
  predicate Roomy(c: Consent) {
    c.maxMonthly <= INT64_MAX && c.maxMonthly + c.maxAmount <= INT64_MAX
  }

  ghost predicate RoomyHistory(history: seq<Timed>) {
    forall i :: 0 <= i < |history| && history[i].op.CreateOp? ==> Roomy(history[i].op.consent)
  }

  ghost predicate AllTimely(s: State) {
    && (forall p :: p in s.usage ==> Timely(s, p))
    && (forall c :: c in s.consents ==> Roomy(s.consents[c]))
  }

  lemma AllTimelyUsed(s: State, c: string, now: int)
    requires Valid(s) && AllTimely(s)
    ensures Used(s, c, now) == TimelyUsed(s, c, now)
  {
    SumCongruent(s.usages, p => UsedTerm(s, c, now, p), p => TimelyTerm(s, c, now, p));
  }

  lemma HoldKeepsTimely(s: State, after: State, t: Timed)
    requires Valid(s) && AllTimely(s) && t.op.ReserveOp?
    requires HoldAdded(s, after, t.op.consentId, t.op.paymentId, t.op.amount, t.now, t.op.newId)
    ensures AllTimely(after)
  {
    forall p | p in after.usage ensures Timely(after, p) {
      assert UsageMatches(s, p) && Timely(s, p);
    }
  }

  lemma ConfirmKeepsTimely(s: State, after: State, r: string, now: int)
    requires Valid(s) && AllTimely(s) && HoldConfirmed(s, after, r, now) && now < s.reservations[r].expiresAt
    ensures AllTimely(after)
  {
    forall p | p in after.usage ensures Timely(after, p) {
      assert UsageMatches(s, p);
      assert p in s.usage ==> Timely(s, p);
    }
  }

  lemma ApplyKeepsTimely(s: State, t: Timed)
    requires Valid(s) && AllTimely(s) && TimelyConfirm(s, t)
    requires t.op.CreateOp? ==> Roomy(t.op.consent)
    ensures AllTimely(Apply(s, t))
  {
    match t.op
    case CreateOp(_, _) => assert forall p :: p in s.usage ==> Timely(s, p);
    case RevokeOp(_, _) => assert forall p :: p in s.usage ==> Timely(s, p);
    case ReserveOp(_, _, _, _, _) =>
      ReserveAddsHold(s, t);
      if Apply(s, t) != s {
        HoldKeepsTimely(s, Apply(s, t), t);
      }
    case ConfirmOp(r, p) =>
      ConfirmEffect(s, r, p, t.now);
      if Apply(s, t) != s {
        ConfirmKeepsTimely(s, Apply(s, t), r, t.now);
      }
    case ReleaseOp(_) => assert forall p :: p in s.usage ==> Timely(s, p);
  }

  /** Used plus held is within the maximum, for every consent. */
  ghost predicate FullyWithin(s: State, now: int) {
    forall c :: c in s.consents ==> 0 <= Used(s, c, now) + HeldSum(s, c, now) <= s.consents[c].maxMonthly
  }

  lemma TimelyIsFull(s: State, now: int)
    requires Valid(s) && AllTimely(s) && WithinLimit(s, now)
    ensures FullyWithin(s, now)
  {
    forall c | c in s.consents ensures 0 <= Used(s, c, now) + HeldSum(s, c, now) <= s.consents[c].maxMonthly {
      AllTimelyUsed(s, c, now);
      TimelyIsUsed(s, c, now);
    }
  }

  lemma RoomyDoesNotOverflow(s: State, t: Timed)
    requires Valid(s) && AllTimely(s) && FullyWithin(s, t.now)
    ensures !Overflows(s, t)
  {
  }

  lemma TimelyPrefix(history: seq<Timed>)
    requires history != [] && Monotone(history) && TimelyHistory(history) && RoomyHistory(history)
    ensures var n := |history| - 1;
            && Monotone(history[..n]) && TimelyHistory(history[..n]) && RoomyHistory(history[..n])
            && TimelyConfirm(Run(EMPTY, history[..n]), history[n])
            && (history[n].op.CreateOp? ==> Roomy(history[n].op.consent))
            && (n > 0 ==> history[..n][n - 1].now <= history[n].now)
  {
    var n := |history| - 1;
    assert forall i :: 0 <= i < n ==> history[..n][..i] == history[..i];
  }

  lemma NoOverflowExtends(history: seq<Timed>)
    requires history != [] && NoOverflow(history[..|history| - 1])
    requires !Overflows(Run(EMPTY, history[..|history| - 1]), history[|history| - 1])
    ensures NoOverflow(history)
  {
    var n := |history| - 1;
    assert forall i :: 0 <= i < n ==> history[..n][..i] == history[..i];
  }

  /** Timely, roomy and within the limits: kept by a timely, roomy step and by the passing of time. */
  lemma TimelyStep(s: State, t: Timed, now: int)
    requires Valid(s) && AllTimely(s) && WithinLimit(s, t.now) && TimelyConfirm(s, t) && t.now <= now
    requires t.op.CreateOp? ==> Roomy(t.op.consent)
    ensures !Overflows(s, t)
    ensures Valid(Apply(s, t)) && AllTimely(Apply(s, t)) && WithinLimit(Apply(s, t), now)
  {
    TimelyIsFull(s, t.now);
    RoomyDoesNotOverflow(s, t);
    ApplyKeepsValid(s, t);
    ApplyKeepsTimely(s, t);
    ApplyKeepsLimit(s, t);
    LimitSurvivesTime(Apply(s, t), t.now, now);
  }

  lemma {:induction false} TimelyRun(history: seq<Timed>, now: int)
    requires Monotone(history) && TimelyHistory(history) && RoomyHistory(history)
    requires history != [] ==> history[|history| - 1].now <= now
    ensures NoOverflow(history)
    ensures Valid(Run(EMPTY, history)) && AllTimely(Run(EMPTY, history)) && WithinLimit(Run(EMPTY, history), now)
  {
    if history != [] {
      var n := |history| - 1;
      TimelyPrefix(history);
      TimelyRun(history[..n], history[n].now);
      TimelyStep(Run(EMPTY, history[..n]), history[n], now);
      NoOverflowExtends(history);
    }
  }

  /** If every confirmation is timely and every consent roomy, no reservation can overflow, and used plus
      held is within the monthly maximum at every instant. */
  lemma TimelyLimit(history: seq<Timed>, now: int)
    requires Monotone(history) && TimelyHistory(history) && RoomyHistory(history)
    requires history != [] ==> history[|history| - 1].now <= now
    ensures NoOverflow(history)
    ensures Valid(Run(EMPTY, history)) && AllTimely(Run(EMPTY, history)) && FullyWithin(Run(EMPTY, history), now)
  {
    TimelyRun(history, now);
    TimelyIsFull(Run(EMPTY, history), now);
  }

  /** What a reservation answers is exactly what is left after it, and what GetRollingUsage says then. */
  ghost predicate Agrees(after: State, c: string, remaining: int, now: int) {
    && c in after.consents
    && remaining == after.consents[c].maxMonthly - Used(after, c, now) - HeldSum(after, c, now)
    && remaining >= 0
    && (c == "" || TxCount(after, c, now) > INT32_MAX || RollingUsage(after, c, now) ==
          Ok(UsageReport(Used(after, c, now) + HeldSum(after, c, now), remaining, TxCount(after, c, now))))
  }

  lemma RollingUsageInRange(s: State, c: string, now: int)
    requires Valid(s) && c in s.consents && s.consents[c].maxMonthly <= INT64_MAX
    requires Used(s, c, now) + HeldSum(s, c, now) <= s.consents[c].maxMonthly
    ensures Agrees(s, c, s.consents[c].maxMonthly - Used(s, c, now) - HeldSum(s, c, now), now)
  {
    TimelyIsUsed(s, c, now);
  }

  lemma FreshRemaining(s: State, t: Timed)
    requires Valid(s) && AllTimely(s) && FullyWithin(s, t.now) && t.op.ReserveOp?
    ensures var (after, answer) := Reserve(s, t.op.consentId, t.op.paymentId, t.op.amount, t.op.currency, t.now,
                                           t.op.newId);
            after != s ==>
              && answer.Ok? && answer.value.reservationId == t.op.newId && t.op.newId in after.reservations
              && after.reservations[t.op.newId].consentId == t.op.consentId
              && Agrees(after, t.op.consentId, answer.value.remaining, t.now)
  {
    var (after, answer) := Reserve(s, t.op.consentId, t.op.paymentId, t.op.amount, t.op.currency, t.now, t.op.newId);
    var c := t.op.consentId;
    ReserveAddsHold(s, t);
    ReserveKeepsValid(s, c, t.op.paymentId, t.op.amount, t.op.currency, t.now, t.op.newId);
    if after != s {
      SumsAfterHold(s, after, c, t.op.paymentId, t.op.amount, t.now, t.op.newId, c);
      TimelyIsUsed(s, c, t.now);
      RoomyDoesNotOverflow(s, t);
      RollingUsageInRange(after, c, t.now);
    }
  }

  lemma RepeatedRemaining(s: State, r: string, now: int)
    requires Valid(s) && AllTimely(s) && FullyWithin(s, now) && r in s.reservations
    ensures var answer := ReReserve(s, r, now);
            answer.Ok? && answer.value.reservationId == r
              && Agrees(s, s.reservations[r].consentId, answer.value.remaining, now)
  {
    TimelyIsUsed(s, s.reservations[r].consentId, now);
    RollingUsageInRange(s, s.reservations[r].consentId, now);
  }

  ghost predicate AnswerAgrees(after: State, answer: Result<Reserved>, now: int) {
    answer.Ok? ==>
      && answer.value.reservationId in after.reservations
      && Agrees(after, after.reservations[answer.value.reservationId].consentId, answer.value.remaining, now)
  }

  lemma RemainingAgreesAt(s: State, t: Timed)
    requires Valid(s) && AllTimely(s) && FullyWithin(s, t.now) && t.op.ReserveOp?
    ensures var (after, answer) := Reserve(s, t.op.consentId, t.op.paymentId, t.op.amount, t.op.currency, t.now,
                                           t.op.newId);
            AnswerAgrees(after, answer, t.now)
  {
    FreshRemaining(s, t);
    if t.op.paymentId in s.byPayment {
      RepeatedRemaining(s, s.byPayment[t.op.paymentId], t.now);
    }
  }

  /** In such a history the remaining allowance answered to a reservation, fresh or repeated, needs no
      clamping and is the one GetRollingUsage reports at that instant. */
  lemma RemainingAgrees(history: seq<Timed>, t: Timed)
    requires Monotone(history) && TimelyHistory(history) && RoomyHistory(history)
    requires history != [] ==> history[|history| - 1].now <= t.now
    requires t.op.ReserveOp?
    ensures var (after, answer) :=
              Reserve(Run(EMPTY, history), t.op.consentId, t.op.paymentId, t.op.amount, t.op.currency, t.now,
                      t.op.newId);
            AnswerAgrees(after, answer, t.now)
  {
    TimelyLimit(history, t.now);
    RemainingAgreesAt(Run(EMPTY, history), t);
  }
}
