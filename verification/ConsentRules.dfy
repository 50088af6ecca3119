/** When the consent service says yes: the exact conditions of each operation, how long a hold and a usage count,
    and that a revoked or expired consent is never charged again. */
module ConsentRules {
  import opened Basics
  import opened Consents
  import opened ConsentLaws

  // ---------- each operation, exactly ----------

  /** A first reservation of a payment is granted if and only if everything is in order. */
  lemma ReserveIff(s: State, consentId: string, paymentId: string, amount: int, currency: string, now: int,
                   newId: string)
    requires paymentId !in s.byPayment
    ensures var (after, answer) := Reserve(s, consentId, paymentId, amount, currency, now, newId);
            && (answer.Ok? <==>
                  && consentId != "" && paymentId != "" && amount > 0 && consentId in s.consents
                  && var c := s.consents[consentId];
                  && c.status == Active && now < c.validUntil
                  && (currency == "" || c.currency == "" || currency == c.currency)
                  && amount <= c.maxAmount
                  && IsInt64(Used(s, consentId, now)) && IsInt64(HeldSum(s, consentId, now))
                  && Wrap64(Used(s, consentId, now) + HeldSum(s, consentId, now) + amount) <= c.maxMonthly
                  && newId !in s.reservations)
            && (answer.Err? ==> after == s)
            && (answer.Ok? ==>
                  && after.reservations ==
                       s.reservations[newId := Reservation(consentId, paymentId, amount, Held, now + 600)]
                  && after.byPayment == s.byPayment[paymentId := newId]
                  && after.consents == s.consents && after.usage == s.usage
                  && answer.value.reservationId == newId
                  && answer.value.consumer == s.consents[consentId].consumer
                  && answer.value.bankConsentRef == s.consents[consentId].bankConsentRef)
  {
  }

  /** The reason of a refusal, in the order the service looks for it. */
  lemma RefusalReason(s: State, consentId: string, paymentId: string, amount: int, currency: string, now: int,
                      newId: string)
    requires paymentId !in s.byPayment && consentId != "" && paymentId != "" && amount > 0
    ensures var answer := Reserve(s, consentId, paymentId, amount, currency, now, newId).1;
            && (consentId !in s.consents ==> answer == Err(NotFound))
            && (consentId in s.consents ==>
                  var c := s.consents[consentId];
                  && (answer == Err(ConsentRevoked) <==> c.status == Revoked)
                  && (answer == Err(ConsentExpired) <==>
                        c.status != Revoked && (c.status == Expired || c.validUntil <= now))
                  && (answer == Err(ConsentInactive) <==> c.status == Pending && now < c.validUntil)
                  && (c.status == Active && now < c.validUntil ==>
                        && (answer == Err(Validation) <==>
                              currency != "" && c.currency != "" && currency != c.currency)
                        && (answer == Err(LimitExceeded) <==>
                              && (currency == "" || c.currency == "" || currency == c.currency)
                              && (amount > c.maxAmount
                                  || (&& IsInt64(Used(s, consentId, now)) && IsInt64(HeldSum(s, consentId, now))
                                      && Wrap64(Used(s, consentId, now) + HeldSum(s, consentId, now) + amount)
                                           > c.maxMonthly)))))
  {
  }

  /** A confirmation succeeds iff it names a reservation of that payment that was not released; then the reservation is
      CONFIRMED and counted once. */
  lemma ConfirmIff(s: State, r: string, paymentId: string, now: int)
    ensures var (after, err) := Confirm(s, r, paymentId, now);
            && (err.None? <==>
                  && r != "" && r in s.reservations && s.reservations[r].status != Released
                  && (paymentId == "" || s.reservations[r].paymentId == paymentId))
            && (err.Some? ==> after == s)
            && (err == Some(Conflict) <==>
                  && r != "" && r in s.reservations && s.reservations[r].status == Released
                  && (paymentId == "" || s.reservations[r].paymentId == paymentId))
            && (err == Some(NotFound) <==> r != "" && r !in s.reservations)
            && (err in {None, Some(Validation), Some(NotFound), Some(Conflict)})
            && (err.None? ==>
                  && r in after.reservations && after.reservations[r] == s.reservations[r].(status := Confirmed)
                  && var p := s.reservations[r].paymentId;
                  && p in after.usage
                  && (p !in s.usage ==>
                        after.usage[p] == Usage(s.reservations[r].consentId, s.reservations[r].amount, now))
                  && (p in s.usage ==> after.usage == s.usage))
  {
  }

  /** A release succeeds iff it names a reservation that was not confirmed; then it is RELEASED and nothing else
      changes. */
  lemma ReleaseIff(s: State, r: string)
    ensures var (after, err) := Release(s, r);
            && (err.None? <==> r != "" && r in s.reservations && s.reservations[r].status != Confirmed)
            && (err.Some? ==> after == s)
            && (err == Some(Conflict) <==> r != "" && r in s.reservations && s.reservations[r].status == Confirmed)
            && (err == Some(NotFound) <==> r != "" && r !in s.reservations)
            && (err in {None, Some(Validation), Some(NotFound), Some(Conflict)})
            && (err.None? ==>
                  && after == s.(reservations := after.reservations) && after.reservations.Keys == s.reservations.Keys
                  && after.reservations[r] == s.reservations[r].(status := Released)
                  && forall k :: k in s.reservations && k != r ==> after.reservations[k] == s.reservations[k])
  {
  }

  /** A consent is created iff its parties and limits are in order and neither its id nor its bank reference is known;
      it is active at once, in pounds unless it says otherwise. */
  lemma CreateIff(s: State, newId: string, c: Consent, now: int)
    ensures var (after, err) := Create(s, newId, c, now);
            && (err.None? <==>
                  && c.merchant != "" && c.consumer != "" && c.bankConsentRef != ""
                  && 0 < c.maxAmount <= c.maxMonthly && now < c.validUntil && newId !in s.consents
                  && forall k :: k in s.consents ==> s.consents[k].bankConsentRef != c.bankConsentRef)
            && (err.Some? ==> after == s && err in {Some(Validation), Some(AlreadyExists)})
            && (err == Some(AlreadyExists) ==>
                  || newId in s.consents
                  || exists k :: k in s.consents && s.consents[k].bankConsentRef == c.bankConsentRef)
            && (err.None? ==>
                  && after == s.(consents := after.consents)
                  && after.consents == s.consents[newId := after.consents[newId]]
                  && after.consents[newId] == c.(status := Active, currency := after.consents[newId].currency)
                  && after.consents[newId].currency == (if c.currency == "" then "GBP" else c.currency))
  {
  }

  /** A consent is revoked iff it exists, belongs to the merchant who asks (if one is named) and is active or revoked
      already; nobody else's request changes anything. */
  lemma RevokeIff(s: State, consentId: string, merchant: string)
    ensures var (after, err) := Revoke(s, consentId, merchant);
            && (err.None? <==>
                  && consentId != "" && consentId in s.consents
                  && (merchant == "" || s.consents[consentId].merchant == merchant)
                  && s.consents[consentId].status in {Active, Revoked})
            && (err.Some? ==> after == s && err in {Some(Validation), Some(NotFound), Some(ConsentInactive)})
            && (err == Some(Validation) <==> consentId == "")
            && (err == Some(ConsentInactive) <==>
                  && consentId != "" && consentId in s.consents && s.consents[consentId].status in {Pending, Expired}
                  && (merchant == "" || s.consents[consentId].merchant == merchant))
            && (err.None? ==>
                  && after == s.(consents := after.consents)
                  && after.consents == s.consents[consentId := s.consents[consentId].(status := Revoked)])
  {
  }

  /** The report is made iff the consent is named and known and the sums and the count can be read. */
  lemma ReportIff(s: State, consentId: string, now: int)
    ensures var answer := RollingUsage(s, consentId, now);
            && (answer == Err(Validation) <==> consentId == "")
            && (answer == Err(NotFound) <==> consentId != "" && consentId !in s.consents)
            && (answer.Ok? <==>
                  && consentId != "" && consentId in s.consents
                  && IsInt64(Used(s, consentId, now)) && IsInt64(HeldSum(s, consentId, now))
                  && TxCount(s, consentId, now) <= 0x7fff_ffff)
            && (answer.Ok? ==> answer.value.txCount == TxCount(s, consentId, now) && answer.value.remaining >= 0)
  {
  }

  // ---------- how long things count ----------

  /** A hold counts for ten minutes, a usage for thirty days: to the second. */
  lemma CountsFor(s: State, c: string, key: string, now: int)
    ensures key in s.reservations && s.reservations[key].consentId == c && s.reservations[key].status == Held ==>
              HeldTerm(s, c, now, key) ==
                if now < s.reservations[key].expiresAt then s.reservations[key].amount else 0
    ensures key in s.usage && s.usage[key].consentId == c ==>
              (UsedTerm(s, c, now, key) == if now - s.usage[key].settledAt < 2_592_000 then s.usage[key].amount else 0)
    ensures key in s.usage && s.usage[key].consentId == c ==>
              (CountTerm(s, c, now, key) == if now - s.usage[key].settledAt < 2_592_000 then 1 else 0)
  {
  }

  /** A reservation granted at `t` raises what is held of its consent by its amount for 600 seconds, and by nothing
      from then on. */
  lemma HoldLifetime(s: State, t: Timed, now: int)
    requires Valid(s) && t.op.ReserveOp? && Apply(s, t) != s && t.now <= now
    ensures HeldSum(Apply(s, t), t.op.consentId, now) ==
              HeldSum(s, t.op.consentId, now) + if now < t.now + 600 then t.op.amount else 0
  {
    var after, c := Apply(s, t), t.op.consentId;
    ReserveAddsHold(s, t);
    SumAppend(s.holds, t.op.newId, k => HeldTerm(after, c, now, k));
    SumCongruent(s.holds, k => HeldTerm(s, c, now, k), k => HeldTerm(after, c, now, k));
  }

  /** A hold confirmed at `t` raises what is used of its consent by its amount for thirty days, and by nothing from then
      on; from the confirmation on it is no longer held. */
  lemma UsageLifetime(s: State, r: string, t: int, now: int)
    requires Valid(s) && r != "" && r in s.reservations && s.reservations[r].status == Held && t <= now
    ensures var after, row := Confirm(s, r, "", t).0, s.reservations[r];
            && Used(after, row.consentId, now) ==
                 Used(s, row.consentId, now) + (if now < t + 2_592_000 then row.amount else 0)
            && HeldSum(after, row.consentId, now) ==
                 HeldSum(s, row.consentId, now) - (if now < row.expiresAt then row.amount else 0)
  {
    var after, row := Confirm(s, r, "", t).0, s.reservations[r];
    var c, p := row.consentId, row.paymentId;
    assert UsageMatches(s, p);
    SumAppend(s.usages, p, k => UsedTerm(after, c, now, k));
    SumCongruent(s.usages, k => UsedTerm(s, c, now, k), k => UsedTerm(after, c, now, k));
    SumChangeOne(s.holds, r, k => HeldTerm(s, c, now, k), k => HeldTerm(after, c, now, k));
  }

  // ---------- a closed consent stays closed ----------

  /** Revoked, or expired by then. */
  predicate Closed(s: State, c: string, now: int) {
    c in s.consents && (s.consents[c].status == Revoked || s.consents[c].validUntil <= now)
  }

  /** The reservations ever made on a consent. */
  function HoldsOn(s: State, c: string): set<string> {
    set r | r in s.reservations && s.reservations[r].consentId == c
  }

  /** After a successful revocation the consent is closed at any time. */
  lemma RevokedIsClosed(s: State, c: string, merchant: string, now: int)
    requires Revoke(s, c, merchant).1.None?
    ensures Closed(Revoke(s, c, merchant).0, c, now)
  {
  }

  /** The consent is as closed as before, and no hold on it was added. */
  ghost predicate StaysClosed(s: State, after: State, c: string) {
    && c in s.consents && c in after.consents
    && (s.consents[c].status == Revoked ==> after.consents[c].status == Revoked)
    && after.consents[c].validUntil == s.consents[c].validUntil
    && HoldsOn(after, c) == HoldsOn(s, c)
  }

  lemma AdminStaysClosed(s: State, t: Timed, c: string)
    requires c in s.consents && (t.op.CreateOp? || t.op.RevokeOp?)
    ensures StaysClosed(s, Apply(s, t), c)
  {
    if t.op.CreateOp? {
      CreateIff(s, t.op.id, t.op.consent, t.now);
    } else {
      RevokeIff(s, t.op.id, t.op.merchant);
    }
  }

  lemma ReserveStaysClosed(s: State, t: Timed, c: string)
    requires Valid(s) && t.op.ReserveOp? && c in s.consents
    requires s.consents[c].status == Revoked || s.consents[c].validUntil <= t.now
    ensures StaysClosed(s, Apply(s, t), c)
  {
    ClosedRefuses(s, t, c);
    ReserveAddsHold(s, t);
    assert HoldsOn(Apply(s, t), c) == HoldsOn(s, c);
  }

  lemma ConfirmStaysClosed(s: State, t: Timed, c: string)
    requires Valid(s) && t.op.ConfirmOp? && c in s.consents
    ensures StaysClosed(s, Apply(s, t), c)
  {
    ConfirmEffect(s, t.op.reservation, t.op.payment, t.now);
    assert HoldsOn(Apply(s, t), c) == HoldsOn(s, c);
  }

  lemma ReleaseStaysClosed(s: State, t: Timed, c: string)
    requires t.op.ReleaseOp? && c in s.consents
    ensures StaysClosed(s, Apply(s, t), c)
  {
    ReleaseIff(s, t.op.reservation);
    assert HoldsOn(Apply(s, t), c) == HoldsOn(s, c);
  }

  lemma ClosedStep(s: State, t: Timed, c: string, now: int)
    requires Valid(s) && Closed(s, c, now) && (s.consents[c].status == Revoked || now <= t.now)
    ensures StaysClosed(s, Apply(s, t), c)
  {
    match t.op
    case CreateOp(_, _) => AdminStaysClosed(s, t, c);
    case RevokeOp(_, _) => AdminStaysClosed(s, t, c);
    case ReserveOp(_, _, _, _, _) => ReserveStaysClosed(s, t, c);
    case ConfirmOp(_, _) => ConfirmStaysClosed(s, t, c);
    case ReleaseOp(_) => ReleaseStaysClosed(s, t, c);
  }

  lemma ClosedRefuses(s: State, t: Timed, c: string)
    requires t.op.ReserveOp? && c in s.consents
    requires (s.consents[c].status == Revoked || s.consents[c].validUntil <= t.now)
    ensures t.op.consentId == c ==> Apply(s, t) == s
  {
  }

  /** From any state: once a consent is revoked, or from its expiry on with a monotone clock, no continuation of any
      length puts another hold on it. */
  lemma {:induction false} ClosedForGood(s: State, more: seq<Timed>, c: string, now: int)
    requires Valid(s) && Closed(s, c, now)
    requires s.consents[c].status == Revoked || forall i :: 0 <= i < |more| ==> now <= more[i].now
    ensures var after := Run(s, more);
            && Valid(after) && Closed(after, c, now) && HoldsOn(after, c) == HoldsOn(s, c)
            && (s.consents[c].status == Revoked ==> after.consents[c].status == Revoked)
  {
    if more != [] {
      var front, last := more[..|more| - 1], more[|more| - 1];
      ClosedForGood(s, front, c, now);
      ClosedStep(Run(s, front), last, c, now);
      ApplyKeepsValid(Run(s, front), last);
    }
  }
}
