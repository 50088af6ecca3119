/** Consent limits (consent-svc, service.go and repo.go): a rolling 30-day allowance, ten minute
    holds, and the confirm / release life cycle of a reservation. */
module Consents {
  import opened Basics

  const WINDOW_SECONDS := 30 * 24 * 3600
  const HOLD_SECONDS := 600

  datatype ConsentStatus = Pending | Active | Revoked | Expired

  datatype Consent = Consent(
    status: ConsentStatus, merchant: string, consumer: string, bankConsentRef: string,
    maxAmount: int, maxMonthly: int, currency: string, validUntil: int)

  datatype HoldStatus = Held | Confirmed | Released

  datatype Reservation = Reservation(consentId: string, paymentId: string, amount: int, status: HoldStatus,
    expiresAt: int)

  datatype Usage = Usage(consentId: string, amount: int, settledAt: int)

  /** The three tables. `byPayment` is the unique index on the reservation's payment id; `holds` and
      `usages` list the primary keys in insertion order. */
  datatype State = State(
    consents: map<string, Consent>,
    holds: seq<string>, reservations: map<string, Reservation>, byPayment: map<string, string>,
    usages: seq<string>, usage: map<string, Usage>)

  const EMPTY := State(map[], [], map[], map[], [], map[])

  datatype Reserved = Reserved(reservationId: string, remaining: int, consumer: string, bankConsentRef: string)

  // ---------- the rolling sums ----------

  function UsedTerm(s: State, consentId: string, now: int, p: string): int {
    if p in s.usage && s.usage[p].consentId == consentId && s.usage[p].settledAt > now - WINDOW_SECONDS
    then s.usage[p].amount else 0
  }

  function HeldTerm(s: State, consentId: string, now: int, r: string): int {
    if r in s.reservations && s.reservations[r].consentId == consentId && s.reservations[r].status == Held
      && s.reservations[r].expiresAt > now
    then s.reservations[r].amount else 0
  }

  function Used(s: State, consentId: string, now: int): int {
    Sum(s.usages, p => UsedTerm(s, consentId, now, p))
  }

  function HeldSum(s: State, consentId: string, now: int): int {
    Sum(s.holds, r => HeldTerm(s, consentId, now, r))
  }

  /** The database sums are exact; reading one into a 64-bit variable fails when it does not fit. */
  predicate Readable(s: State, consentId: string, now: int) {
    IsInt64(Used(s, consentId, now)) && IsInt64(HeldSum(s, consentId, now))
  }

  function Clamp(x: int): int {
    if x < 0 then 0 else x
  }

  // ---------- the transactions ----------

  function Reserve(s: State, consentId: string, paymentId: string, amount: int, currency: string, now: int,
                   newId: string):
    (State, Result<Reserved>)
  {
    if consentId == "" || paymentId == "" || amount <= 0 then
      (s, Err(Validation))
    else if paymentId in s.byPayment then
      (s, ReReserve(s, s.byPayment[paymentId], now))
    else if consentId !in s.consents then
      (s, Err(NotFound))
    else
      var c := s.consents[consentId];
      if c.status == Revoked then (s, Err(ConsentRevoked))
      else if c.status == Expired || c.validUntil <= now then (s, Err(ConsentExpired))
      else if c.status != Active then (s, Err(ConsentInactive))
      else if currency != "" && c.currency != "" && currency != c.currency then (s, Err(Validation))
      else if amount > c.maxAmount then (s, Err(LimitExceeded))
      else if !Readable(s, consentId, now) then (s, Err(Internal))
      else
        var used, held := Used(s, consentId, now), HeldSum(s, consentId, now);
        if Wrap64(used + held + amount) > c.maxMonthly then (s, Err(LimitExceeded))
        else if newId in s.reservations then (s, Err(Internal))
        else
          (s.(holds := s.holds + [newId],
              reservations :=
                s.reservations[newId := Reservation(consentId, paymentId, amount, Held, now + HOLD_SECONDS)],
              byPayment := s.byPayment[paymentId := newId]),
           Ok(Reserved(newId, Clamp(Wrap64(c.maxMonthly - used - held - amount)), c.consumer, c.bankConsentRef)))
  }

  /** A payment that already has a reservation gets it back, whatever its status. */
  function ReReserve(s: State, r: string, now: int): Result<Reserved> {
    if r !in s.reservations || s.reservations[r].consentId !in s.consents then Err(Internal)
    else
      var id := s.reservations[r].consentId;
      var c := s.consents[id];
      if !Readable(s, id, now) then Err(Internal)
      else
        var remaining := Clamp(Wrap64(c.maxMonthly - Used(s, id, now) - HeldSum(s, id, now)));
        Ok(Reserved(r, remaining, c.consumer, c.bankConsentRef))
  }

  /** Insert unless the payment already has a usage row. */
  function InsertUsage(s: State, r: Reservation, now: int): State {
    if r.paymentId in s.usage then s
    else s.(usages := s.usages + [r.paymentId], usage := s.usage[r.paymentId := Usage(r.consentId, r.amount, now)])
  }

  function SetStatus(s: State, r: string, status: HoldStatus): State
    requires r in s.reservations
  {
    s.(reservations := s.reservations[r := s.reservations[r].(status := status)])
  }

  function Confirm(s: State, r: string, paymentId: string, now: int): (State, Option<Code>) {
    if r == "" then (s, Some(Validation))
    else if r !in s.reservations then (s, Some(NotFound))
    else
      var row := s.reservations[r];
      if paymentId != "" && row.paymentId != paymentId then (s, Some(Validation))
      else match row.status
        case Confirmed => (InsertUsage(s, row, now), None)
        case Released => (s, Some(Conflict))
        case Held => (InsertUsage(SetStatus(s, r, Confirmed), row, now), None)
  }

  function Release(s: State, r: string): (State, Option<Code>) {
    if r == "" then (s, Some(Validation))
    else if r !in s.reservations then (s, Some(NotFound))
    else match s.reservations[r].status
      case Released => (s, None)
      case Confirmed => (s, Some(Conflict))
      case Held => (SetStatus(s, r, Released), None)
  }

  function CountTerm(s: State, consentId: string, now: int, p: string): int {
    if p in s.usage && s.usage[p].consentId == consentId && s.usage[p].settledAt > now - WINDOW_SECONDS then 1 else 0
  }

  /** The usage rows of the last 30 days. */
  function TxCount(s: State, consentId: string, now: int): int {
    Sum(s.usages, p => CountTerm(s, consentId, now, p))
  }

  /** What GetRollingUsage reports. */
  datatype UsageReport = UsageReport(used: int, remaining: int, txCount: int)

  /** The count is cast to 32 bits by the query, which fails when it does not fit. */
  function RollingUsage(s: State, consentId: string, now: int): Result<UsageReport> {
    if consentId == "" then Err(Validation)
    else if consentId !in s.consents then Err(NotFound)
    else if !Readable(s, consentId, now) || TxCount(s, consentId, now) > INT32_MAX then Err(Internal)
    else
      var used, held := Used(s, consentId, now), HeldSum(s, consentId, now);
      var remaining := Clamp(Wrap64(s.consents[consentId].maxMonthly - used - held));
      Ok(UsageReport(Wrap64(used + held), remaining, TxCount(s, consentId, now)))
  }

  function Create(s: State, newId: string, c: Consent, now: int): (State, Option<Code>) {
    if c.merchant == "" || c.consumer == "" || c.bankConsentRef == "" || c.maxAmount <= 0 || c.maxMonthly <= 0
       || c.maxAmount > c.maxMonthly || c.validUntil <= now then
      (s, Some(Validation))
    else if newId in s.consents || exists k :: k in s.consents && s.consents[k].bankConsentRef == c.bankConsentRef then
      (s, Some(AlreadyExists))
    else
      var row := c.(status := Active, currency := if c.currency == "" then "GBP" else c.currency);
      (s.(consents := s.consents[newId := row]), None)
  }

  function Revoke(s: State, consentId: string, merchant: string): (State, Option<Code>) {
    if consentId == "" then (s, Some(Validation))
    else if consentId !in s.consents then (s, Some(NotFound))
    else if merchant != "" && s.consents[consentId].merchant != merchant then (s, Some(NotFound))
    else if s.consents[consentId].status == Revoked then (s, None)
    else if s.consents[consentId].status != Active then (s, Some(ConsentInactive))
    else (s.(consents := s.consents[consentId := s.consents[consentId].(status := Revoked)]), None)
  }

  // ---------- the service ----------

  class ConsentService {
    var consents: map<string, Consent>
    var holds: seq<string>
    var reservations: map<string, Reservation>
    var byPayment: map<string, string>
    var usages: seq<string>
    var usage: map<string, Usage>

    function View(): State reads this {
      State(consents, holds, reservations, byPayment, usages, usage)
    }

    constructor ()
      ensures View() == EMPTY
    {
      consents, holds, reservations, byPayment, usages, usage := map[], [], map[], map[], [], map[];
    }

    method ReadRollingUsage(consentId: string, now: int) returns (ok: bool, used: int, held: int)
      ensures ok <==> Readable(View(), consentId, now)
      ensures used == Used(View(), consentId, now) && held == HeldSum(View(), consentId, now)
    {
      var s := View();
      used, held := 0, 0;
      for i := 0 to |s.usages|
        invariant used == Sum(s.usages[..i], p => UsedTerm(s, consentId, now, p))
      {
        assert s.usages[..i + 1] == s.usages[..i] + [s.usages[i]];
        SumAppend(s.usages[..i], s.usages[i], p => UsedTerm(s, consentId, now, p));
        used := used + UsedTerm(s, consentId, now, s.usages[i]);
      }
      for i := 0 to |s.holds|
        invariant held == Sum(s.holds[..i], r => HeldTerm(s, consentId, now, r))
      {
        assert s.holds[..i + 1] == s.holds[..i] + [s.holds[i]];
        SumAppend(s.holds[..i], s.holds[i], r => HeldTerm(s, consentId, now, r));
        held := held + HeldTerm(s, consentId, now, s.holds[i]);
      }
      assert s.usages[..|s.usages|] == s.usages && s.holds[..|s.holds|] == s.holds;
      ok := IsInt64(used) && IsInt64(held);
    }

    method ValidateAndReserve(consentId: string, paymentId: string, amount: int, currency: string, now: int,
                              newId: string)
      returns (result: Result<Reserved>)
      modifies this
      ensures (View(), result) == Reserve(old(View()), consentId, paymentId, amount, currency, now, newId)
    {
      if consentId == "" || paymentId == "" || amount <= 0 {
        return Err(Validation);
      }
      if paymentId in byPayment {
        var r := byPayment[paymentId];
        if r !in reservations || reservations[r].consentId !in consents {
          return Err(Internal);
        }
        var c := consents[reservations[r].consentId];
        var ok, used, held := ReadRollingUsage(reservations[r].consentId, now);
        if !ok {
          return Err(Internal);
        }
        var remaining := Wrap64(c.maxMonthly - used - held);
        if remaining < 0 {
          remaining := 0;
        }
        return Ok(Reserved(r, remaining, c.consumer, c.bankConsentRef));
      }
      if consentId !in consents {
        return Err(NotFound);
      }
      var c := consents[consentId];
      if c.status == Revoked {
        return Err(ConsentRevoked);
      }
      if c.status == Expired || c.validUntil <= now {
        return Err(ConsentExpired);
      }
      if c.status != Active {
        return Err(ConsentInactive);
      }
      if currency != "" && c.currency != "" && currency != c.currency {
        return Err(Validation);
      }
      if amount > c.maxAmount {
        return Err(LimitExceeded);
      }
      var ok, used, held := ReadRollingUsage(consentId, now);
      if !ok {
        return Err(Internal);
      }
      if Wrap64(used + held + amount) > c.maxMonthly {
        return Err(LimitExceeded);
      }
      if newId in reservations {
        return Err(Internal);
      }
      holds := holds + [newId];
      reservations := reservations[newId := Reservation(consentId, paymentId, amount, Held, now + HOLD_SECONDS)];
      byPayment := byPayment[paymentId := newId];
      var remaining := Wrap64(c.maxMonthly - used - held - amount);
      if remaining < 0 {
        remaining := 0;
      }
      result := Ok(Reserved(newId, remaining, c.consumer, c.bankConsentRef));
    }

    method ConfirmReservation(r: string, paymentId: string, now: int) returns (err: Option<Code>)
      modifies this
      ensures (View(), err) == Confirm(old(View()), r, paymentId, now)
    {
      if r == "" {
        return Some(Validation);
      }
      if r !in reservations {
        return Some(NotFound);
      }
      var row := reservations[r];
      if paymentId != "" && row.paymentId != paymentId {
        return Some(Validation);
      }
      if row.status == Released {
        return Some(Conflict);
      }
      if row.status == Held {
        reservations := reservations[r := row.(status := Confirmed)];
      }
      if row.paymentId !in usage {
        usages := usages + [row.paymentId];
        usage := usage[row.paymentId := Usage(row.consentId, row.amount, now)];
      }
      err := None;
    }

    method ReleaseReservation(r: string) returns (err: Option<Code>)
      modifies this
      ensures (View(), err) == Release(old(View()), r)
    {
      if r == "" {
        return Some(Validation);
      }
      if r !in reservations {
        return Some(NotFound);
      }
      match reservations[r].status {
        case Released => err := None;
        case Confirmed => err := Some(Conflict);
        case Held =>
          reservations := reservations[r := reservations[r].(status := Released)];
          err := None;
      }
    }

    method CountTransactions(consentId: string, now: int) returns (ok: bool, count: int)
      ensures count == TxCount(View(), consentId, now) && (ok <==> count <= INT32_MAX)
    {
      var s := View();
      count := 0;
      for i := 0 to |s.usages|
        invariant count == Sum(s.usages[..i], p => CountTerm(s, consentId, now, p))
      {
        assert s.usages[..i + 1] == s.usages[..i] + [s.usages[i]];
        SumAppend(s.usages[..i], s.usages[i], p => CountTerm(s, consentId, now, p));
        count := count + CountTerm(s, consentId, now, s.usages[i]);
      }
      assert s.usages[..|s.usages|] == s.usages;
      ok := count <= INT32_MAX;
    }

    method GetRollingUsage(consentId: string, now: int) returns (result: Result<UsageReport>)
      ensures result == RollingUsage(View(), consentId, now)
    {
      if consentId == "" {
        return Err(Validation);
      }
      if consentId !in consents {
        return Err(NotFound);
      }
      var ok, used, held := ReadRollingUsage(consentId, now);
      if !ok {
        return Err(Internal);
      }
      var remaining := Wrap64(consents[consentId].maxMonthly - used - held);
      if remaining < 0 {
        remaining := 0;
      }
      var counted, count := CountTransactions(consentId, now);
      if !counted {
        return Err(Internal);
      }
      result := Ok(UsageReport(Wrap64(used + held), remaining, count));
    }

    method CreateConsent(newId: string, c: Consent, now: int) returns (err: Option<Code>)
      modifies this
      ensures (View(), err) == Create(old(View()), newId, c, now)
    {
      if c.merchant == "" || c.consumer == "" || c.bankConsentRef == "" {
        return Some(Validation);
      }
      if c.maxAmount <= 0 || c.maxMonthly <= 0 || c.maxAmount > c.maxMonthly || c.validUntil <= now {
        return Some(Validation);
      }
      if newId in consents || exists k :: k in consents && consents[k].bankConsentRef == c.bankConsentRef {
        return Some(AlreadyExists);
      }
      consents := consents[newId := c.(status := Active, currency := if c.currency == "" then "GBP" else c.currency)];
      err := None;
    }

    method RevokeConsent(consentId: string, merchant: string) returns (err: Option<Code>)
      modifies this
      ensures (View(), err) == Revoke(old(View()), consentId, merchant)
    {
      if consentId == "" {
        return Some(Validation);
      }
      if consentId !in consents {
        return Some(NotFound);
      }
      var c := consents[consentId];
      if merchant != "" && c.merchant != merchant {
        return Some(NotFound);
      }
      if c.status == Revoked {
        return None;
      }
      if c.status != Active {
        return Some(ConsentInactive);
      }
      consents := consents[consentId := c.(status := Revoked)];
      err := None;
    }
  }
}
