/** The payment rows, their audit events and the outbox (payment-svc, repo.go). A status write is an
    UPDATE followed by an INSERT of the audit event, outside any transaction; only the settlement is
    one transaction. */
module Payments {
  import opened Basics

  datatype Status = Initiated | ConsentReserved | RiskPassed | Authorising | Settled | Failed | ManualReview

  predicate InFlight(s: Status) {
    s in {Initiated, ConsentReserved, RiskPassed, Authorising}
  }

  /** A payment as stored, and as held in memory by the orchestrator. An empty bank reference means none. */
  datatype Payment = Payment(
    key: string, merchant: string, consent: string, consumer: string, amount: int, currency: string,
    status: Status, bankRef: string, reservation: Option<string>, risk: Option<(int, string)>)

  /** An audit event; `from` is None for the empty status before creation. */
  datatype Event = Event(from: Option<Status>, to: Status)

  datatype Repo = Repo(
    order: seq<string>, rows: map<string, Payment>, byKey: map<string, string>,
    events: map<string, seq<Event>>, outbox: seq<string>)

  const EMPTY := Repo([], map[], map[], map[], [])

  /** What happens to a status write: done, refused with no effect, or torn between the row and its event. */
  datatype Write = Done | Lost | Torn

  function EventsOf(r: Repo, id: string): seq<Event> {
    if id in r.events then r.events[id] else []
  }

  function AddEvent(r: Repo, id: string, e: Event): Repo {
    r.(events := r.events[id := EventsOf(r, id) + [e]])
  }

  function SetRow(r: Repo, id: string, row: Payment): Repo {
    r.(rows := r.rows[id := row])
  }

  /** Insert of a new row; the unique key on the idempotency key refuses a second one. */
  function CreatePayment(r: Repo, id: string, p: Payment, w: Write): (Repo, Option<Code>) {
    if id in r.rows || p.key in r.byKey then (r, Some(AlreadyExists))
    else if w == Lost then (r, Some(Internal))
    else
      var inserted := r.(order := r.order + [id], rows := r.rows[id := p], byKey := r.byKey[p.key := id]);
      if w == Torn then (inserted, Some(Internal)) else (AddEvent(inserted, id, Event(None, p.status)), None)
  }

  /** Status write: `change` sets the columns of the UPDATE, `from` is the caller's idea of the old status. */
  function StatusWrite(r: Repo, id: string, from: Status, to: Status, change: Payment -> Payment,
                       w: Write): (Repo, bool) {
    if w == Lost || id !in r.rows then (r, false)
    else
      var updated := SetRow(r, id, change(r.rows[id]).(status := to));
      if w == Torn then (updated, false) else (AddEvent(updated, id, Event(Some(from), to)), true)
  }

  function AfterConsent(reservation: string, consumer: string): Payment -> Payment {
    (p: Payment) => p.(reservation := Some(reservation), consumer := consumer)
  }

  function AfterRisk(score: int, decision: string): Payment -> Payment {
    (p: Payment) => p.(risk := Some((score, decision)))
  }

  function AfterBank(ref: string): Payment -> Payment {
    (p: Payment) => p.(bankRef := ref)
  }

  function Unchanged(): Payment -> Payment {
    (p: Payment) => p
  }

  function Cleared(p: Payment): Payment {
    p.(bankRef := "", reservation := None, risk := None)
  }

  /** Row, event and outbox row together, or nothing. */
  function Settle(r: Repo, id: string, from: Status, committed: bool): (Repo, bool) {
    if !committed || id !in r.rows then (r, false)
    else
      var updated := AddEvent(SetRow(r, id, r.rows[id].(status := Settled)), id, Event(Some(from), Settled));
      (updated.(outbox := updated.outbox + [id]), true)
  }

  /** Guarded by the FAILED status in the UPDATE itself. */
  function ResetForRetry(r: Repo, id: string, w: Write): (Repo, Option<Code>) {
    if id !in r.rows || r.rows[id].status != Failed then (r, Some(Conflict))
    else
      var (after, ok) := StatusWrite(r, id, Failed, Initiated, p => Cleared(p), w);
      (after, if ok then None else Some(Internal))
  }

  // ---------- the repository ----------

  class PaymentRepo {
    var order: seq<string>
    var rows: map<string, Payment>
    var byKey: map<string, string>
    var events: map<string, seq<Event>>
    var outbox: seq<string>

    function View(): Repo reads this {
      Repo(order, rows, byKey, events, outbox)
    }

    constructor ()
      ensures View() == EMPTY
    {
      order, rows, byKey, events, outbox := [], map[], map[], map[], [];
    }

    method InsertEvent(id: string, e: Event)
      modifies this`events
      ensures View() == AddEvent(old(View()), id, e)
    {
      events := events[id := (if id in events then events[id] else []) + [e]];
    }

    method Create(id: string, p: Payment, w: Write) returns (err: Option<Code>)
      modifies this
      ensures (View(), err) == CreatePayment(old(View()), id, p, w)
    {
      if id in rows || p.key in byKey {
        return Some(AlreadyExists);
      }
      if w == Lost {
        return Some(Internal);
      }
      order, rows, byKey := order + [id], rows[id := p], byKey[p.key := id];
      if w == Torn {
        return Some(Internal);
      }
      InsertEvent(id, Event(None, p.status));
      err := None;
    }

    /** The shape shared by UpdateAfterConsent, UpdateAfterRisk, UpdateAfterBank, MarkFailed and
        MarkManualReview: the row, then the event, then the copy in memory. */
    method UpdateStatus(id: string, p: Payment, to: Status, change: Payment -> Payment, w: Write)
      returns (ok: bool, memory: Payment)
      modifies this
      ensures (View(), ok) == StatusWrite(old(View()), id, p.status, to, change, w)
      ensures memory == if ok then change(p).(status := to) else p
    {
      memory := p;
      if w == Lost || id !in rows {
        return false, memory;
      }
      rows := rows[id := change(rows[id]).(status := to)];
      if w == Torn {
        return false, memory;
      }
      InsertEvent(id, Event(Some(p.status), to));
      memory := change(p).(status := to);
      ok := true;
    }

    method SettleWithOutbox(id: string, p: Payment, committed: bool) returns (ok: bool, memory: Payment)
      modifies this
      ensures (View(), ok) == Settle(old(View()), id, p.status, committed)
      ensures memory == if ok then p.(status := Settled) else p
    {
      memory := p;
      if !committed || id !in rows {
        return false, memory;
      }
      rows := rows[id := rows[id].(status := Settled)];
      InsertEvent(id, Event(Some(p.status), Settled));
      outbox := outbox + [id];
      memory := p.(status := Settled);
      ok := true;
    }

    method Reset(id: string, p: Payment, w: Write) returns (err: Option<Code>, memory: Payment)
      requires id in rows && rows[id] == p
      modifies this
      ensures (View(), err) == ResetForRetry(old(View()), id, w)
      ensures memory == if err.None? then Cleared(p).(status := Initiated) else p
    {
      if p.status != Failed {
        return Some(Conflict), p;
      }
      var ok, copy := UpdateStatus(id, p, Initiated, q => Cleared(q), w);
      err, memory := if ok then None else Some(Internal), copy;
    }
  }
}
