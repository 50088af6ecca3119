/** The bank's side of a payment (mockbank, server.go): records in an in-memory table, keyed by the
    reference the bank hands out. */
module Banks {
  import opened Basics

  datatype BankStatus = Authorised | Settled | Rejected | Reversed

  /** What the platform asks the bank for. */
  datatype Request = Request(paymentId: string, consentRef: string, consumer: string, amount: int, currency: string)

  datatype Record = Record(request: Request, status: BankStatus)

  type Bank = map<string, Record>

  /** The money of a payment is with the platform. */
  predicate Taken(b: Bank, ref: string, paymentId: string) {
    ref in b && b[ref].request.paymentId == paymentId && b[ref].status == Settled
  }

  /** The references under which the bank has taken, and not given back, the money of a payment. */
  function TakenRefs(b: Bank, paymentId: string): set<string> {
    set ref | ref in b && Taken(b, ref, paymentId)
  }

  /** A well-formed request is settled on the spot, under a new reference; pounds unless it says otherwise. */
  function Initiate(b: Bank, ref: string, q: Request): (Bank, bool) {
    if q.paymentId == "" || q.consentRef == "" || q.amount <= 0 then (b, false)
    else (b[ref := Record(q.(currency := if q.currency == "" then "GBP" else q.currency), Settled)], true)
  }

  const NOTHING := Request("", "", "", 0, "")

  function Reject(b: Bank, ref: string): Bank {
    b[ref := Record(NOTHING, Rejected)]
  }

  /** A request is taken iff it names a payment and a consent and a positive amount; then exactly that amount is
      recorded, for that payment, consumer and consent, and no other record changes. */
  lemma InitiateIff(b: Bank, ref: string, q: Request)
    requires ref !in b
    ensures var (after, ok) := Initiate(b, ref, q);
            && (ok <==> q.paymentId != "" && q.consentRef != "" && q.amount > 0)
            && (!ok ==> after == b)
            && (ok ==>
                  && after.Keys == b.Keys + {ref} && (forall r :: r in b ==> after[r] == b[r])
                  && TakenRefs(after, q.paymentId) == TakenRefs(b, q.paymentId) + {ref}
                  && after[ref].request.amount == q.amount && after[ref].request.consumer == q.consumer
                  && after[ref].request.consentRef == q.consentRef
                  && after[ref].request.currency == (if q.currency == "" then "GBP" else q.currency))
  {
  }

  function Reverse(b: Bank, ref: string): (Bank, Option<Code>) {
    if ref !in b then (b, Some(NotFound))
    else match b[ref].status
      case Reversed => (b, None)
      case Rejected => (b, Some(Conflict))
      case _ => (b[ref := b[ref].(status := Reversed)], None)
  }

  /** A reversal that succeeds leaves the money given back, and doing it again changes nothing. */
  lemma ReverseOnce(b: Bank, ref: string, paymentId: string)
    ensures var (after, err) := Reverse(b, ref);
            && (err.None? <==> ref in b && b[ref].status != Rejected)
            && (err.None? ==>
                  TakenRefs(after, paymentId) == TakenRefs(b, paymentId) - {ref}
                  && Reverse(after, ref) == (after, None))
            && (err.Some? ==> after == b && err == Some(if ref in b then Conflict else NotFound))
  {
  }

  class BankServer {
    var payments: map<string, Record>

    constructor ()
      ensures payments == map[]
    {
      payments := map[];
    }

    /** `ref` is the reference the bank generates for this request. */
    method HandleInitiate(ref: string, q: Request) returns (ok: bool)
      modifies this
      ensures (payments, ok) == Initiate(old(payments), ref, q)
    {
      if q.paymentId == "" || q.consentRef == "" || q.amount <= 0 {
        return false;
      }
      var rec := q;
      if rec.currency == "" {
        rec := rec.(currency := "GBP");
      }
      payments := payments[ref := Record(rec, Settled)];
      ok := true;
    }

    method RecordRejection(ref: string)
      modifies this
      ensures payments == Reject(old(payments), ref)
    {
      payments := payments[ref := Record(NOTHING, Rejected)];
    }

    method HandleStatus(ref: string) returns (status: Option<BankStatus>)
      ensures status == if ref in payments then Some(payments[ref].status) else None
    {
      if ref !in payments {
        return None;
      }
      status := Some(payments[ref].status);
    }

    method HandleReverse(ref: string) returns (err: Option<Code>)
      modifies this
      ensures (payments, err) == Reverse(old(payments), ref)
    {
      if ref !in payments {
        return Some(NotFound);
      }
      var rec := payments[ref];
      if rec.status == Reversed {
        return None;
      }
      if rec.status != Settled && rec.status != Authorised {
        return Some(Conflict);
      }
      payments := payments[ref := rec.(status := Reversed)];
      err := None;
    }
  }
}
