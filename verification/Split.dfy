/** How a payment is split over the ledger: consumer debited, merchant and platform credited. */
module Split {
  import opened Basics
  import opened Fee
  import opened Saga
  import opened Ledgers
  import P = Payments

  /** The journal rows of a payment. */
  function Rows(p: P.Payment): seq<Line> {
    EntryLines(Normalised(SagaLines(p)))
  }

  function ConsumerAccount(p: P.Payment): Account
    { Account("CONSUMER_ESCROW", p.consumer, NormaliseCurrency(p.currency)) }
  function MerchantAccount(p: P.Payment): Account
    { Account("MERCHANT_ESCROW", p.merchant, NormaliseCurrency(p.currency)) }
  function PlatformAccount(p: P.Payment): Account
    { Account("PLATFORM_FEE", PLATFORM_OWNER, NormaliseCurrency(p.currency)) }

  /** What a settled payment owes each account. */
  function Share(p: P.Payment, a: Account): int {
    if a == ConsumerAccount(p) then -p.amount
    else if a == MerchantAccount(p) then p.amount - PlatformFee(p.amount)
    else if a == PlatformAccount(p) then PlatformFee(p.amount)
    else 0
  }

  lemma RowsAre(p: P.Payment)
    ensures Rows(p) == [Line(ConsumerAccount(p), false, p.amount),
                        Line(MerchantAccount(p), true, p.amount - PlatformFee(p.amount)),
                        Line(PlatformAccount(p), true, PlatformFee(p.amount))]
  {
  }

  lemma ThreeLines(rows: seq<Line>, a: Account)
    requires |rows| == 3
    ensures Total(rows) == Signed(rows[0]) + Signed(rows[1]) + Signed(rows[2])
    ensures Effect(rows, a) == (if rows[0].account == a then Signed(rows[0]) else 0)
                             + (if rows[1].account == a then Signed(rows[1]) else 0)
                             + (if rows[2].account == a then Signed(rows[2]) else 0)
  {
    assert rows[..2][..1] == rows[..1] && rows[..1][..0] == [];
    assert Total(rows[..1]) == Signed(rows[0]) && Total(rows[..2]) == Total(rows[..1]) + Signed(rows[1]);
    assert Effect(rows[..1], a) == if rows[0].account == a then Signed(rows[0]) else 0;
    assert Effect(rows[..2], a) == Effect(rows[..1], a) + if rows[1].account == a then Signed(rows[1]) else 0;
  }

  /** The journal rows move each account by its share, and balance. */
  lemma RowsMoveShares(p: P.Payment, a: Account)
    ensures Effect(Rows(p), a) == Share(p, a)
    ensures Total(Rows(p)) == 0
  {
    RowsAre(p);
    ThreeLines(Rows(p), a);
  }

  lemma ThreeSides(lines: seq<LineInput>, d: string)
    requires |lines| == 3
    ensures SideTotal(lines, 3, d) == (if lines[0].direction == d then lines[0].amount else 0)
                                    + (if lines[1].direction == d then lines[1].amount else 0)
                                    + (if lines[2].direction == d then lines[2].amount else 0)
  {
    assert SideTotal(lines, 1, d) == if lines[0].direction == d then lines[0].amount else 0;
    assert SideTotal(lines, 2, d) == SideTotal(lines, 1, d) + if lines[1].direction == d then lines[1].amount else 0;
  }

  lemma SidesMeet(lines: seq<LineInput>, x: int, y: int)
    requires |lines| == 3
    requires lines[0].direction == "DR" && lines[1].direction == "CR" && lines[2].direction == "CR"
    requires lines[0].amount == x + y && lines[1].amount == x && lines[2].amount == y
    ensures Debits(lines) == Credits(lines)
  {
    ThreeSides(lines, "DR");
    ThreeSides(lines, "CR");
  }

  /** The payment can be posted at all. */
  predicate Postable(p: P.Payment) {
    && p.amount >= 2
    && Trim(p.consumer) != "" && Trim(p.merchant) != ""
    && |NormaliseCurrency(p.currency)| == 3
  }

  lemma PlatformOwnerIsNotBlank()
    ensures Trim(PLATFORM_OWNER) == PLATFORM_OWNER
  {
  }

  /** The three lines pass the ledger's validation loop exactly when the owners and the currency are
      present and the amount is at least two pence: one penny goes to the platform whole and leaves a
      zero merchant line. */
  lemma SplitAcceptedIff(p: P.Payment)
    requires 1 <= p.amount <= INT64_MAX
    ensures LinesAccepted(SagaLines(p)) <==> Postable(p)
  {
    var lines := SagaLines(p);
    FeeBounds(p.amount);
    PlatformOwnerIsNotBlank();
    AcceptedMeans(lines);
    SidesMeet(lines, p.amount - PlatformFee(p.amount), PlatformFee(p.amount));
    if Postable(p) {
      forall i | 0 <= i < 3 ensures WellFormed(lines[i]) && lines[i].currency == p.currency {
      }
    } else {
      assert WellFormed(lines[0]) && WellFormed(lines[1]) ==> Postable(p);
      assert 0 <= 0 < |lines| && 0 <= 1 < |lines|;
    }
  }

  /** Posting a payment succeeds exactly when it is postable, first time or again. */
  lemma PostSucceedsIff(l: Ledger, id: string, text: string, p: P.Payment)
    requires 1 <= p.amount <= INT64_MAX && id != ""
    ensures Ledgers.Post(l, id, text, SagaLines(p)).1.None? <==> Postable(p)
  {
    SplitAcceptedIff(p);
    RowsMoveShares(p, ConsumerAccount(p));
    PostAnswer(l, id, text, SagaLines(p));
  }

  /** A payment posted for the first time is filed under its own text: the reconciler's postings say so. */
  lemma PostedAs(w: World, id: string, a: Actor)
    requires id !in w.ledger.entries && Posting(w, id, a).1.None?
    ensures var after := Posting(w, id, a).0;
            && id in after.entries && after.entries[id].lines == Rows(a.memory) && !after.entries[id].reversed
            && after.entries[id].description ==
                 "VRP settlement " + id + (if a.kind == Resumed then " (reconciled)" else "")
  {
    PostIff(w.ledger, id, PostText(a.kind, id), SagaLines(a.memory));
  }

  lemma PostAnswer(l: Ledger, id: string, text: string, lines: seq<LineInput>)
    requires id != "" && |lines| >= 2 && Total(EntryLines(Normalised(lines))) == 0
    ensures Ledgers.Post(l, id, text, lines).1.None? <==> LinesAccepted(lines)
  {
  }
}
