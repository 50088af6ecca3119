/** The bank and the ledger agree on the money: what the bank has taken from a consumer is what the ledger says the
    consumer is down by. */
module BankBooks {
  import opened Basics
  import opened Saga
  import opened Platform
  import opened Slices
  import opened AllRuns
  import opened Split
  import opened CleanRuns
  import opened Conservation
  import T = Terms
  import B = Banks
  import L = Ledgers
  import P = Payments

  // ---------- sums over sets ----------

  ghost function SetSum(s: set<string>, f: string -> int): int {
    if s == {} then 0
    else
      var x :| x in s;
      f(x) + SetSum(s - {x}, f)
  }

  lemma {:induction false} SetSumPick(s: set<string>, f: string -> int, x: string)
    requires x in s
    ensures SetSum(s, f) == f(x) + SetSum(s - {x}, f)
    decreases |s|
  {
    var y :| y in s && SetSum(s, f) == f(y) + SetSum(s - {y}, f);
    if y != x {
      SetSumPick(s - {y}, f, x);
      SetSumPick(s - {x}, f, y);
      assert s - {y} - {x} == s - {x} - {y};
    }
  }

  lemma SetSumAdd(s: set<string>, f: string -> int, x: string)
    requires x !in s
    ensures SetSum(s + {x}, f) == SetSum(s, f) + f(x)
  {
    SetSumPick(s + {x}, f, x);
    assert s + {x} - {x} == s;
  }

  // ---------- the bank's records of one consumer ----------

  predicate Counts(b: B.Bank, ref: string, consumer: string, currency: string) {
    && ref in b && b[ref].status == B.Settled
    && b[ref].request.consumer == consumer && NormaliseCurrency(b[ref].request.currency) == currency
  }

  function AmountOf(b: B.Bank, ref: string): int {
    if ref in b then b[ref].request.amount else 0
  }

  /** The references under which the bank holds money of the consumer in the currency. */
  function RefsFrom(b: B.Bank, consumer: string, currency: string): set<string> {
    set ref | ref in b && Counts(b, ref, consumer, currency)
  }

  ghost function TakenFrom(b: B.Bank, consumer: string, currency: string): int {
    SetSum(RefsFrom(b, consumer, currency), ref => AmountOf(b, ref))
  }

  /** Those of the first `n` payments. */
  function RefsUpTo(w: World, n: nat, consumer: string, currency: string): set<string>
    requires n <= |w.repo.order|
  {
    set ref | ref in w.bank && Counts(w.bank, ref, consumer, currency)
      && w.bank[ref].request.paymentId in w.repo.order[..n]
  }

  /** A payment of a quiet clean state: its taken records are the one of its row if it is SETTLED, and none if not. */
  ghost predicate Booked(w: World, id: string) {
    && id in w.repo.rows
    && var p := w.repo.rows[id];
    && (p.status == P.Settled ==>
          && B.TakenRefs(w.bank, id) == {p.bankRef} && p.bankRef in w.bank && p.currency != ""
          && w.bank[p.bankRef].request.amount == p.amount && w.bank[p.bankRef].request.consumer == p.consumer
          && w.bank[p.bankRef].request.currency == p.currency)
    && (p.status != P.Settled ==> B.TakenRefs(w.bank, id) == {})
  }

  lemma QuietIsBooked(run: seq<Label>, id: string)
    requires CleanRun(run) && Quiet(Exec(run).w.repo) && id in Exec(run).w.repo.rows
    ensures Booked(Exec(run).w, id)
  {
    var w := Exec(run).w;
    var p := w.repo.rows[id];
    AllOrNothing(run, id, L.Account("", "", ""));
    if p.status == P.Settled {
      assert p.bankRef in B.TakenRefs(w.bank, id);
      assert p.bankRef in RefsOf(w.bank, id);
      T.BankIsAskedForThePayment(run, id, p.bankRef);
      T.OnlyScreenedProceed(run, id);
      SettledHasCurrency(run, id);
    }
  }

  lemma SettledHasCurrency(run: seq<Label>, id: string)
    requires CleanRun(run) && id in Exec(run).w.repo.rows && Exec(run).w.repo.rows[id].status == P.Settled
    ensures Exec(run).w.repo.rows[id].currency != ""
  {
    RunClean(run);
    RunKeepsInv(run);
    TerminalSlice(Exec(run), id);
    assert Trim("") == "";
    assert Upper("") == "";
  }

  lemma OneMorePayment(w: World, n: nat, consumer: string, currency: string)
    requires 0 < n <= |w.repo.order| && Distinct(w.repo.order) && Booked(w, w.repo.order[n - 1])
    ensures var id := w.repo.order[n - 1];
            var p := w.repo.rows[id];
            var before, after := RefsUpTo(w, n - 1, consumer, currency), RefsUpTo(w, n, consumer, currency);
            if p.status == P.Settled && p.consumer == consumer && NormaliseCurrency(p.currency) == currency
            then after == before + {p.bankRef} && p.bankRef !in before
            else after == before
  {
    var id := w.repo.order[n - 1];
    assert w.repo.order[..n] == w.repo.order[..n - 1] + [id];
    assert id !in w.repo.order[..n - 1];
    var before, after := RefsUpTo(w, n - 1, consumer, currency), RefsUpTo(w, n, consumer, currency);
    forall ref | ref in after && ref !in before ensures ref in B.TakenRefs(w.bank, id) {
    }
    if w.repo.rows[id].status == P.Settled {
      assert w.repo.rows[id].bankRef in B.TakenRefs(w.bank, id);
    }
  }

  lemma {:induction false} SumsMeet(w: World, n: nat, consumer: string, currency: string)
    requires n <= |w.repo.order| && Distinct(w.repo.order) && forall id :: id in w.repo.order ==> Booked(w, id)
    ensures SetSum(RefsUpTo(w, n, consumer, currency), ref => AmountOf(w.bank, ref)) ==
              Sum(w.repo.order[..n], id => IfSettled(w.repo, id, p => PaidBy(p, consumer, currency)))
  {
    if n == 0 {
      assert RefsUpTo(w, 0, consumer, currency) == {};
    } else {
      var id := w.repo.order[n - 1];
      assert w.repo.order[..n] == w.repo.order[..n - 1] + [id];
      SumsMeet(w, n - 1, consumer, currency);
      OneMorePayment(w, n, consumer, currency);
      SumAppend(w.repo.order[..n - 1], id, k => IfSettled(w.repo, k, p => PaidBy(p, consumer, currency)));
      var p := w.repo.rows[id];
      if p.status == P.Settled && p.consumer == consumer && NormaliseCurrency(p.currency) == currency {
        SetSumAdd(RefsUpTo(w, n - 1, consumer, currency), ref => AmountOf(w.bank, ref), p.bankRef);
      }
    }
  }

  lemma EveryRecordIsCounted(run: seq<Label>, consumer: string, currency: string)
    ensures var w := Exec(run).w;
            RefsUpTo(w, |w.repo.order|, consumer, currency) == RefsFrom(w.bank, consumer, currency)
  {
    var w := Exec(run).w;
    RunKeepsInv(run);
    T.RunKeepsTerms(run);
    assert TableSound(w, BankTable) && TableSound(w, PaymentTable) && T.PartMatches(Exec(run), T.Records);
    assert w.repo.order[..|w.repo.order|] == w.repo.order;
    forall ref | ref in RefsFrom(w.bank, consumer, currency) ensures w.bank[ref].request.paymentId in w.repo.order {
      assert T.RecordMatches(w, ref);
    }
  }

  /** In every quiet state of every clean run, and per currency: the amounts of the bank's settled records of a consumer
      add up to exactly what the ledger has debited that consumer. */
  lemma BankMeetsLedger(run: seq<Label>, consumer: string, currency: string)
    requires CleanRun(run) && Quiet(Exec(run).w.repo)
    ensures var w := Exec(run).w;
            TakenFrom(w.bank, consumer, currency) ==
              -L.Balance(w.ledger, L.Account("CONSUMER_ESCROW", consumer, currency))
  {
    var w := Exec(run).w;
    RunKeepsInv(run);
    assert TableSound(w, PaymentTable);
    forall id | id in w.repo.order ensures Booked(w, id) {
      QuietIsBooked(run, id);
    }
    SumsMeet(w, |w.repo.order|, consumer, currency);
    EveryRecordIsCounted(run, consumer, currency);
    assert w.repo.order[..|w.repo.order|] == w.repo.order;
    ConservedByOwner(run, consumer, currency);
  }
}
