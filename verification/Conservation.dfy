/** Global conservation: once nothing is in flight, the balance of every account is fixed by the settled
    payments alone. */
module Conservation {
  import opened Basics
  import opened Fee
  import opened Saga
  import opened Platform
  import opened Slices
  import opened AllRuns
  import opened Split
  import opened CleanRuns
  import L = Ledgers
  import P = Payments
  import LL = LedgerLaws

  // ---------- the journal, regrouped by payment ----------

  function Term(keys: seq<string>, l: L.Ledger, k: string, a: L.Account): int {
    if k in keys then L.EffectAt(l.entries, k, a) else 0
  }

  /** A payment's share of the journal lines filed under `keys`. */
  function Part(keys: seq<string>, l: L.Ledger, id: string, a: L.Account): int {
    Term(keys, l, id, a) + Term(keys, l, Rev(id), a)
  }

  /** The payment a journal key belongs to. */
  function Owner(k: string): string {
    if ClientId(k) || |k| < 36 then k else k[..36]
  }

  ghost predicate Filed(ids: seq<string>, l: L.Ledger) {
    && Distinct(ids)
    && (forall id :: id in ids ==> ClientId(id))
    && (forall k :: k in l.entries && ClientId(k) ==> k in ids)
  }

  lemma PartElsewhere(keys: seq<string>, l: L.Ledger, k: string, id: string, a: L.Account)
    requires LL.Paired(l) && k in l.entries && ClientId(id) && id != Owner(k)
    ensures Part(keys + [k], l, id, a) == Part(keys, l, id, a)
  {
    assert Rev(id)[..36] == id;
    assert id in keys + [k] <==> id in keys;
    assert Rev(id) in keys + [k] <==> Rev(id) in keys;
  }

  lemma PartAtOwner(keys: seq<string>, l: L.Ledger, k: string, a: L.Account)
    requires LL.Paired(l) && k in l.entries && k !in keys
    ensures Part(keys + [k], l, Owner(k), a) == Part(keys, l, Owner(k), a) + L.EffectAt(l.entries, k, a)
  {
    var id := Owner(k);
    assert |Rev(id)| == 40;
    assert k == id || k == Rev(id);
    assert forall x :: x in keys + [k] <==> x in keys || x == k;
  }

  lemma {:induction false} Regroup(ids: seq<string>, l: L.Ledger, n: nat, a: L.Account)
    requires LL.Books(l) && LL.Paired(l) && Filed(ids, l) && n <= |l.order|
    ensures Sum(l.order[..n], k => L.EffectAt(l.entries, k, a)) == Sum(ids, id => Part(l.order[..n], l, id, a))
  {
    if n == 0 {
      LL.SumOfZeroes(ids, id => Part(l.order[..0], l, id, a));
    } else {
      var keys, k := l.order[..n - 1], l.order[n - 1];
      assert l.order[..n] == keys + [k];
      assert k in l.order && k !in keys;
      Regroup(ids, l, n - 1, a);
      SumAppend(keys, k, x => L.EffectAt(l.entries, x, a));
      forall id | id in ids && id != Owner(k) ensures Part(keys + [k], l, id, a) == Part(keys, l, id, a) {
        PartElsewhere(keys, l, k, id, a);
      }
      PartAtOwner(keys, l, k, a);
      SumChangeOne(ids, Owner(k), id => Part(keys, l, id, a), id => Part(keys + [k], l, id, a));
    }
  }

  /** Every balance is the sum of the net effects of the payments. */
  lemma BalanceIsSumOfNets(ids: seq<string>, l: L.Ledger, a: L.Account)
    requires LL.Books(l) && LL.Paired(l) && Filed(ids, l)
    ensures L.Balance(l, a) == Sum(ids, id => L.Net(l.entries, id, a))
  {
    Regroup(ids, l, |l.order|, a);
    assert l.order[..|l.order|] == l.order;
    SumCongruent(ids, id => Part(l.order, l, id, a), id => L.Net(l.entries, id, a));
  }

  lemma RunIsFiled(run: seq<Label>)
    ensures var w := Exec(run).w; LL.Books(w.ledger) && LL.Paired(w.ledger) && Filed(w.repo.order, w.ledger)
  {
    var s := Exec(run);
    RunKeepsInv(run);
    assert TableSound(s.w, JournalBooks) && TableSound(s.w, JournalPairs) && TableSound(s.w, PaymentTable);
    forall k | k in s.w.ledger.entries && ClientId(k) ensures k in s.w.repo.order {
      assert InvAt(s, k);
      assert SliceOf(s.w, k).entry.Some?;
    }
  }

  // ---------- conservation ----------

  function SettledShare(rows: map<string, P.Payment>, id: string, a: L.Account): int {
    if id in rows && rows[id].status == P.Settled then Share(rows[id], a) else 0
  }

  /** No payment is in flight or waiting for manual review. */
  predicate Quiet(r: P.Repo) {
    forall id :: id in r.rows ==> r.rows[id].status in {P.Settled, P.Failed}
  }

  /** In every quiet state of every clean run, each account holds exactly its shares of the settled payments. */
  lemma Conserved(run: seq<Label>, a: L.Account)
    requires CleanRun(run) && Quiet(Exec(run).w.repo)
    ensures var w := Exec(run).w;
            L.Balance(w.ledger, a) == Sum(w.repo.order, id => SettledShare(w.repo.rows, id, a))
  {
    var w := Exec(run).w;
    RunIsFiled(run);
    BalanceIsSumOfNets(w.repo.order, w.ledger, a);
    forall id | id in w.repo.order ensures L.Net(w.ledger.entries, id, a) == SettledShare(w.repo.rows, id, a) {
      OrderedIsStored(run, id);
      AllOrNothing(run, id, a);
    }
    SumCongruent(w.repo.order, id => L.Net(w.ledger.entries, id, a), id => SettledShare(w.repo.rows, id, a));
  }

  lemma OrderedIsStored(run: seq<Label>, id: string)
    requires id in Exec(run).w.repo.order
    ensures id in Exec(run).w.repo.rows
  {
    RunKeepsInv(run);
    assert TableSound(Exec(run).w, PaymentTable);
  }

  function IfSettled(r: P.Repo, id: string, what: P.Payment -> int): int {
    if id in r.rows && r.rows[id].status == P.Settled then what(r.rows[id]) else 0
  }

  /** Sum over the settled payments. */
  function OverSettled(r: P.Repo, what: P.Payment -> int): int {
    Sum(r.order, id => IfSettled(r, id, what))
  }

  function PaidBy(p: P.Payment, consumer: string, currency: string): int {
    if p.consumer == consumer && NormaliseCurrency(p.currency) == currency then p.amount else 0
  }

  function EarnedBy(p: P.Payment, merchant: string, currency: string): int {
    if p.merchant == merchant && NormaliseCurrency(p.currency) == currency then p.amount - PlatformFee(p.amount) else 0
  }

  function FeeIn(p: P.Payment, currency: string): int {
    if NormaliseCurrency(p.currency) == currency then PlatformFee(p.amount) else 0
  }

  /** The shares of one account, as a sum over the settled payments. */
  lemma SharesOver(r: P.Repo, a: L.Account, what: P.Payment -> int)
    requires forall p :: Share(p, a) == what(p)
    ensures Sum(r.order, id => SettledShare(r.rows, id, a)) == OverSettled(r, what)
  {
    SumCongruent(r.order, id => SettledShare(r.rows, id, a), id => IfSettled(r, id, what));
  }

  lemma {:induction false} SumNegates<K>(keys: seq<K>, f: K -> int, g: K -> int)
    requires forall k :: k in keys ==> g(k) == -f(k)
    ensures Sum(keys, g) == -Sum(keys, f)
  {
    if keys != [] {
      SumNegates(keys[..|keys| - 1], f, g);
    }
  }

  /** Spelled out per currency: a consumer is down by the amounts they paid, a merchant up by the amounts
      less the fees, and the platform up by the fees. */
  lemma ConservedByOwner(run: seq<Label>, owner: string, currency: string)
    requires CleanRun(run) && Quiet(Exec(run).w.repo)
    ensures var w := Exec(run).w;
            && L.Balance(w.ledger, L.Account("CONSUMER_ESCROW", owner, currency)) ==
                 -OverSettled(w.repo, p => PaidBy(p, owner, currency))
            && L.Balance(w.ledger, L.Account("MERCHANT_ESCROW", owner, currency)) ==
                 OverSettled(w.repo, p => EarnedBy(p, owner, currency))
            && L.Balance(w.ledger, L.Account("PLATFORM_FEE", PLATFORM_OWNER, currency)) ==
                 OverSettled(w.repo, p => FeeIn(p, currency))
  {
    var r := Exec(run).w.repo;
    var consumer, merchant, platform := L.Account("CONSUMER_ESCROW", owner, currency),
      L.Account("MERCHANT_ESCROW", owner, currency), L.Account("PLATFORM_FEE", PLATFORM_OWNER, currency);
    Conserved(run, consumer);
    SharesOver(r, consumer, p => -PaidBy(p, owner, currency));
    SumNegates(r.order, id => IfSettled(r, id, p => PaidBy(p, owner, currency)),
               id => IfSettled(r, id, p => -PaidBy(p, owner, currency)));
    Conserved(run, merchant);
    SharesOver(r, merchant, p => EarnedBy(p, owner, currency));
    Conserved(run, platform);
    SharesOver(r, platform, p => FeeIn(p, currency));
  }
}
