/** What every history of postings and reversals keeps: the trial balance, and exact reversal. */
module LedgerLaws {
  import opened Basics
  import opened Ledgers

  // ---------- the books ----------

  ghost predicate EntryOk(e: Entry, accounts: seq<Account>) {
    && |e.lines| >= 2
    && Total(e.lines) == 0
    && (forall l :: l in e.lines ==> l.amount > 0 && l.account in accounts)
    && (forall l, m :: l in e.lines && m in e.lines ==> l.account.currency == m.account.currency)
  }

  ghost predicate Books(l: Ledger) {
    && Distinct(l.order)
    && Distinct(l.accounts)
    && (forall k :: k in l.order <==> k in l.entries)
    && (forall k :: k in l.entries ==> EntryOk(l.entries[k], l.accounts))
  }

  lemma {:induction false} AccountsEnsured(accounts: seq<Account>, lines: seq<Line>)
    requires Distinct(accounts)
    ensures Distinct(EnsureAccounts(accounts, lines))
    ensures forall a :: a in accounts ==> a in EnsureAccounts(accounts, lines)
    ensures forall l :: l in lines ==> l.account in EnsureAccounts(accounts, lines)
  {
    if lines != [] {
      AccountsEnsured(accounts, lines[..|lines| - 1]);
      assert lines == lines[..|lines| - 1] + [lines[|lines| - 1]];
    }
  }

  lemma InsertKeepsBooks(l: Ledger, id: string, e: Entry)
    requires Books(l) && id !in l.entries
    requires |e.lines| >= 2 && Total(e.lines) == 0
    requires forall m :: m in e.lines ==> m.amount > 0
    requires forall m, n :: m in e.lines && n in e.lines ==> m.account.currency == n.account.currency
    ensures Books(Insert(l, id, e))
  {
    AccountsEnsured(l.accounts, e.lines);
    DistinctAppend(l.order, id);
  }

  lemma {:induction false} FlipNegates(lines: seq<Line>, a: Account)
    ensures Total(Flip(lines)) == -Total(lines)
    ensures Effect(Flip(lines), a) == -Effect(lines, a)
  {
    if lines != [] {
      var n := |lines| - 1;
      FlipNegates(lines[..n], a);
      assert Flip(lines)[..n] == Flip(lines[..n]);
    }
  }

  lemma PostKeepsBooks(l: Ledger, id: string, description: string, lines: seq<LineInput>)
    requires Books(l)
    ensures Books(Post(l, id, description, lines).0)
  {
    if Post(l, id, description, lines).0 != l {
      AcceptedMeans(lines);
      InsertKeepsBooks(l, id, Entry(description, EntryLines(Normalised(lines)), false));
    }
  }

  lemma FlippedLines(lines: seq<Line>)
    requires |lines| >= 2 && Total(lines) == 0
    requires forall l :: l in lines ==> l.amount > 0
    requires forall l, m :: l in lines && m in lines ==> l.account.currency == m.account.currency
    ensures var rows := Flip(lines);
            && Total(rows) == 0
            && (forall l :: l in rows ==> l.amount > 0)
            && (forall l, m :: l in rows && m in rows ==> l.account.currency == m.account.currency)
  {
    FlipNegates(lines, lines[0].account);
    forall l | l in Flip(lines) ensures l.amount > 0 && l.account.currency == lines[0].account.currency {
      var i :| 0 <= i < |lines| && Flip(lines)[i] == l;
      assert lines[i] in lines && lines[0] in lines;
    }
  }

  lemma FlagKeepsBooks(l: Ledger, id: string)
    requires Books(l) && id in l.entries
    ensures Books(Flag(l, id))
  {
  }

  /** Reversing keeps the books, and reversing a posted entry never fails. */
  lemma ReverseKeepsBooks(l: Ledger, id: string, reason: string)
    requires Books(l)
    ensures Books(Reverse(l, id, reason).0)
    ensures id in l.entries && id != "" ==> Reverse(l, id, reason).1.None?
  {
    if id != "" && id in l.entries && !l.entries[id].reversed {
      if Rev(id) in l.entries {
        FlagKeepsBooks(l, id);
      } else {
        var lines := l.entries[id].lines;
        FlippedLines(lines);
        var e := Entry(ReversalText(reason), Flip(lines), false);
        InsertKeepsBooks(l, Rev(id), e);
        FlagKeepsBooks(Insert(l, Rev(id), e), id);
      }
    }
  }

  // ---------- trial balance ----------

  function InCurrency(l: Ledger, currency: string, a: Account): int {
    if a.currency == currency then Balance(l, a) else 0
  }

  /** Sum of the balances of every known account of one currency. */
  function CurrencyTotal(l: Ledger, currency: string): int {
    Sum(l.accounts, a => InCurrency(l, currency, a))
  }

  function EffectIn(lines: seq<Line>, currency: string, a: Account): int {
    if a.currency == currency then Effect(lines, a) else 0
  }

  lemma {:induction false} SumOfZeroes<K>(keys: seq<K>, f: K -> int)
    requires forall k :: k in keys ==> f(k) == 0
    ensures Sum(keys, f) == 0
  {
    if keys != [] {
      SumOfZeroes(keys[..|keys| - 1], f);
    }
  }

  /** Spread over all accounts of a currency, the lines of an entry add up to the entry's total. */
  lemma {:induction false} EffectsAddUp(accounts: seq<Account>, lines: seq<Line>, currency: string)
    requires Distinct(accounts)
    requires forall l :: l in lines ==> l.account in accounts && l.account.currency == currency
    ensures Sum(accounts, a => EffectIn(lines, currency, a)) == Total(lines)
  {
    var f := a => EffectIn(lines, currency, a);
    if lines == [] {
      SumOfZeroes(accounts, f);
    } else {
      var n := |lines| - 1;
      var front, last := lines[..n], lines[n];
      assert last in lines && forall l :: l in front ==> l in lines;
      EffectsAddUp(accounts, front, currency);
      SumChangeOne(accounts, last.account, a => EffectIn(front, currency, a), f);
    }
  }

  lemma EntryCancels(e: Entry, accounts: seq<Account>, currency: string)
    requires Distinct(accounts) && EntryOk(e, accounts)
    ensures Sum(accounts, a => EffectIn(e.lines, currency, a)) == 0
  {
    var f := a => EffectIn(e.lines, currency, a);
    if e.lines[0].account.currency == currency {
      EffectsAddUp(accounts, e.lines, currency);
    } else {
      forall a | a in accounts ensures f(a) == 0 {
        if a.currency == currency {
          NoEffect(e.lines, a);
        }
      }
      SumOfZeroes(accounts, f);
    }
  }

  lemma {:induction false} NoEffect(lines: seq<Line>, a: Account)
    requires forall l :: l in lines ==> l.account != a
    ensures Effect(lines, a) == 0
  {
    if lines != [] {
      assert lines[|lines| - 1] in lines;
      NoEffect(lines[..|lines| - 1], a);
    }
  }

  /** The same total, over the first `n` entries only. */
  function PartialTotal(l: Ledger, n: nat, currency: string): int
    requires n <= |l.order|
  {
    CurrencyTotal(l.(order := l.order[..n]), currency)
  }

  lemma {:induction false} PartialTotalIsZero(l: Ledger, n: nat, currency: string)
    requires Books(l) && n <= |l.order|
    ensures PartialTotal(l, n, currency) == 0
  {
    var part := l.(order := l.order[..n]);
    if n == 0 {
      SumOfZeroes(l.accounts, a => InCurrency(part, currency, a));
    } else {
      var k := l.order[n - 1];
      var before := l.(order := l.order[..n - 1]);
      assert l.order[..n][..n - 1] == l.order[..n - 1];
      assert k in l.order;
      PartialTotalIsZero(l, n - 1, currency);
      EntryCancels(l.entries[k], l.accounts, currency);
      SumAdd(l.accounts, a => InCurrency(before, currency, a),
             a => EffectIn(l.entries[k].lines, currency, a), a => InCurrency(part, currency, a));
    }
  }

  datatype Op = PostOp(id: string, description: string, lines: seq<LineInput>) | ReverseOp(id: string, reason: string)

  function Apply(l: Ledger, op: Op): Ledger {
    match op
    case PostOp(id, description, lines) => Post(l, id, description, lines).0
    case ReverseOp(id, reason) => Reverse(l, id, reason).0
  }

  function Run(l: Ledger, ops: seq<Op>): Ledger {
    if ops == [] then l else Apply(Run(l, ops[..|ops| - 1]), ops[|ops| - 1])
  }

  lemma {:induction false} RunKeepsBooks(ops: seq<Op>)
    ensures Books(Run(EMPTY, ops))
  {
    if ops != [] {
      var l := Run(EMPTY, ops[..|ops| - 1]);
      RunKeepsBooks(ops[..|ops| - 1]);
      match ops[|ops| - 1]
      case PostOp(id, description, lines) => PostKeepsBooks(l, id, description, lines);
      case ReverseOp(id, reason) => ReverseKeepsBooks(l, id, reason);
    }
  }

  /** After any sequence of postings and reversals, of any ids, every entry balances in a single
      currency and the accounts of each currency sum to zero. */
  lemma TrialBalance(ops: seq<Op>, currency: string)
    ensures var l := Run(EMPTY, ops);
            && (forall k :: k in l.entries ==> EntryOk(l.entries[k], l.accounts))
            && CurrencyTotal(l, currency) == 0
  {
    var l := Run(EMPTY, ops);
    RunKeepsBooks(ops);
    PartialTotalIsZero(l, |l.order|, currency);
    assert l.order[..|l.order|] == l.order;
  }

  /** The wrapped loop alone would not give a balanced entry: three debits worth 2^64 + 1 pence and a
      one penny credit pass it, and only the trigger at commit refuses them. */
  lemma TriggerIsNeeded()
    ensures var dr := (n: int) => LineInput("CONSUMER_ESCROW", "c", "DR", n, "GBP");
            var lines := [dr(INT64_MAX), dr(INT64_MAX), dr(3), LineInput("MERCHANT_ESCROW", "m", "CR", 1, "GBP")];
            LinesAccepted(lines) && Post(EMPTY, "p", "", lines) == (EMPTY, Some(Internal))
  {
    var dr := (n: int) => LineInput("CONSUMER_ESCROW", "c", "DR", n, "GBP");
    var lines := [dr(INT64_MAX), dr(INT64_MAX), dr(3), LineInput("MERCHANT_ESCROW", "m", "CR", 1, "GBP")];
    assert |NormaliseCurrency("GBP")| == 3;
    assert Trim("c") == "c" && Trim("m") == "m";
    AcceptedMeans(lines);
    var rows := EntryLines(Normalised(lines));
    SideTotals(lines, "DR");
    SideTotals(lines, "CR");
    RowTotals(rows);
  }

  function OnSide(l: LineInput, direction: string): int {
    if l.direction == direction then l.amount else 0
  }

  lemma SideTotals(lines: seq<LineInput>, d: string)
    requires |lines| == 4
    ensures SideTotal(lines, 4, d) ==
              OnSide(lines[0], d) + OnSide(lines[1], d) + OnSide(lines[2], d) + OnSide(lines[3], d)
  {
    assert SideTotal(lines, 1, d) == OnSide(lines[0], d);
    assert SideTotal(lines, 2, d) == SideTotal(lines, 1, d) + OnSide(lines[1], d);
  }

  lemma RowTotals(rows: seq<Line>)
    requires |rows| == 4
    ensures Total(rows) == Signed(rows[0]) + Signed(rows[1]) + Signed(rows[2]) + Signed(rows[3])
  {
    assert rows[..3][..2] == rows[..2] && rows[..2][..1] == rows[..1];
    assert Total(rows[..1]) == Signed(rows[0]);
    assert Total(rows[..2]) == Total(rows[..1]) + Signed(rows[1]);
    assert Total(rows[..3]) == Total(rows[..2]) + Signed(rows[2]);
  }

  // ---------- exact reversal ----------

  ghost predicate Paired(l: Ledger) {
    && (forall k :: k in l.entries && !ClientId(k) ==> |k| == 40 && k == Rev(k[..36]) && k[..36] in l.entries)
    && (forall k :: k in l.entries && ClientId(k) ==> (l.entries[k].reversed <==> Rev(k) in l.entries))
    && (forall k :: k in l.entries && ClientId(k) && Rev(k) in l.entries ==>
          l.entries[Rev(k)].lines == Flip(l.entries[k].lines))
  }

  lemma PostKeepsPaired(l: Ledger, id: string, description: string, lines: seq<LineInput>)
    requires Books(l) && Paired(l) && ClientId(id)
    ensures Paired(Post(l, id, description, lines).0)
  {
    RevNotClient(id);
    if Post(l, id, description, lines).0 != l {
      assert Rev(id)[..36] == id;
      assert Rev(id) !in l.entries;
      assert forall k :: k in l.entries && ClientId(k) ==> Rev(k) != id;
    }
  }

  lemma ReverseKeepsPaired(l: Ledger, id: string, reason: string)
    requires Books(l) && Paired(l) && ClientId(id)
    ensures Paired(Reverse(l, id, reason).0)
  {
    var after := Reverse(l, id, reason).0;
    if after != l {
      RevNotClient(id);
      assert Rev(id)[..36] == id;
      forall k | k in after.entries && ClientId(k)
        ensures after.entries[k].reversed <==> Rev(k) in after.entries
        ensures Rev(k) in after.entries ==> after.entries[Rev(k)].lines == Flip(after.entries[k].lines)
      {
        RevNotClient(k);
        if Rev(k) == Rev(id) {
          RevInjective(k, id);
        }
      }
    }
  }

  ghost predicate ClientOps(ops: seq<Op>) {
    forall i :: 0 <= i < |ops| ==> ClientId(ops[i].id)
  }

  lemma {:induction false} RunKeepsPaired(ops: seq<Op>)
    requires ClientOps(ops)
    ensures Books(Run(EMPTY, ops)) && Paired(Run(EMPTY, ops))
  {
    RunKeepsBooks(ops);
    if ops != [] {
      var front := ops[..|ops| - 1];
      RunKeepsBooks(front);
      RunKeepsPaired(front);
      var l := Run(EMPTY, front);
      match ops[|ops| - 1]
      case PostOp(id, description, lines) => PostKeepsPaired(l, id, description, lines);
      case ReverseOp(id, reason) => ReverseKeepsPaired(l, id, reason);
    }
  }

  /** In a well-kept journal a reversed pair moves no account, and reversing it again does nothing. */
  lemma PairCancels(l: Ledger, id: string, reason: string, a: Account)
    requires Paired(l) && ClientId(id) && id in l.entries && l.entries[id].reversed
    ensures Rev(id) in l.entries && Net(l.entries, id, a) == 0
    ensures Reverse(l, id, reason) == (l, None)
  {
    FlipNegates(l.entries[id].lines, a);
  }

  /** Reversing a posted client id always succeeds and leaves such a pair. */
  lemma ReversalCancels(l: Ledger, id: string, reason: string, a: Account)
    requires Books(l) && Paired(l) && ClientId(id) && id in l.entries
    ensures var (after, err) := Reverse(l, id, reason);
            && err.None?
            && id in after.entries && after.entries[id].reversed
            && Net(after.entries, id, a) == 0
            && Reverse(after, id, reason) == (after, None)
  {
    ReverseFlags(l, id, reason);
    ReverseKeepsPaired(l, id, reason);
    PairCancels(Reverse(l, id, reason).0, id, reason, a);
  }

  lemma ReverseFlags(l: Ledger, id: string, reason: string)
    requires Books(l) && ClientId(id) && id in l.entries
    ensures var (after, err) := Reverse(l, id, reason);
            err.None? && id in after.entries && after.entries[id].reversed
  {
    ReverseKeepsBooks(l, id, reason);
  }

  /** For any history over client ids: every key is a client id or the reversal of a posted one (so a
      reversal is never itself reversed), an entry is flagged iff its reversal exists, a reversed pair
      moves no account, and repeating a reversal or re-posting the id changes nothing. */
  lemma ExactReversal(ops: seq<Op>, id: string, reason: string, description: string, lines: seq<LineInput>, a: Account)
    requires ClientOps(ops) && ClientId(id)
    ensures var l := Run(EMPTY, ops);
            && (forall k :: k in l.entries && !ClientId(k) ==> exists c :: c in l.entries && ClientId(c) && k == Rev(c))
            && (id in l.entries ==>
                  && (l.entries[id].reversed <==> Rev(id) in l.entries)
                  && (l.entries[id].reversed ==> Net(l.entries, id, a) == 0 && Reverse(l, id, reason) == (l, None))
                  && Post(l, id, description, lines).0 == l
                  && Reverse(l, id, reason).1.None?
                  && Net(Reverse(l, id, reason).0.entries, id, a) == 0)
  {
    RunKeepsPaired(ops);
    if id in Run(EMPTY, ops).entries {
      ReversalCancels(Run(EMPTY, ops), id, reason, a);
      if Run(EMPTY, ops).entries[id].reversed {
        PairCancels(Run(EMPTY, ops), id, reason, a);
      }
    }
  }

  // ---------- the reserved suffix ----------

  const SOMEBODY := Account("CONSUMER_ESCROW", "c", NormaliseCurrency("GBP"))

  function Transfer(n: int): seq<LineInput> {
    [LineInput("CONSUMER_ESCROW", "c", "DR", n, "GBP"), LineInput("MERCHANT_ESCROW", "m", "CR", n, "GBP")]
  }

  lemma TransferSides(n: int)
    ensures Debits(Transfer(n)) == n && Credits(Transfer(n)) == n
  {
    var lines := Transfer(n);
    assert SideTotal(lines, 1, "DR") == n && SideTotal(lines, 1, "CR") == 0;
  }

  lemma TransferAccepted(n: int)
    requires n > 0
    ensures LinesAccepted(Transfer(n))
  {
    var lines := Transfer(n);
    TransferSides(n);
    AcceptedMeans(lines);
    assert |NormaliseCurrency("GBP")| == 3 && Trim("c") == "c" && Trim("m") == "m";
    forall i | 0 <= i < 2 ensures WellFormed(lines[i]) && lines[i].currency == "GBP" {
    }
  }

  lemma TransferRows(n: int)
    ensures var rows := EntryLines(Normalised(Transfer(n)));
            Total(rows) == 0 && Effect(rows, SOMEBODY) == -n
  {
    var rows := EntryLines(Normalised(Transfer(n)));
    assert rows[0] == Line(SOMEBODY, false, n);
    assert rows[1] == Line(Account("MERCHANT_ESCROW", "m", NormaliseCurrency("GBP")), true, n);
    assert rows[..1][..0] == [];
    assert Total(rows[..1]) == -n && Effect(rows[..1], SOMEBODY) == -n;
    assert "CONSUMER_ESCROW" != "MERCHANT_ESCROW";
  }

  /** A new id is posted with the rows of the transfer. */
  lemma TransferPosts(l: Ledger, id: string, n: int)
    requires id != "" && id !in l.entries && n > 0
    ensures var after := Post(l, id, "", Transfer(n)).0;
            && after.entries.Keys == l.entries.Keys + {id}
            && (forall k :: k in l.entries ==> after.entries[k] == l.entries[k])
            && !after.entries[id].reversed && Effect(after.entries[id].lines, SOMEBODY) == -n
  {
    TransferAccepted(n);
    TransferRows(n);
  }

  /** Without that discipline it fails, whatever the amounts: post `id`, let a client post under `id-rev`, then
      reverse `id`. The flag goes up and nothing moves back: both postings stand. */
  lemma ReservedSuffixIsNeeded(id: string, x: int, y: int)
    requires id != "" && x > 0 && y > 0
    ensures var history := [PostOp(id, "", Transfer(x)), PostOp(Rev(id), "", Transfer(y)), ReverseOp(id, "")];
            var l := Run(EMPTY, history);
            && id in l.entries && l.entries[id].reversed && Rev(id) in l.entries
            && Net(l.entries, id, SOMEBODY) == -x - y
  {
    var history := [PostOp(id, "", Transfer(x)), PostOp(Rev(id), "", Transfer(y)), ReverseOp(id, "")];
    assert |Rev(id)| != |id| && Rev(id) != "";
    assert history[..2][..1] == history[..1] && history[..1][..0] == [];
    var l1 := Post(EMPTY, id, "", Transfer(x)).0;
    var l2 := Post(l1, Rev(id), "", Transfer(y)).0;
    TransferPosts(EMPTY, id, x);
    TransferPosts(l1, Rev(id), y);
    assert Run(EMPTY, history[..1]) == l1;
    assert Run(EMPTY, history[..2]) == l2;
    assert Run(EMPTY, history) == Reverse(l2, id, "").0 == Flag(l2, id);
  }
}
