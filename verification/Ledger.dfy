/** The double-entry journal (ledger-svc, store.go): validation of a posting, idempotent posting,
    reversal under `id + "-rev"`, and balances as signed sums of journal lines. */
module Ledgers {
  import opened Basics

  /** A requested journal line, in the strings the request carries. */
  datatype LineInput = LineInput(accountType: string, ownerRef: string, direction: string, amount: int,
    currency: string)

  datatype Account = Account(kind: string, owner: string, currency: string)

  datatype Line = Line(account: Account, credit: bool, amount: int)

  datatype Entry = Entry(description: string, lines: seq<Line>, reversed: bool)

  /** The journal: `entries` is the entry table with its unique payment id, `order` its insertion
      order, `accounts` the account table. */
  datatype Ledger = Ledger(order: seq<string>, entries: map<string, Entry>, accounts: seq<Account>)

  const EMPTY := Ledger([], map[], [])

  // ---------- validation of a posting ----------

  predicate WellFormed(l: LineInput) {
    && l.accountType != ""
    && Trim(l.ownerRef) != ""
    && (l.direction == "DR" || l.direction == "CR")
    && l.amount > 0
    && |NormaliseCurrency(l.currency)| == 3
  }

  /** Exact total of one side over the first `n` lines. */
  function SideTotal(lines: seq<LineInput>, n: nat, direction: string): int
    requires n <= |lines|
  {
    if n == 0 then 0
    else SideTotal(lines, n - 1, direction) + (if lines[n - 1].direction == direction then lines[n - 1].amount else 0)
  }

  /** The same total as the loop keeps it, wrapping at every addition. */
  function RunningTotal(lines: seq<LineInput>, n: nat, direction: string): int
    requires n <= |lines|
  {
    if n == 0 then 0
    else
      AddLine(RunningTotal(lines, n - 1, direction), lines[n - 1], direction)
  }

  function AddLine(total: int, l: LineInput, direction: string): int {
    if l.direction == direction then Wrap64(total + l.amount) else total
  }

  function Debits(lines: seq<LineInput>): int { SideTotal(lines, |lines|, "DR") }
  function Credits(lines: seq<LineInput>): int { SideTotal(lines, |lines|, "CR") }

  function Cleaned(l: LineInput): LineInput {
    l.(currency := NormaliseCurrency(l.currency))
  }

  function Normalised(lines: seq<LineInput>): (r: seq<LineInput>)
    ensures |r| == |lines|
  {
    seq(|lines|, i requires 0 <= i < |lines| => Cleaned(lines[i]))
  }

  lemma {:induction false} RunningIsWrapped(lines: seq<LineInput>, n: nat, direction: string)
    requires n <= |lines|
    ensures RunningTotal(lines, n, direction) == Wrap64(SideTotal(lines, n, direction))
  {
    if n > 0 {
      RunningIsWrapped(lines, n - 1, direction);
      var before := SideTotal(lines, n - 1, direction);
      WrapEqual(Wrap64(before) + lines[n - 1].amount, before + lines[n - 1].amount);
    }
  }

  /** The currency shared by the first `n` lines ("" before the first), None once a line fails. */
  function Scan(lines: seq<LineInput>, n: nat): Option<string>
    requires n <= |lines|
  {
    if n == 0 then Some("")
    else
      match Scan(lines, n - 1)
      case None => None
      case Some(currency) => ScanLine(lines[n - 1], currency)
  }

  function ScanLine(l: LineInput, currency: string): Option<string> {
    var cur := NormaliseCurrency(l.currency);
    if WellFormed(l) && (currency == "" || cur == currency) then Some(cur) else None
  }

  /** Scanning line by line is checking them all against each other. */
  lemma {:induction false} ScanMeansPasses(lines: seq<LineInput>, n: nat)
    requires n <= |lines|
    ensures Scan(lines, n).Some? <==>
              forall i :: 0 <= i < n ==>
                WellFormed(lines[i]) && NormaliseCurrency(lines[i].currency) == NormaliseCurrency(lines[0].currency)
    ensures n > 0 && Scan(lines, n).Some? ==> Scan(lines, n).value == NormaliseCurrency(lines[0].currency)
  {
    if n > 0 {
      ScanMeansPasses(lines, n - 1);
    }
  }

  lemma {:induction false} ScanStaysRejected(lines: seq<LineInput>, i: nat, n: nat)
    requires i <= n <= |lines| && Scan(lines, i).None?
    ensures Scan(lines, n).None?
  {
    if i < n {
      ScanStaysRejected(lines, i, n - 1);
    }
  }

  /** A posting passes validation: no line fails, and the two running totals meet. */
  predicate LinesAccepted(lines: seq<LineInput>) {
    Scan(lines, |lines|).Some? && RunningTotal(lines, |lines|, "DR") == RunningTotal(lines, |lines|, "CR")
  }

  /** In full: every line is well formed, all share one currency, and the two sides differ by a multiple
      of 2^64 pence -- the comparison is made after 64-bit wrap-around. */
  lemma AcceptedMeans(lines: seq<LineInput>)
    ensures LinesAccepted(lines) <==>
              && (forall i :: 0 <= i < |lines| ==>
                    && lines[i].accountType != "" && Trim(lines[i].ownerRef) != ""
                    && lines[i].direction in {"DR", "CR"} && lines[i].amount > 0
                    && |NormaliseCurrency(lines[i].currency)| == 3
                    && NormaliseCurrency(lines[i].currency) == NormaliseCurrency(lines[0].currency))
              && (Debits(lines) - Credits(lines)) % TWO_64 == 0
  {
    ScanMeansPasses(lines, |lines|);
    RunningIsWrapped(lines, |lines|, "DR");
    RunningIsWrapped(lines, |lines|, "CR");
    WrapEqual(Debits(lines), Credits(lines));
  }

  /** The loop over the lines: the first failing line decides, currencies are normalised in place,
      and the two sides are added up in 64 bits. */
  method ValidateLines(lines: array<LineInput>) returns (accepted: bool)
    modifies lines
    ensures accepted <==> LinesAccepted(old(lines[..]))
    ensures accepted ==> lines[..] == Normalised(old(lines[..]))
  {
    ghost var input := lines[..];
    var debit, credit, currency := 0, 0, "";
    for i := 0 to lines.Length
      invariant Scan(input, i) == Some(currency)
      invariant debit == RunningTotal(input, i, "DR") && credit == RunningTotal(input, i, "CR")
      invariant forall k :: 0 <= k < i ==> lines[k] == Cleaned(input[k])
      invariant forall k :: i <= k < lines.Length ==> lines[k] == input[k]
    {
      var l := lines[i];
      var scanned := ScanLine(l, currency);
      if scanned.None? {
        ScanStaysRejected(input, i + 1, lines.Length);
        return false;
      }
      currency := scanned.value;
      lines[i] := Cleaned(l);
      debit, credit := AddLine(debit, l, "DR"), AddLine(credit, l, "CR");
    }
    assert lines[..] == Normalised(input);
    accepted := debit == credit;
  }

  // ---------- journal lines and balances ----------

  function Signed(l: Line): int {
    if l.credit then l.amount else -l.amount
  }

  /** Credits minus debits of an entry: zero is what the constraint trigger demands at commit. */
  function Total(lines: seq<Line>): int {
    if lines == [] then 0 else Total(lines[..|lines| - 1]) + Signed(lines[|lines| - 1])
  }

  /** What a list of lines does to the balance of one account. */
  function Effect(lines: seq<Line>, a: Account): int {
    if lines == [] then 0
    else
      var l := lines[|lines| - 1];
      Effect(lines[..|lines| - 1], a) + (if l.account == a then Signed(l) else 0)
  }

  function EffectAt(entries: map<string, Entry>, k: string, a: Account): int {
    if k in entries then Effect(entries[k].lines, a) else 0
  }

  /** Balance of an account: credits minus debits over every journal line, zero if unknown. */
  function Balance(l: Ledger, a: Account): int {
    Sum(l.order, k => EffectAt(l.entries, k, a))
  }

  function CurrencyOrDefault(currency: string): string {
    var cur := NormaliseCurrency(currency);
    if cur == "" then "GBP" else cur
  }

  /** Joint effect of a payment and of its reversal. */
  function Net(entries: map<string, Entry>, id: string, a: Account): int {
    EffectAt(entries, id, a) + EffectAt(entries, Rev(id), a)
  }

  /** The rows stored for a validated posting, whose currencies are normalised by then. */
  function EntryLines(lines: seq<LineInput>): (r: seq<Line>)
    ensures |r| == |lines|
  {
    seq(|lines|, i requires 0 <= i < |lines| =>
      Line(Account(lines[i].accountType, lines[i].ownerRef, lines[i].currency),
           lines[i].direction == "CR", lines[i].amount))
  }

  function Flip(lines: seq<Line>): (r: seq<Line>)
    ensures |r| == |lines|
  {
    seq(|lines|, i requires 0 <= i < |lines| => lines[i].(credit := !lines[i].credit))
  }

  function EnsureAccounts(accounts: seq<Account>, lines: seq<Line>): seq<Account> {
    if lines == [] then accounts
    else
      var before := EnsureAccounts(accounts, lines[..|lines| - 1]);
      var a := lines[|lines| - 1].account;
      if a in before then before else before + [a]
  }

  function Insert(l: Ledger, id: string, e: Entry): Ledger {
    Ledger(l.order + [id], l.entries[id := e], EnsureAccounts(l.accounts, e.lines))
  }

  function Flag(l: Ledger, id: string): Ledger
    requires id in l.entries
  {
    l.(entries := l.entries[id := l.entries[id].(reversed := true)])
  }

  // ---------- the two transactions ----------

  function Post(l: Ledger, id: string, description: string, lines: seq<LineInput>): (Ledger, Option<Code>) {
    if id == "" || |lines| < 2 || !LinesAccepted(lines) then
      (l, Some(Validation))
    else if id in l.entries then
      (l, None)
    else if Total(EntryLines(Normalised(lines))) != 0 then
      (l, Some(Internal))  // the deferred balance trigger aborts the commit
    else
      (Insert(l, id, Entry(description, EntryLines(Normalised(lines)), false)), None)
  }

  function ReversalText(reason: string): string {
    if reason == "" then "REVERSAL" else "REVERSAL: " + reason
  }

  function Reverse(l: Ledger, id: string, reason: string): (Ledger, Option<Code>) {
    if id == "" then
      (l, Some(Validation))
    else if id !in l.entries then
      (l, Some(NotFound))
    else if l.entries[id].reversed then
      (l, None)
    else if Rev(id) in l.entries then
      (Flag(l, id), None)
    else
      var lines := Flip(l.entries[id].lines);
      if lines == [] || Total(lines) != 0 then
        (l, Some(Internal))
      else
        (Flag(Insert(l, Rev(id), Entry(ReversalText(reason), lines, false)), id), None)
  }

  /** A posting succeeds iff it names a payment, its lines are accepted, and it is known already or balances; a new one
      stores exactly its lines, unreversed, and a known one changes nothing. */
  lemma PostIff(l: Ledger, id: string, description: string, lines: seq<LineInput>)
    ensures var (after, err) := Post(l, id, description, lines);
            var valid := id != "" && |lines| >= 2 && LinesAccepted(lines);
            && (err == Some(Validation) <==> !valid)
            && (err == Some(Internal) <==> valid && id !in l.entries && Total(EntryLines(Normalised(lines))) != 0)
            && (err in {None, Some(Validation), Some(Internal)})
            && (after != l ==> err.None? && id !in l.entries)
            && (err.None? && id !in l.entries ==>
                  && after.order == l.order + [id]
                  && after.entries == l.entries[id := Entry(description, EntryLines(Normalised(lines)), false)])
  {
  }

  /** A reversal succeeds iff the entry exists and is reversed already, has its "-rev" already, or can be mirrored; the
      mirror has every line flipped. */
  lemma ReverseIff(l: Ledger, id: string, reason: string)
    ensures var (after, err) := Reverse(l, id, reason);
            && (err == Some(Validation) <==> id == "")
            && (err == Some(NotFound) <==> id != "" && id !in l.entries)
            && (err == Some(Internal) <==>
                  && id != "" && id in l.entries && !l.entries[id].reversed && id + "-rev" !in l.entries
                  && (l.entries[id].lines == [] || Total(Flip(l.entries[id].lines)) != 0))
            && (err in {None, Some(Validation), Some(NotFound), Some(Internal)})
            && (err.Some? ==> after == l)
            && (err.None? ==> id in after.entries && after.entries[id] == l.entries[id].(reversed := true))
            && (err.None? && !l.entries[id].reversed && id + "-rev" !in l.entries ==>
                  && id + "-rev" in after.entries && after.order == l.order + [id + "-rev"]
                  && var mirror := after.entries[id + "-rev"];
                  && |mirror.lines| == |l.entries[id].lines| && !mirror.reversed
                  && mirror.description == (if reason == "" then "REVERSAL" else "REVERSAL: " + reason)
                  && forall i :: 0 <= i < |mirror.lines| ==>
                       && mirror.lines[i].account == l.entries[id].lines[i].account
                       && mirror.lines[i].amount == l.entries[id].lines[i].amount
                       && mirror.lines[i].credit == !l.entries[id].lines[i].credit)
  {
    assert |Rev(id)| != |id|;
  }

  // ---------- the retrying transaction runner ----------

  datatype TxAnswer = Commit | SerializationFailure | Broken

  const MAX_ATTEMPTS := 5

  /** Verdict of the first attempt that does not end in a serialization failure. */
  function Verdict(answers: nat -> TxAnswer, from: nat): TxAnswer
    requires from <= MAX_ATTEMPTS
    decreases MAX_ATTEMPTS - from
  {
    if from == MAX_ATTEMPTS then SerializationFailure
    else if answers(from) == SerializationFailure then Verdict(answers, from + 1)
    else answers(from)
  }

  method WithSerializable(answers: nat -> TxAnswer) returns (verdict: TxAnswer, attempts: nat)
    ensures verdict == Verdict(answers, 0)
    ensures attempts <= 5
    ensures verdict == Commit ==>
              attempts > 0 && answers(attempts - 1) == Commit
              && forall i: nat :: i < attempts - 1 ==> answers(i) == SerializationFailure
    ensures verdict == SerializationFailure <==> forall i: nat :: i < 5 ==> answers(i) == SerializationFailure
  {
    attempts := 0;
    while attempts < MAX_ATTEMPTS
      invariant attempts <= MAX_ATTEMPTS
      invariant forall i: nat :: i < attempts ==> answers(i) == SerializationFailure
      invariant Verdict(answers, 0) == Verdict(answers, attempts)
    {
      var answer := answers(attempts);
      attempts := attempts + 1;
      if answer != SerializationFailure {
        return answer, attempts;
      }
    }
    return SerializationFailure, attempts;
  }

  // ---------- the store ----------

  class LedgerStore {
    var order: seq<string>
    var entries: map<string, Entry>
    var accounts: seq<Account>

    function View(): Ledger reads this {
      Ledger(order, entries, accounts)
    }

    constructor ()
      ensures View() == EMPTY
    {
      order, entries, accounts := [], map[], [];
    }

    method EnsureAccount(a: Account)
      modifies this`accounts
      ensures accounts == (if a in old(accounts) then old(accounts) else old(accounts) + [a])
    {
      if a !in accounts {
        accounts := accounts + [a];
      }
    }

    method InsertEntry(id: string, e: Entry)
      modifies this
      ensures View() == Insert(old(View()), id, e)
    {
      order := order + [id];
      entries := entries[id := e];
      var i := 0;
      while i < |e.lines|
        invariant 0 <= i <= |e.lines|
        invariant order == old(order) + [id] && entries == old(entries)[id := e]
        invariant accounts == EnsureAccounts(old(accounts), e.lines[..i])
      {
        assert e.lines[..i + 1][..i] == e.lines[..i];
        EnsureAccount(e.lines[i].account);
        i := i + 1;
      }
      assert e.lines[..i] == e.lines;
    }

    method PostDoubleEntry(id: string, description: string, lines: array<LineInput>, answers: nat -> TxAnswer)
      returns (err: Option<Code>)
      modifies this, lines
      ensures var posted := Post(old(View()), id, description, old(lines[..]));
              if id == "" || lines.Length < 2 || !LinesAccepted(old(lines[..])) then
                View() == old(View()) && err == Some(Validation)
              else match Verdict(answers, 0)
                case Commit => View() == posted.0 && err == posted.1
                case SerializationFailure => View() == old(View()) && err == Some(Conflict)
                case Broken => View() == old(View()) && err == Some(Internal)
    {
      if id == "" || lines.Length < 2 {
        return Some(Validation);
      }
      var accepted := ValidateLines(lines);
      if !accepted {
        return Some(Validation);
      }
      var verdict, _ := WithSerializable(answers);
      if verdict == SerializationFailure {
        return Some(Conflict);
      }
      if verdict == Broken {
        return Some(Internal);
      }
      if id in entries {
        return None;
      }
      var rows := EntryLines(lines[..]);
      if Total(rows) != 0 {
        return Some(Internal);
      }
      InsertEntry(id, Entry(description, rows, false));
      err := None;
    }

    method ReverseEntry(id: string, reason: string, answers: nat -> TxAnswer) returns (err: Option<Code>)
      modifies this
      ensures var reversed := Reverse(old(View()), id, reason);
              if id == "" then View() == old(View()) && err == Some(Validation)
              else match Verdict(answers, 0)
                case Commit => View() == reversed.0 && err == reversed.1
                case SerializationFailure => View() == old(View()) && err == Some(Conflict)
                case Broken => View() == old(View()) && err == Some(Internal)
    {
      if id == "" {
        return Some(Validation);
      }
      var verdict, _ := WithSerializable(answers);
      if verdict == SerializationFailure {
        return Some(Conflict);
      }
      if verdict == Broken {
        return Some(Internal);
      }
      if id !in entries {
        return Some(NotFound);
      }
      if entries[id].reversed {
        return None;
      }
      if Rev(id) !in entries {
        var lines := Flip(entries[id].lines);
        if lines == [] || Total(lines) != 0 {
          return Some(Internal);
        }
        InsertEntry(Rev(id), Entry(ReversalText(reason), lines, false));
      }
      entries := entries[id := entries[id].(reversed := true)];
      err := None;
    }

    /** A sum that does not fit the 64-bit result is an error of the query. */
    method GetBalance(kind: string, owner: string, currency: string) returns (r: Result<int>)
      ensures var cur := NormaliseCurrency(currency);
              var a := Account(kind, owner, if cur == "" then "GBP" else cur);
              && (r == Err(Validation) <==> kind == "" || Trim(owner) == "" || |a.currency| != 3)
              && (r.Ok? ==> r.value == Balance(View(), a))
              && (r != Err(Validation) ==> (r.Ok? <==> IsInt64(Balance(View(), a))))
    {
      var a := Account(kind, owner, CurrencyOrDefault(currency));
      if kind == "" || Trim(owner) == "" || |a.currency| != 3 {
        return Err(Validation);
      }
      var rows, keys := entries, order;
      var balance := 0;
      var i := 0;
      while i < |keys|
        invariant 0 <= i <= |keys|
        invariant balance == Sum(keys[..i], k => EffectAt(rows, k, a))
      {
        assert keys[..i + 1] == keys[..i] + [keys[i]];
        SumAppend(keys[..i], keys[i], k => EffectAt(rows, k, a));
        balance := balance + EffectAt(rows, keys[i], a);
        i := i + 1;
      }
      assert keys[..i] == keys;
      r := if IsInt64(balance) then Ok(balance) else Err(Internal);
    }
  }
}
