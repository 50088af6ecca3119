/** The outbox relay (payment-svc, outbox.go): list a batch, then for each row publish to Kafka and delete.
    A row is named by its payment; rows are listed in insertion order. */
module Outbox {
  import opened Basics
  import Platform
  import AllRuns
  import Slices
  import P = Payments

  const BATCH := 100

  /** `inserted` is every row ever committed to the outbox, `table` the rows still there, `log` the topic.
      While the relay works, `batch` is what it still has to do and `published` tells whether the head of
      the batch has been acknowledged. */
  datatype Relay = Relay(inserted: seq<string>, table: seq<string>, log: seq<string>, batch: seq<string>,
    published: bool)

  const START := Relay([], [], [], [], false)

  /** A publication writes some copies of the message: at least one if it is acknowledged. A deletion that
      answers an error may have happened or not. */
  datatype Event =
    | Insert(row: string)
    | List
    | Publish(copies: nat, acknowledged: bool)
    | Delete(gone: bool, answered: bool)
    | Crash

  function Copies(row: string, n: nat): (r: seq<string>)
    ensures |r| == n && forall i :: 0 <= i < n ==> r[i] == row
  {
    seq(n, _ => row)
  }

  function Without(table: seq<string>, row: string): seq<string> {
    if table == [] then []
    else if table[0] == row then Without(table[1..], row)
    else [table[0]] + Without(table[1..], row)
  }

  function FirstRows(table: seq<string>): seq<string> {
    if |table| <= BATCH then table else table[..BATCH]
  }

  predicate Enabled(r: Relay, e: Event) {
    match e
    case Insert(row) => row !in r.inserted
    case List => r.batch == []
    case Publish(copies, acknowledged) => r.batch != [] && !r.published && (acknowledged ==> copies >= 1)
    case Delete(gone, answered) => r.batch != [] && r.published && (answered ==> gone)
    case Crash => true
  }

  /** An error ends the batch; so does a crash. */
  function Step(r: Relay, e: Event): Relay {
    if !Enabled(r, e) then r
    else match e
      case Insert(row) => r.(inserted := r.inserted + [row], table := r.table + [row])
      case List => r.(batch := FirstRows(r.table), published := false)
      case Publish(copies, acknowledged) =>
        var sent := r.(log := r.log + Copies(r.batch[0], copies));
        if acknowledged then sent.(published := true) else sent.(batch := [])
      case Delete(gone, answered) =>
        var done := if gone then r.(table := Without(r.table, r.batch[0])) else r;
        done.(batch := if answered then r.batch[1..] else [], published := false)
      case Crash => r.(batch := [], published := false)
  }

  function Exec(events: seq<Event>): Relay {
    if events == [] then START else Step(Exec(events[..|events| - 1]), events[|events| - 1])
  }

  // ---------- what every run keeps ----------

  /** The log with consecutive repeats collapsed. */
  function Collapse(log: seq<string>): seq<string> {
    if log == [] then []
    else
      var front, last := log[..|log| - 1], log[|log| - 1];
      if front != [] && front[|front| - 1] == last then Collapse(front) else Collapse(front) + [last]
  }

  function Gone(r: Relay): int {
    |r.inserted| - |r.table|
  }

  function Sent(r: Relay): nat {
    |Collapse(r.log)|
  }

  /** The rows gone are the oldest, all published; the next one may have been published too. */
  ghost predicate Good(r: Relay) {
    && Distinct(r.inserted)
    && 0 <= Gone(r) <= Sent(r) <= Gone(r) + 1 && Sent(r) <= |r.inserted|
    && r.table == r.inserted[Gone(r)..]
    && Collapse(r.log) == r.inserted[..Sent(r)]
    && r.batch <= r.table
    && (r.published && r.batch != [] ==> Sent(r) == Gone(r) + 1)
  }

  lemma {:induction false} CollapseCopies(log: seq<string>, row: string, n: nat)
    ensures Collapse(log + Copies(row, n)) ==
              if n == 0 || (log != [] && log[|log| - 1] == row) then Collapse(log) else Collapse(log) + [row]
  {
    if n == 0 {
      assert log + Copies(row, 0) == log;
    } else {
      CollapseCopies(log, row, n - 1);
      var all := log + Copies(row, n);
      assert all[..|all| - 1] == log + Copies(row, n - 1);
    }
  }

  lemma {:induction false} CollapseEnds(log: seq<string>)
    ensures log == [] <==> Collapse(log) == []
    ensures log != [] ==> Collapse(log)[|Collapse(log)| - 1] == log[|log| - 1]
  {
    if log != [] {
      CollapseEnds(log[..|log| - 1]);
    }
  }

  lemma {:induction false} WithoutAbsent(table: seq<string>, row: string)
    requires row !in table
    ensures Without(table, row) == table
  {
    if table != [] {
      WithoutAbsent(table[1..], row);
    }
  }

  lemma PublishKeepsGood(r: Relay, copies: nat, acknowledged: bool)
    requires Good(r) && Enabled(r, Publish(copies, acknowledged))
    ensures Good(Step(r, Publish(copies, acknowledged)))
  {
    var row := r.batch[0];
    assert row == r.table[0] == r.inserted[Gone(r)];
    CollapseCopies(r.log, row, copies);
    CollapseEnds(r.log);
    assert r.inserted[..Gone(r) + 1] == r.inserted[..Gone(r)] + [row];
  }

  lemma DeleteKeepsGood(r: Relay, gone: bool, answered: bool)
    requires Good(r) && Enabled(r, Delete(gone, answered))
    ensures Good(Step(r, Delete(gone, answered)))
  {
    var row := r.batch[0];
    assert row == r.table[0] == r.inserted[Gone(r)];
    assert row !in r.table[1..];
    WithoutAbsent(r.table[1..], row);
    assert r.table[1..] == r.inserted[Gone(r) + 1..];
    assert r.batch[1..] <= r.table[1..];
  }

  lemma StepKeepsGood(r: Relay, e: Event)
    requires Good(r)
    ensures Good(Step(r, e))
  {
    if Enabled(r, e) {
      match e
      case Insert(row) =>
        DistinctAppend(r.inserted, row);
        assert r.table + [row] == (r.inserted + [row])[Gone(r)..];
      case List =>
      case Publish(copies, acknowledged) => PublishKeepsGood(r, copies, acknowledged);
      case Delete(gone, answered) => DeleteKeepsGood(r, gone, answered);
      case Crash =>
    }
  }

  lemma {:induction false} RunIsGood(events: seq<Event>)
    ensures Good(Exec(events))
  {
    if events != [] {
      RunIsGood(events[..|events| - 1]);
      StepKeepsGood(Exec(events[..|events| - 1]), events[|events| - 1]);
    }
  }

  /** Over every run of inserts, listings, publications, deletions and crashes, whatever fails: with repeats
      collapsed the log is a prefix of the insertions, the rows still in the table are the rest of them but
      for at most one that has been published already, and no row left the table unpublished. */
  lemma PublishedInOrder(events: seq<Event>)
    ensures var r := Exec(events);
            && Collapse(r.log) <= r.inserted
            && 0 <= Gone(r) <= |Collapse(r.log)| <= Gone(r) + 1
            && r.table == r.inserted[Gone(r)..]
            && (forall row :: row in r.inserted && row !in r.table ==> row in r.log)
  {
    var r := Exec(events);
    RunIsGood(events);
    assert r.inserted == r.inserted[..Gone(r)] + r.table;
    forall row | row in r.inserted && row !in r.table ensures row in r.log {
      assert row in r.inserted[..Gone(r)];
      assert row in r.inserted[..Sent(r)];
      CollapsedMember(r.log, row);
    }
  }

  lemma {:induction false} CollapsedMember(log: seq<string>, row: string)
    ensures row in Collapse(log) <==> row in log
  {
    if log != [] {
      CollapsedMember(log[..|log| - 1], row);
      assert log == log[..|log| - 1] + [log[|log| - 1]];
    }
  }

  // ---------- one flush, as the relay runs it ----------

  /** The answers a flush gets: for each row of the batch, to the publication and to the deletion. */
  datatype Answers = Answers(copies: nat, acknowledged: bool, gone: bool, answered: bool)

  predicate Possible(a: Answers) {
    (a.acknowledged ==> a.copies >= 1) && (a.answered ==> a.gone)
  }

  /** Publish and delete row after row until the batch is done or a call fails. */
  function Flush(r: Relay, answers: nat -> Answers, n: nat): Relay
    decreases |r.batch|
  {
    if r.batch == [] then r
    else
      var sent := Step(r, Publish(answers(n).copies, answers(n).acknowledged));
      var done := Step(sent, Delete(answers(n).gone, answers(n).answered));
      if |done.batch| >= |r.batch| then done else Flush(done, answers, n + 1)
  }

  class OutboxRelay {
    var table: seq<string>
    var log: seq<string>
    ghost var inserted: seq<string>

    ghost function View(): Relay reads this {
      Relay(inserted, table, log, [], false)
    }

    constructor ()
      ensures View() == START
    {
      table, log, inserted := [], [], [];
    }

    /** The insert of a settlement's transaction. */
    method InsertRow(row: string)
      requires row !in inserted
      modifies this
      ensures View() == Step(old(View()), Insert(row))
    {
      table, inserted := table + [row], inserted + [row];
    }

    method DeleteRow(row: string)
      modifies this`table
      ensures table == Without(old(table), row)
    {
      var left := [];
      var i := |table|;
      while i > 0
        invariant 0 <= i <= |table|
        invariant left == Without(table[i..], row)
      {
        i := i - 1;
        assert table[i..][1..] == table[i + 1..];
        left := if table[i] == row then left else [table[i]] + left;
      }
      assert table[0..] == table;
      table := left;
    }

    /** The batch ends at the first error; whatever is left waits for the next tick. */
    method FlushBatch(batch: seq<string>, answers: nat -> Answers)
      requires forall n :: Possible(answers(n))
      modifies this`table, this`log
      ensures var r := Flush(old(View()).(batch := batch), answers, 0);
              table == r.table && log == r.log
    {
      var i := 0;
      ghost var start := View().(batch := batch);
      assert batch[0..] == batch;
      while i < |batch|
        invariant 0 <= i <= |batch|
        invariant Flush(start, answers, 0) == Flush(Relay(inserted, table, log, batch[i..], false), answers, i)
      {
        ghost var now := Relay(inserted, table, log, batch[i..], false);
        assert Possible(answers(i));
        assert now.batch[0] == batch[i] && now.batch[1..] == batch[i + 1..];
        log := log + Copies(batch[i], answers(i).copies);
        if !answers(i).acknowledged {
          return;
        }
        if answers(i).gone {
          DeleteRow(batch[i]);
        }
        if !answers(i).answered {
          return;
        }
        i := i + 1;
      }
    }

    /** One tick. With nothing failing, the oldest min(100, n) of n rows are published and gone, and the rest stay. */
    method FlushOnce(listed: bool, answers: nat -> Answers)
      requires forall n :: Possible(answers(n))
      modifies this`table, this`log
      ensures var r := if listed then Flush(Step(old(View()), List), answers, 0) else old(View());
              table == r.table && log == r.log && inserted == r.inserted
      ensures listed && NothingFails(answers) && Distinct(old(table)) ==>
                var m := if |old(table)| < 100 then |old(table)| else 100;
                table == old(table)[m..] && forall i :: 0 <= i < m ==> old(table)[i] in log
    {
      if !listed {
        return;
      }
      if NothingFails(answers) && Distinct(table) {
        TickDelivers(View(), answers);
      }
      FlushInserts(Step(View(), List), answers, 0);
      FlushBatch(FirstRows(table), answers);
    }
  }

  lemma {:induction false} FlushInserts(r: Relay, answers: nat -> Answers, n: nat)
    ensures Flush(r, answers, n).inserted == r.inserted
    decreases |r.batch|
  {
    if r.batch != [] {
      var sent := Step(r, Publish(answers(n).copies, answers(n).acknowledged));
      var done := Step(sent, Delete(answers(n).gone, answers(n).answered));
      if |done.batch| < |r.batch| {
        FlushInserts(done, answers, n + 1);
      }
    }
  }

  /** A flush is a run of the machine, so it keeps what every run keeps. */
  lemma {:induction false} FlushKeepsGood(r: Relay, answers: nat -> Answers, n: nat)
    requires Good(r)
    ensures Good(Flush(r, answers, n))
    decreases |r.batch|
  {
    if r.batch != [] {
      var sent := Step(r, Publish(answers(n).copies, answers(n).acknowledged));
      var done := Step(sent, Delete(answers(n).gone, answers(n).answered));
      StepKeepsGood(r, Publish(answers(n).copies, answers(n).acknowledged));
      StepKeepsGood(sent, Delete(answers(n).gone, answers(n).answered));
      if |done.batch| < |r.batch| {
        FlushKeepsGood(done, answers, n + 1);
      }
    }
  }

  /** Every publication is acknowledged and every deletion answered. */
  ghost predicate NothingFails(answers: nat -> Answers) {
    forall k :: answers(k).acknowledged && answers(k).answered && Possible(answers(k))
  }

  /** One row published and deleted. */
  lemma RowDelivered(r: Relay, a: Answers)
    requires r.batch != [] && !r.published && r.batch <= r.table && Distinct(r.table)
    requires a.acknowledged && a.answered && Possible(a)
    ensures var next := Step(Step(r, Publish(a.copies, true)), Delete(a.gone, true));
            && next.table == r.table[1..] && next.batch == r.batch[1..] && !next.published
            && next.batch <= next.table && r.log <= next.log && r.batch[0] in next.log
  {
    var row := r.batch[0];
    assert row == r.table[0] && row !in r.table[1..];
    WithoutAbsent(r.table[1..], row);
    assert Copies(row, a.copies)[0] == row;
    assert r.batch[1..] <= r.table[1..];
  }

  /** A flush in which nothing fails publishes and deletes the whole batch, and leaves the rest alone. */
  lemma {:induction false} FlushEmptiesBatch(r: Relay, answers: nat -> Answers, n: nat)
    requires !r.published && r.batch <= r.table && Distinct(r.table) && NothingFails(answers)
    ensures var after := Flush(r, answers, n);
            && after.table == r.table[|r.batch|..] && r.log <= after.log && after.batch == []
            && forall row :: row in r.batch ==> row in after.log
    decreases |r.batch|
  {
    if r.batch != [] {
      assert Possible(answers(n)) && answers(n).acknowledged && answers(n).answered;
      RowDelivered(r, answers(n));
      var next := Step(Step(r, Publish(answers(n).copies, true)), Delete(answers(n).gone, true));
      FlushEmptiesBatch(next, answers, n + 1);
      assert r.batch == [r.batch[0]] + next.batch;
    }
  }

  /** One tick of the relay with nothing failing: of a table of n rows the oldest min(100, n) are gone, each of
      them is in the topic, and the others stay. */
  lemma TickDelivers(r: Relay, answers: nat -> Answers)
    requires r.batch == [] && Distinct(r.table) && NothingFails(answers)
    ensures var after := Flush(Step(r, List), answers, 0);
            var m := if |r.table| < 100 then |r.table| else 100;
            && after.table == r.table[m..]
            && forall i :: 0 <= i < m ==> r.table[i] in after.log
  {
    FlushEmptiesBatch(Step(r, List), answers, 0);
  }

  function Ticks(r: Relay, answers: nat -> Answers, k: nat): Relay {
    if k == 0 then r else Flush(Step(Ticks(r, answers, k - 1), List), answers, 0)
  }

  /** k such ticks leave max(0, n - 100 k) of n rows. */
  lemma {:induction false} TicksDrain(r: Relay, answers: nat -> Answers, k: nat)
    requires r.batch == [] && Distinct(r.table) && NothingFails(answers)
    ensures var after := Ticks(r, answers, k);
            && after.batch == [] && Distinct(after.table)
            && |after.table| == if |r.table| <= 100 * k then 0 else |r.table| - 100 * k
  {
    if k > 0 {
      TicksDrain(r, answers, k - 1);
      var before := Ticks(r, answers, k - 1);
      TickDelivers(before, answers);
      FlushEmptiesBatch(Step(before, List), answers, 0);
    }
  }

  // ---------- the settlement events of the platform ----------

  /** Let the insertions be those the payments made in any run of the platform. Then the topic shows, repeats
      collapsed, SETTLED payments only, each once, in the order of their settlement. */
  lemma SettlementEvents(run: seq<Platform.Label>, events: seq<Event>)
    requires Exec(events).inserted == Platform.Exec(run).w.repo.outbox
    ensures var log, r := Exec(events).log, Platform.Exec(run).w.repo;
            && Collapse(log) <= r.outbox && Distinct(Collapse(log))
            && forall id :: id in log ==>
                 id in r.rows && r.rows[id].status == P.Settled && Platform.Count(r.outbox, id) == 1
  {
    var log, r := Exec(events).log, Platform.Exec(run).w.repo;
    PublishedInOrder(events);
    RunIsGood(events);
    forall id | id in log
      ensures id in r.rows && r.rows[id].status == P.Settled && Platform.Count(r.outbox, id) == 1
    {
      CollapsedMember(log, id);
      OutboxIsStored(run, id);
      AllRuns.OneEventPerSettlement(run, id);
      CountMember(r.outbox, id);
    }
  }

  lemma OutboxIsStored(run: seq<Platform.Label>, id: string)
    requires id in Platform.Exec(run).w.repo.outbox
    ensures id in Platform.Exec(run).w.repo.rows && ClientId(id)
  {
    AllRuns.RunKeepsInv(run);
    assert Slices.TableSound(Platform.Exec(run).w, Slices.PaymentTable);
  }

  lemma {:induction false} CountMember(ids: seq<string>, id: string)
    requires id in ids
    ensures Platform.Count(ids, id) >= 1
  {
    if ids[|ids| - 1] != id {
      CountMember(ids[..|ids| - 1], id);
    }
  }
}
