/** The idempotency protocol of Initiate (saga.go) over the Redis claim (pkg/shared/idempotency/redis.go) and
    the unique key of the payment table: any number of callers with one key, each Redis or database call an
    atomic step, interleaved with expiry of the Redis key, the reconciler and crashes. */
module Idempotency {
  import opened Basics
  import P = Payments

  const PROCESSING := "PROCESSING"

  /** What becomes of a Redis call: it goes through, it is refused, or it takes effect but answers an error. */
  datatype Fate = Through | Refused | Unheard

  datatype Pc =
    | AtClaim(again: bool)        // SET NX
    | AtLook(again: bool)         // GET, the claim having failed
    | AtInput                     // the claim is ours
    | AtCreate
    | AtRelease(duplicate: bool)  // DEL after a failed creation
    | AtExisting                  // look up the row that was there first
    | AtSaga(id: string)
    | AtComplete(id: string)      // SET key id
    | AtKnown(value: string)      // Redis named a result
    | AtWait                      // somebody else is processing: poll
    | AtFallback                  // look the key up in the database
    | Returned(id: string)
    | Failed

  /** `cell` is the Redis value of the key, `rows` the payments stored under it, `sagas` the first attempts
      started for it, `callers` where each caller stands. */
  datatype State = State(cell: Option<string>, rows: seq<string>, sagas: seq<string>, callers: map<nat, Pc>)

  const START := State(None, [], [], map[])

  /** One step's circumstances: the Redis fate, whether the database answers, the generated id, the fate of the
      insert, whether the ids in the request parse, whether the wait is over. */
  datatype Turn = Turn(fate: Fate, answers: bool, newId: string, write: P.Write, validInput: bool, timeout: bool)

  datatype Label =
    | Call(caller: nat)
    | Step(caller: nat, turn: Turn)
    | Crash(caller: nat)
    | Expire
    | Reconciled(id: string)

  // ---------- Redis ----------

  function AfterClaim(cell: Option<string>, fate: Fate): Option<string> {
    if cell.None? && fate != Refused then Some(PROCESSING) else cell
  }

  predicate Claimed(cell: Option<string>, fate: Fate) {
    cell.None? && fate == Through
  }

  /** What a caller makes of the value it read. */
  function OnLook(cell: Option<string>, again: bool, fate: Fate): Pc {
    if fate != Through then Failed
    else match cell
      case None => if again then Failed else AtClaim(true)
      case Some(v) => if v == PROCESSING || v == "" then AtWait else AtKnown(v)
  }

  function OnPoll(cell: Option<string>, turn: Turn): Pc {
    if turn.timeout then AtFallback
    else if turn.fate != Through then Failed
    else match cell
      case None => AtFallback
      case Some(v) => if v == PROCESSING then AtWait else if ClientId(v) then AtKnown(v) else AtFallback
  }

  // ---------- the database ----------

  function ByKey(rows: seq<string>, answers: bool): Pc {
    if answers && rows != [] then Returned(rows[0]) else Failed
  }

  function OnKnown(rows: seq<string>, v: string, answers: bool): Pc {
    if ClientId(v) then (if answers && v in rows then Returned(v) else Failed) else ByKey(rows, answers)
  }

  /** The insert: the unique key refuses a second row; a torn insert leaves the row but answers an error. */
  function OnCreate(s: State, t: Turn): (State, Pc) {
    if s.rows != [] then (s, AtRelease(true))
    else match t.write
      case Lost => (s, AtRelease(false))
      case Torn => (s.(rows := s.rows + [t.newId]), AtRelease(false))
      case Done => (s.(rows := s.rows + [t.newId], sagas := s.sagas + [t.newId]), AtSaga(t.newId))
  }

  // ---------- the machine ----------

  function Move(s: State, pc: Pc, t: Turn): (State, Pc) {
    match pc
    case AtClaim(again) =>
      (s.(cell := AfterClaim(s.cell, t.fate)), if Claimed(s.cell, t.fate) then AtInput else AtLook(again))
    case AtLook(again) => (s, OnLook(s.cell, again, t.fate))
    case AtInput => (s, if t.validInput then AtCreate else AtRelease(false))
    case AtCreate => OnCreate(s, t)
    case AtRelease(duplicate) =>
      (if t.fate == Refused then s else s.(cell := None), if duplicate then AtExisting else Failed)
    case AtExisting => (s, if t.answers && s.rows != [] then AtComplete(s.rows[0]) else Failed)
    case AtSaga(id) => (s, AtComplete(id))
    case AtComplete(id) => (if t.fate == Refused then s else s.(cell := Some(id)), Returned(id))
    case AtKnown(v) => (s, OnKnown(s.rows, v, t.answers))
    case AtWait => (s, OnPoll(s.cell, t))
    case AtFallback => (s, ByKey(s.rows, t.answers))
    case Returned(_) => (s, pc)
    case Failed => (s, pc)
  }

  /** Generated payment ids are UUID strings; the reconciler completes with the id of a stored row. */
  predicate Enabled(s: State, l: Label) {
    match l
    case Call(i) => i !in s.callers
    case Step(i, t) => i in s.callers && ClientId(t.newId)
    case Crash(i) => i in s.callers
    case Expire => true
    case Reconciled(id) => id in s.rows
  }

  function Next(s: State, l: Label): State {
    if !Enabled(s, l) then s
    else match l
      case Call(i) => s.(callers := s.callers[i := AtClaim(false)])
      case Step(i, t) =>
        var (after, pc) := Move(s, s.callers[i], t);
        after.(callers := s.callers[i := pc])
      case Crash(i) => s.(callers := s.callers - {i})
      case Expire => s.(cell := None)
      case Reconciled(id) => s.(cell := Some(id))
  }

  function Exec(run: seq<Label>): State {
    if run == [] then START else Next(Exec(run[..|run| - 1]), run[|run| - 1])
  }

  // ---------- agreement ----------

  /** A payment id somebody holds is the one that is stored. */
  predicate Agrees(rows: seq<string>, pc: Pc) {
    match pc
    case AtSaga(id) => rows == [id]
    case AtComplete(id) => rows == [id]
    case AtKnown(v) => rows == [v]
    case Returned(id) => rows == [id]
    case _ => true
  }

  ghost predicate Inv(s: State) {
    && |s.rows| <= 1 && (forall id :: id in s.rows ==> ClientId(id))
    && (s.sagas == [] || s.sagas == s.rows)
    && (s.cell.Some? && s.cell.value != PROCESSING ==> s.rows == [s.cell.value])
    && (forall i :: i in s.callers ==> Agrees(s.rows, s.callers[i]))
  }

  lemma MoveKeepsAgreement(s: State, pc: Pc, t: Turn)
    requires Inv(s) && Agrees(s.rows, pc) && ClientId(t.newId)
    ensures var (after, next) := Move(s, pc, t);
            && |after.rows| <= 1 && (after.rows == s.rows || (after.rows == [t.newId] && s.rows == []))
            && (after.sagas == [] || after.sagas == after.rows)
            && (after.cell.Some? && after.cell.value != PROCESSING ==> after.rows == [after.cell.value])
            && Agrees(after.rows, next)
  {
  }

  lemma NextKeepsInv(s: State, l: Label)
    requires Inv(s)
    ensures Inv(Next(s, l))
  {
    if Enabled(s, l) && l.Step? {
      MoveKeepsAgreement(s, s.callers[l.caller], l.turn);
    }
  }

  lemma {:induction false} RunKeepsInv(run: seq<Label>)
    ensures Inv(Exec(run))
  {
    if run != [] {
      RunKeepsInv(run[..|run| - 1]);
      NextKeepsInv(Exec(run[..|run| - 1]), run[|run| - 1]);
    }
  }

  /** Over every interleaving of any number of callers, with the Redis key expiring at any time, Redis and
      database errors, crashes and reconciler completions: at most one payment row and one first-attempt
      saga exist for the key, and every call that returns a payment returns that same id. */
  lemma Agreement(run: seq<Label>, i: nat, j: nat)
    ensures var s := Exec(run);
            && |s.rows| <= 1 && |s.sagas| <= 1 && s.sagas <= s.rows
            && (i in s.callers && s.callers[i].Returned? ==> s.rows == [s.callers[i].id])
            && (i in s.callers && j in s.callers && s.callers[i].Returned? && s.callers[j].Returned? ==>
                  s.callers[i] == s.callers[j])
  {
    RunKeepsInv(run);
  }

  /** The row, once stored, is the row for good: what one call returned, every later call returns too. */
  lemma {:induction false} RowStays(run: seq<Label>, more: seq<Label>)
    requires Exec(run).rows != []
    ensures Exec(run + more).rows == Exec(run).rows
  {
    if more == [] {
      assert run + more == run;
    } else {
      var front := more[..|more| - 1];
      RowStays(run, front);
      assert (run + more)[..|run + more| - 1] == run + front;
      RunKeepsInv(run + front);
      var s, l := Exec(run + front), more[|more| - 1];
      if Enabled(s, l) && l.Step? {
        MoveKeepsAgreement(s, s.callers[l.caller], l.turn);
      }
    }
  }

  /** The Redis claim alone is no mutual exclusion: whenever a caller owns the claim, an expiry lets a second one own
      it as well. It is the unique key of the payment table that decides. */
  lemma ClaimIsNotExclusive(run: seq<Label>, i: nat, j: nat, t: Turn)
    requires i in Exec(run).callers && Exec(run).callers[i].AtInput? && j !in Exec(run).callers
    requires t.fate == Through && ClientId(t.newId)
    ensures var s := Next(Next(Next(Exec(run), Expire), Call(j)), Step(j, t));
            i in s.callers && j in s.callers && s.callers[i] == AtInput && s.callers[j] == AtInput
  {
    var s := Next(Next(Exec(run), Expire), Call(j));
    assert s.cell == None && s.callers[j] == AtClaim(false);
  }

  // ---------- progress ----------

  /** A caller left alone: its first `n` steps, nobody else moving. */
  function Alone(s: State, pc: Pc, turns: nat -> Turn, n: nat): (State, Pc) {
    if n == 0 then (s, pc)
    else
      var (t, q) := Alone(s, pc, turns, n - 1);
      Move(t, q, turns(n - 1))
  }

  function Solo(i: nat, turns: nat -> Turn, n: nat): seq<Label> {
    if n == 0 then [] else Solo(i, turns, n - 1) + [Step(i, turns(n - 1))]
  }

  /** Every call is answered, the request is well formed and the insert, if it comes to that, succeeds. */
  ghost predicate Answered(turns: nat -> Turn) {
    forall n :: AnsweredTurn(turns(n)) && turns(n).validInput
  }

  predicate AnsweredTurn(t: Turn) {
    t.fate == Through && t.answers && t.write == P.Done && ClientId(t.newId)
  }

  lemma MoveLeavesCallers(s: State, pc: Pc, t: Turn, callers: map<nat, Pc>)
    ensures var (after, next) := Move(s, pc, t);
            after.callers == s.callers && Move(s.(callers := callers), pc, t) == (after.(callers := callers), next)
  {
  }

  /** In a run: a new caller followed by its own steps only. */
  lemma {:induction false} SoloIsAlone(run: seq<Label>, i: nat, turns: nat -> Turn, n: nat)
    requires i !in Exec(run).callers && forall k :: ClientId(turns(k).newId)
    ensures var (core, pc) := Alone(Exec(run), AtClaim(false), turns, n);
            && core.callers == Exec(run).callers
            && Exec(run + [Call(i)] + Solo(i, turns, n)) == core.(callers := core.callers[i := pc])
  {
    if n == 0 {
      Extend(run, Call(i));
      assert run + [Call(i)] + Solo(i, turns, 0) == run + [Call(i)];
    } else {
      SoloIsAlone(run, i, turns, n - 1);
      var before := run + [Call(i)] + Solo(i, turns, n - 1);
      var (core, pc) := Alone(Exec(run), AtClaim(false), turns, n - 1);
      Extend(before, Step(i, turns(n - 1)));
      assert run + [Call(i)] + Solo(i, turns, n) == before + [Step(i, turns(n - 1))];
      MoveLeavesCallers(core, pc, turns(n - 1), core.callers[i := pc]);
    }
  }

  lemma Extend(run: seq<Label>, l: Label)
    ensures Exec(run + [l]) == Next(Exec(run), l)
  {
    assert (run + [l])[..|run|] == run;
  }

  /** A call that has returned or failed is over. */
  lemma {:induction false} StaysOver(s: State, pc: Pc, turns: nat -> Turn, k: nat, n: nat)
    requires k <= n && (Alone(s, pc, turns, k).1.Returned? || Alone(s, pc, turns, k).1.Failed?)
    ensures Alone(s, pc, turns, n) == Alone(s, pc, turns, k)
  {
    if k < n {
      StaysOver(s, pc, turns, k, n - 1);
    }
  }

  /** Behind somebody else's claim: the caller polls until its patience ends, then asks the database. */
  lemma {:induction false} Waits(s: State, pc: Pc, turns: nat -> Turn, k: nat, n: nat)
    requires Answered(turns) && k <= n && s.cell == Some(PROCESSING) && Alone(s, pc, turns, k) == (s, AtWait)
    ensures var (t, q) := Alone(s, pc, turns, n);
            && t == s && (q == AtWait || q == AtFallback || q == ByKey(s.rows, true))
            && (q == AtWait ==> forall m :: k <= m < n ==> !turns(m).timeout)
            && (q == AtFallback ==> k < n && forall m :: k <= m < n - 1 ==> !turns(m).timeout)
  {
    if k < n {
      Waits(s, pc, turns, k, n - 1);
      assert AnsweredTurn(turns(n - 1));
    }
  }

  lemma WaitEnds(s: State, turns: nat -> Turn, patience: nat, n: nat)
    requires Answered(turns) && s.cell == Some(PROCESSING) && 2 <= patience && turns(patience).timeout
    requires patience + 2 <= n
    ensures Alone(s, AtClaim(false), turns, n) == (s, ByKey(s.rows, true))
  {
    assert AnsweredTurn(turns(0)) && AnsweredTurn(turns(1));
    assert Alone(s, AtClaim(false), turns, 1) == (s, AtLook(false));
    assert Alone(s, AtClaim(false), turns, 2) == (s, AtWait);
    Waits(s, AtClaim(false), turns, 2, n);
  }

  /** On a free key whose payment is stored already: the insert is refused, and the stored payment is the answer. */
  lemma FreeKeyReturnsStored(s: State, turns: nat -> Turn, n: nat)
    requires Answered(turns) && s.cell.None? && s.rows != [] && 6 <= n
    ensures Alone(s, AtClaim(false), turns, n) == (s.(cell := Some(s.rows[0])), Returned(s.rows[0]))
  {
    var x, claimed := s.rows[0], s.(cell := Some(PROCESSING));
    assert AnsweredTurn(turns(0)) && AnsweredTurn(turns(1)) && AnsweredTurn(turns(2)) && AnsweredTurn(turns(3));
    assert AnsweredTurn(turns(4)) && AnsweredTurn(turns(5));
    assert Alone(s, AtClaim(false), turns, 1) == (claimed, AtInput);
    assert Alone(s, AtClaim(false), turns, 2) == (claimed, AtCreate);
    assert Alone(s, AtClaim(false), turns, 3) == (claimed, AtRelease(true));
    assert Alone(s, AtClaim(false), turns, 4) == (s, AtExisting);
    assert Alone(s, AtClaim(false), turns, 5) == (s, AtComplete(x));
    assert Alone(s, AtClaim(false), turns, 6) == (s.(cell := Some(x)), Returned(x));
    StaysOver(s, AtClaim(false), turns, 6, n);
  }

  lemma DoneKeyReturnsStored(s: State, turns: nat -> Turn, n: nat)
    requires Answered(turns) && Inv(s) && s.cell.Some? && s.cell.value != PROCESSING && 3 <= n
    ensures Alone(s, AtClaim(false), turns, n) == (s, Returned(s.cell.value))
  {
    assert AnsweredTurn(turns(0)) && AnsweredTurn(turns(1)) && AnsweredTurn(turns(2));
    assert s.cell.value in s.rows;
    assert Alone(s, AtClaim(false), turns, 1) == (s, AtLook(false));
    assert Alone(s, AtClaim(false), turns, 2) == (s, AtKnown(s.cell.value));
    assert Alone(s, AtClaim(false), turns, 3) == (s, Returned(s.cell.value));
    StaysOver(s, AtClaim(false), turns, 3, n);
  }

  /** From any state of any run in which the key's payment is stored -- whether Redis still names it, has
      forgotten it or shows somebody processing -- a new call whose own calls are answered returns that
      payment, once its patience has ended, and stores nothing. */
  lemma StoredIsReturned(run: seq<Label>, i: nat, turns: nat -> Turn, patience: nat, n: nat)
    requires Exec(run).rows != [] && i !in Exec(run).callers && Answered(turns)
    requires 4 <= patience && turns(patience).timeout && patience + 2 <= n
    ensures var s, after := Exec(run), Exec(run + [Call(i)] + Solo(i, turns, n));
            && i in after.callers && after.callers[i] == Returned(s.rows[0])
            && after.rows == s.rows && after.sagas == s.sagas
  {
    var s := Exec(run);
    RunKeepsInv(run);
    forall k ensures ClientId(turns(k).newId) {
      assert AnsweredTurn(turns(k));
    }
    SoloIsAlone(run, i, turns, n);
    if s.cell.None? {
      FreeKeyReturnsStored(s, turns, n);
    } else if s.cell == Some(PROCESSING) {
      WaitEnds(s, turns, patience, n);
    } else {
      DoneKeyReturnsStored(s, turns, n);
    }
  }

  /** On a free key with nothing stored: the payment is stored, its saga runs once, the key names it, and it is
      returned. */
  lemma FreshIsStored(run: seq<Label>, i: nat, turns: nat -> Turn, n: nat)
    requires Exec(run).rows == [] && Exec(run).cell.None? && i !in Exec(run).callers && Answered(turns) && 5 <= n
    ensures var after, id := Exec(run + [Call(i)] + Solo(i, turns, n)), turns(2).newId;
            && i in after.callers && after.callers[i] == Returned(id)
            && after.rows == [id] && after.sagas == Exec(run).sagas + [id] && after.cell == Some(id)
  {
    var s, id := Exec(run), turns(2).newId;
    forall k ensures ClientId(turns(k).newId) {
      assert AnsweredTurn(turns(k));
    }
    SoloIsAlone(run, i, turns, n);
    FreshAlone(s, turns, n);
  }

  lemma FreshAlone(s: State, turns: nat -> Turn, n: nat)
    requires s.rows == [] && s.cell.None? && Answered(turns) && 5 <= n
    ensures var id := turns(2).newId;
            Alone(s, AtClaim(false), turns, n) ==
              (s.(cell := Some(id), rows := [id], sagas := s.sagas + [id]), Returned(id))
  {
    var id, claimed := turns(2).newId, s.(cell := Some(PROCESSING));
    var stored := claimed.(rows := [id], sagas := s.sagas + [id]);
    assert AnsweredTurn(turns(0)) && AnsweredTurn(turns(1)) && AnsweredTurn(turns(2)) && AnsweredTurn(turns(3));
    assert AnsweredTurn(turns(4));
    assert Alone(s, AtClaim(false), turns, 1) == (claimed, AtInput);
    assert Alone(s, AtClaim(false), turns, 2) == (claimed, AtCreate);
    assert s.rows + [id] == [id];
    assert Alone(s, AtClaim(false), turns, 3) == (stored, AtSaga(id));
    assert Alone(s, AtClaim(false), turns, 4) == (stored, AtComplete(id));
    assert Alone(s, AtClaim(false), turns, 5) == (stored.(cell := Some(id)), Returned(id));
    StaysOver(s, AtClaim(false), turns, 5, n);
  }

  /** A waiting call keeps waiting as long as the key shows PROCESSING and its patience lasts; ... */
  lemma {:induction false} KeepsWaiting(s: State, turns: nat -> Turn, n: nat)
    requires s.cell == Some(PROCESSING) && Answered(turns) && forall k :: 0 <= k < n ==> !turns(k).timeout
    ensures Alone(s, AtWait, turns, n) == (s, AtWait)
  {
    if n > 0 {
      KeepsWaiting(s, turns, n - 1);
      assert AnsweredTurn(turns(n - 1));
    }
  }

  /** ... and when the payment it waits for is completed, by its worker or by the reconciler, it returns that. */
  lemma WaiterIsServed(s: State, id: string, turns: nat -> Turn, n: nat)
    requires Inv(s) && s.rows == [id] && Answered(turns) && 2 <= n
    ensures Alone(s.(cell := Some(id)), AtWait, turns, n) == (s.(cell := Some(id)), Returned(id))
  {
    var done := s.(cell := Some(id));
    assert AnsweredTurn(turns(0)) && AnsweredTurn(turns(1)) && id in s.rows;
    assert ClientId(id) && |PROCESSING| != 36;
    assert Alone(done, AtWait, turns, 0) == (done, AtWait);
    var (first, pc) := Alone(done, AtWait, turns, 1);
    assert first == done && pc == if turns(0).timeout then AtFallback else AtKnown(id);
    assert OnKnown(done.rows, id, true) == ByKey(done.rows, true) == Returned(id);
    assert Alone(done, AtWait, turns, 2) == Move(done, pc, turns(1));
    assert Alone(done, AtWait, turns, 2) == (done, Returned(id));
    StaysOver(done, AtWait, turns, 2, n);
  }

  /** While somebody else is processing and nothing is stored, a call ends in a conflict and changes nothing. */
  lemma BusyIsConflict(s: State, turns: nat -> Turn, patience: nat, n: nat)
    requires s.rows == [] && s.cell == Some(PROCESSING) && Answered(turns)
    requires 2 <= patience && turns(patience).timeout && patience + 2 <= n
    ensures Alone(s, AtClaim(false), turns, n) == (s, Failed)
  {
    WaitEnds(s, turns, patience, n);
  }

  /** A malformed request gives its claim back. */
  lemma MalformedGivesBack(s: State, turns: nat -> Turn, n: nat)
    requires s.cell.None? && (forall k :: AnsweredTurn(turns(k))) && !turns(1).validInput && 3 <= n
    ensures Alone(s, AtClaim(false), turns, n) == (s, Failed)
  {
    var claimed := s.(cell := Some(PROCESSING));
    assert AnsweredTurn(turns(0)) && AnsweredTurn(turns(1)) && AnsweredTurn(turns(2));
    assert Alone(s, AtClaim(false), turns, 1) == (claimed, AtInput);
    assert Alone(s, AtClaim(false), turns, 2) == (claimed, AtRelease(false));
    assert Alone(s, AtClaim(false), turns, 3) == (s, Failed);
    StaysOver(s, AtClaim(false), turns, 3, n);
  }

  // ---------- the store itself ----------

  /** Begin, undisturbed by other callers: what becomes of the cell, and where the caller goes. */
  function Begun(cell: Option<string>, fates: nat -> Fate): (Option<string>, Pc) {
    var first := AfterClaim(cell, fates(0));
    if Claimed(cell, fates(0)) then (first, AtInput)
    else
      var pc := OnLook(first, false, fates(1));
      if !pc.AtClaim? then (first, pc)
      else
        var second := AfterClaim(first, fates(2));
        (second, if Claimed(first, fates(2)) then AtInput else OnLook(second, true, fates(3)))
  }

  /** The steps of a caller that is claiming, nobody else moving: at most four of them. */
  function Claiming(s: State, pc: Pc, turns: nat -> Turn, n: nat): (State, Pc)
    decreases 4 - n
  {
    if n >= 4 || (!pc.AtClaim? && !pc.AtLook?) then (s, pc)
    else
      var (after, next) := Move(s, pc, turns(n));
      Claiming(after, next, turns, n + 1)
  }

  /** Begin is the machine undisturbed: from its first step on, a caller alone ends where Begun says, with the claim
      or past it, and only the cell has changed. */
  lemma BeginIsTheMachine(s: State, turns: nat -> Turn, fates: nat -> Fate)
    requires forall n :: fates(n) == turns(n).fate
    ensures var (cell, pc) := Begun(s.cell, fates);
            && Claiming(s, AtClaim(false), turns, 0) == (s.(cell := cell), pc)
            && !pc.AtClaim? && !pc.AtLook?
  {
    var (s1, p1) := Move(s, AtClaim(false), turns(0));
    assert Claiming(s, AtClaim(false), turns, 0) == Claiming(s1, p1, turns, 1);
    if p1.AtLook? {
      var (s2, p2) := Move(s1, p1, turns(1));
      assert Claiming(s1, p1, turns, 1) == Claiming(s2, p2, turns, 2);
      if p2.AtClaim? {
        var (s3, p3) := Move(s2, p2, turns(2));
        assert Claiming(s2, p2, turns, 2) == Claiming(s3, p3, turns, 3);
      }
    }
  }

  /** With no call failing, exactly the first caller gets the claim. */
  lemma BeginDecides(cell: Option<string>, fates: nat -> Fate)
    requires forall n :: fates(n) == Through
    ensures Begun(cell, fates) ==
              if cell.None? then (Some(PROCESSING), AtInput)
              else (cell, if cell.value == PROCESSING || cell.value == "" then AtWait else AtKnown(cell.value))
  {
  }

  /** A claim that was not obtained and a key that cannot be read are an error. */
  lemma BeginFails(cell: Option<string>, fates: nat -> Fate)
    requires (cell.Some? || fates(0) != Through) && fates(1) != Through
    ensures Begun(cell, fates).1 == Failed
  {
  }

  class Store {
    var cells: map<string, string>

    constructor ()
      ensures cells == map[]
    {
      cells := map[];
    }

    function Cell(k: string): Option<string> reads this {
      if k in cells then Some(cells[k]) else None
    }

    method Claim(k: string, fate: Fate) returns (ok: bool)
      modifies this
      ensures Cell(k) == AfterClaim(old(Cell(k)), fate) && ok == Claimed(old(Cell(k)), fate)
      ensures cells - {k} == old(cells) - {k}
    {
      ok := k !in cells && fate == Through;
      if k !in cells && fate != Refused {
        cells := cells[k := PROCESSING];
      }
    }

    /** `pc` is what Initiate does next. */
    method Begin(k: string, fates: nat -> Fate) returns (pc: Pc)
      modifies this
      ensures (Cell(k), pc) == Begun(old(Cell(k)), fates)
      ensures cells - {k} == old(cells) - {k}
    {
      var ok := Claim(k, fates(0));
      if ok {
        return AtInput;
      }
      if fates(1) == Through && k !in cells {
        ok := Claim(k, fates(2));
        if ok {
          return AtInput;
        }
        if fates(3) != Through || k !in cells {
          return Failed;
        }
      } else if fates(1) != Through {
        return Failed;
      }
      pc := if cells[k] == PROCESSING || cells[k] == "" then AtWait else AtKnown(cells[k]);
    }

    method Complete(k: string, value: string, fate: Fate)
      modifies this
      ensures cells == if fate == Refused then old(cells) else old(cells)[k := value]
    {
      if fate != Refused {
        cells := cells[k := value];
      }
    }

    method Release(k: string, fate: Fate)
      modifies this
      ensures cells == if fate == Refused then old(cells) else old(cells) - {k}
    {
      if fate != Refused {
        cells := cells - {k};
      }
    }
  }

  // ---------- the polling loop ----------

  /** What GET answers to one poll. */
  datatype Reply = Error | Nil | Value(value: string)

  datatype Waited = Completed(value: string) | GaveUp | Broken

  function WaitFrom(polls: seq<Reply>, i: nat): Waited
    requires i <= |polls|
    decreases |polls| - i
  {
    if i == |polls| then GaveUp
    else match polls[i]
      case Error => Broken
      case Nil => GaveUp
      case Value(v) => if v == PROCESSING then WaitFrom(polls, i + 1) else Completed(v)
  }

  /** The first answer that is not PROCESSING. */
  predicate FirstNews(polls: seq<Reply>, k: int) {
    && 0 <= k < |polls| && polls[k] != Value(PROCESSING)
    && forall i :: 0 <= i < k ==> polls[i] == Value(PROCESSING)
  }

  /** WaitForCompletion: `polls` are the answers until the deadline. A value is reported only if it was read after
      nothing but PROCESSING. */
  method WaitForCompletion(polls: seq<Reply>) returns (r: Waited)
    ensures r == WaitFrom(polls, 0)
    ensures r.Completed? ==> Value(r.value) in polls && r.value != PROCESSING
    ensures (forall k :: 0 <= k < |polls| ==> polls[k] == Value(PROCESSING)) ==> r == GaveUp
    ensures forall k :: FirstNews(polls, k) ==>
              r == (match polls[k] case Error => Broken case Nil => GaveUp case Value(v) => Completed(v))
  {
    var i := 0;
    while i < |polls|
      invariant 0 <= i <= |polls|
      invariant WaitFrom(polls, 0) == WaitFrom(polls, i)
      invariant forall k :: 0 <= k < i ==> polls[k] == Value(PROCESSING)
    {
      match polls[i] {
        case Error => return Broken;
        case Nil => return GaveUp;
        case Value(v) =>
          if v != PROCESSING {
            return Completed(v);
          }
      }
      i := i + 1;
    }
    r := GaveUp;
  }
}
