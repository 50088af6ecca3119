/** Risk scoring (risk-svc, rules.go): the blocklist and high-value rules, the per-consumer velocity window,
    and the merge of the rule results. */
module Velocity {
  import opened Basics

  const MAX_SCORE := 100
  const WINDOW := 60
  const THRESHOLD := 5
  const VELOCITY_DELTA := 40
  const HIGH_VALUE_PENCE := 50_000
  const HIGH_VALUE_DELTA := 30
  const BLOCKLIST_DELTA := 100

  const EXCEEDED := "VELOCITY_EXCEEDED"

  datatype Decision = Allow | Review | Decline

  datatype RuleResult = RuleResult(delta: int, decision: Decision, name: string)

  datatype Score = Score(score: int, decision: Decision, triggered: seq<string>)

  const PASS := RuleResult(0, Allow, "")

  // ---------- merging ----------

  function Severity(d: Decision): int {
    match d case Decline => 3 case Review => 2 case Allow => 1
  }

  function DeltaSum(results: seq<RuleResult>): int {
    if results == [] then 0 else DeltaSum(results[..|results| - 1]) + results[|results| - 1].delta
  }

  function Worst(results: seq<RuleResult>): Decision {
    if results == [] then Allow
    else
      var before, last := Worst(results[..|results| - 1]), results[|results| - 1].decision;
      if Severity(last) > Severity(before) then last else before
  }

  function Names(results: seq<RuleResult>): seq<string> {
    if results == [] then []
    else
      var last := results[|results| - 1].name;
      Names(results[..|results| - 1]) + (if last != "" then [last] else [])
  }

  function Cap(score: int): int {
    if score > MAX_SCORE then MAX_SCORE else if score < 0 then 0 else score
  }

  function Merge(results: seq<RuleResult>): Score {
    Score(Cap(DeltaSum(results)), Worst(results), Names(results))
  }

  /** The loop of mergeResults; a result that says nothing is skipped. */
  method MergeResults(results: seq<RuleResult>) returns (out: Score)
    ensures out == Merge(results)
  {
    var score, decision, triggered := 0, Allow, [];
    var i := 0;
    while i < |results|
      invariant 0 <= i <= |results|
      invariant score == DeltaSum(results[..i]) && decision == Worst(results[..i]) && triggered == Names(results[..i])
    {
      var r := results[i];
      assert results[..i + 1][..i] == results[..i];
      i := i + 1;
      if r.decision == Allow && r.delta == 0 && r.name == "" {
        continue;
      }
      score := score + r.delta;
      if r.name != "" {
        triggered := triggered + [r.name];
      }
      if Severity(r.decision) > Severity(decision) {
        decision := r.decision;
      }
    }
    assert results[..i] == results;
    if score > MAX_SCORE {
      score := MAX_SCORE;
    }
    if score < 0 {
      score := 0;
    }
    out := Score(score, decision, triggered);
  }

  /** The merged decision is the worst one given, whatever the order. */
  lemma {:induction false} WorstIsWorst(results: seq<RuleResult>, r: RuleResult)
    requires r in results
    ensures Severity(r.decision) <= Severity(Worst(results))
    ensures Worst(results) == Allow || exists q :: q in results && q.decision == Worst(results)
  {
    var front, last := results[..|results| - 1], results[|results| - 1];
    assert last in results;
    if front != [] {
      WorstIsWorst(front, if r in front then r else front[0]);
      assert forall q :: q in front ==> q in results;
    }
  }

  // ---------- the velocity window ----------

  /** The counter of a consumer; a counter whose expiry was never set lives on. */
  datatype Counter = Counter(count: nat, expires: Option<int>)

  type Counters = map<string, Counter>

  predicate Alive(c: Counter, now: int) {
    c.expires.Some? ==> now < c.expires.value
  }

  function CountOf(counters: Counters, consumer: string, now: int): nat {
    if consumer in counters && Alive(counters[consumer], now) then counters[consumer].count else 0
  }

  /** What becomes of the increment and of the expiry; an increment that answers an error may have happened. */
  datatype Fate = Counted(expirySet: bool) | NotCounted | CountedUnheard

  /** INCR, then EXPIRE when the count is one. None is an error of the rule. */
  function Evaluate(counters: Counters, consumer: string, now: int, fate: Fate): (Counters, Option<RuleResult>) {
    if consumer == "" then (counters, Some(PASS))
    else if fate == NotCounted then (counters, None)
    else
      var n := CountOf(counters, consumer, now) + 1;
      var expirySet := fate.Counted? && fate.expirySet;
      var kept := if n == 1 then None else counters[consumer].expires;
      var after := counters[consumer := Counter(n, if n == 1 && expirySet then Some(now + WINDOW) else kept)];
      if fate.CountedUnheard? || (n == 1 && !expirySet) then (after, None)
      else (after, Some(if n > THRESHOLD then RuleResult(VELOCITY_DELTA, Review, EXCEEDED) else PASS))
  }

  // ---------- the engine ----------

  datatype Request = Request(consumer: string, merchant: string, ip: string, amount: int)

  type Blocklist = set<(string, string)>

  const BLOCKED := RuleResult(BLOCKLIST_DELTA, Decline, "BLOCKLIST")

  function Parties(r: Request): seq<(string, string)> {
    [("consumer", r.consumer), ("merchant", r.merchant), ("ip", r.ip)]
  }

  /** The parties from the `i`-th on, in order, skipping absent ones; the first lookup that fails is an error
      of the rule (None), the first party found declines. */
  function Lookups(blocked: Blocklist, parties: seq<(string, string)>, i: nat,
                   answered: nat -> bool): Option<RuleResult>
    requires i <= |parties|
    decreases |parties| - i
  {
    if i == |parties| then Some(PASS)
    else if parties[i].1 == "" then Lookups(blocked, parties, i + 1, answered)
    else if !answered(i) then None
    else if parties[i] in blocked then Some(BLOCKED)
    else Lookups(blocked, parties, i + 1, answered)
  }

  method EvaluateBlocklist(blocked: Blocklist, r: Request, answered: nat -> bool) returns (result: Option<RuleResult>)
    ensures result == Lookups(blocked, Parties(r), 0, answered)
    ensures result == Some(BLOCKED) ==> exists p :: p in Parties(r) && p.1 != "" && p in blocked
    ensures result == Some(PASS) ==> forall p :: p in Parties(r) && p.1 != "" ==> p !in blocked
  {
    var parties := Parties(r);
    for i := 0 to |parties|
      invariant Lookups(blocked, parties, 0, answered) == Lookups(blocked, parties, i, answered)
      invariant forall k :: 0 <= k < i && parties[k].1 != "" ==> parties[k] !in blocked
    {
      if parties[i].1 == "" {
        continue;
      }
      if !answered(i) {
        return None;
      }
      if parties[i] in blocked {
        assert parties[i] in Parties(r);
        return Some(BLOCKED);
      }
    }
    result := Some(PASS);
  }

  function HighValueRule(r: Request): RuleResult {
    if r.amount > HIGH_VALUE_PENCE then RuleResult(HIGH_VALUE_DELTA, Review, "HIGH_VALUE") else PASS
  }

  function Keep(results: seq<RuleResult>, r: RuleResult): seq<RuleResult> {
    if r == PASS then results else results + [r]
  }

  /** A call of the engine with what the store answers to it. */
  datatype Call = Call(now: int, request: Request, blocked: Blocklist, answered: nat -> bool, fate: Fate)

  function BeforeVelocity(c: Call): Option<seq<RuleResult>> {
    match Lookups(c.blocked, Parties(c.request), 0, c.answered)
    case None => None
    case Some(r) => Some(Keep(Keep([], r), HighValueRule(c.request)))
  }

  /** The engine's answer, and its counters, from the answers of the rules. */
  function Decide(counters: Counters, counted: Counters, before: Option<seq<RuleResult>>, velocity: Option<RuleResult>):
    (Counters, Option<Score>)
  {
    if before.None? then (counters, None)
    else if Worst(before.value) == Decline then (counters, Some(Merge(before.value)))
    else (counted, if velocity.None? then None else Some(Merge(Keep(before.value, velocity.value))))
  }

  /** Velocity is evaluated only if the other rules do not decline. None is an error. */
  function Scored(counters: Counters, c: Call): (Counters, Option<Score>) {
    var (counted, velocity) := Evaluate(counters, c.request.consumer, c.now, c.fate);
    Decide(counters, counted, BeforeVelocity(c), velocity)
  }

  class Engine {
    var counters: Counters

    constructor ()
      ensures counters == map[]
    {
      counters := map[];
    }

    method EvaluateVelocity(consumer: string, now: int, fate: Fate) returns (result: Option<RuleResult>)
      modifies this
      ensures (counters, result) == Evaluate(old(counters), consumer, now, fate)
    {
      if consumer == "" {
        return Some(PASS);
      }
      if fate == NotCounted {
        return None;
      }
      var n := CountOf(counters, consumer, now) + 1;
      counters := counters[consumer := Counter(n, if n == 1 then None else counters[consumer].expires)];
      if fate.CountedUnheard? {
        return None;
      }
      if n == 1 {
        if !fate.expirySet {
          return None;
        }
        counters := counters[consumer := Counter(n, Some(now + WINDOW))];
        assert counters == old(counters)[consumer := Counter(n, Some(now + WINDOW))];
      }
      result := Some(if n > THRESHOLD then RuleResult(VELOCITY_DELTA, Review, EXCEEDED) else PASS);
    }

    method ScorePayment(c: Call) returns (result: Option<Score>)
      modifies this
      ensures (counters, result) == Scored(old(counters), c)
    {
      var results := [];
      var blocklist := EvaluateBlocklist(c.blocked, c.request, c.answered);
      if blocklist.None? {
        return None;
      }
      var pre := [blocklist.value, HighValueRule(c.request)];
      for i := 0 to |pre|
        invariant results ==
                  (if i == 0 then [] else if i == 1 then Keep([], pre[0]) else Keep(Keep([], pre[0]), pre[1]))
      {
        if pre[i] != PASS {
          results := results + [pre[i]];
        }
      }
      var merged := MergeResults(results);
      if merged.decision != Decline {
        var velocity := EvaluateVelocity(c.request.consumer, c.now, c.fate);
        if velocity.None? {
          return None;
        }
        if velocity.value != PASS {
          results := results + [velocity.value];
          merged := MergeResults(results);
        }
      }
      result := Some(merged);
    }
  }

  // ---------- what every timed sequence of calls keeps ----------

  /** A declined score never moves a counter; a score is declined exactly if a party is blocklisted, and an
      answered score is between 0 and 100. */
  lemma DeclinedIsNotCounted(counters: Counters, c: Call)
    ensures var (after, score) := Scored(counters, c);
            && (score.Some? ==> 0 <= score.value.score <= MAX_SCORE)
            && (score.Some? && score.value.decision == Decline ==> after == counters && score.value.score == MAX_SCORE)
            && (score.Some? ==>
                  (score.value.decision == Decline <==>
                  Lookups(c.blocked, Parties(c.request), 0, c.answered) == Some(BLOCKED)))
  {
    ScoredIsDecided(counters, c);
  }

  /** The three rules' answers are all there is to know about a call. */
  lemma ScoredIsDecided(counters: Counters, c: Call)
    ensures var (counted, velocity) := Evaluate(counters, c.request.consumer, c.now, c.fate);
            var b := Lookups(c.blocked, Parties(c.request), 0, c.answered);
            && b in {None, Some(PASS), Some(BLOCKED)}
            && Decided(counters, counted, Scored(counters, c), b, velocity, EXCEEDED)
  {
    var (counted, velocity) := Evaluate(counters, c.request.consumer, c.now, c.fate);
    LookupsAnswer(c.blocked, Parties(c.request), 0, c.answered);
    VelocityAnswer(counters, c.request.consumer, c.now, c.fate);
    NamesDiffer();
    DecideCases(counters, counted, Lookups(c.blocked, Parties(c.request), 0, c.answered), HighValueRule(c.request),
                velocity, EXCEEDED);
  }

  ghost predicate Decided(counters: Counters, counted: Counters, answer: (Counters, Option<Score>),
                          b: Option<RuleResult>, v: Option<RuleResult>, x: string) {
    var (after, score) := answer;
    && (b.None? ==> answer == (counters, None))
    && (b.Some? && b.value != PASS ==>
          after == counters && score.Some? && score.value.decision == Decline && score.value.score == MAX_SCORE)
    && (b == Some(PASS) ==> after == counted && (score.Some? <==> v.Some?))
    && (b == Some(PASS) && score.Some? ==>
          score.value.decision != Decline && (x in score.value.triggered <==> v.value != PASS))
    && (score.Some? ==> 0 <= score.value.score <= MAX_SCORE)
  }

  lemma DecideCases(counters: Counters, counted: Counters, b: Option<RuleResult>, h: RuleResult, v: Option<RuleResult>,
                    x: string)
    requires b.Some? ==>
              b.value == PASS || (b.value.decision == Decline && b.value.name != x && b.value.delta == BLOCKLIST_DELTA)
    requires h == PASS || (h.decision == Review && h.name != x && h.delta >= 0)
    requires v.Some? ==> v.value == PASS || (v.value.decision == Review && v.value.name == x)
    requires x != ""
    ensures var before := if b.None? then None else Some(Keep(Keep([], b.value), h));
            Decided(counters, counted, Decide(counters, counted, before, v), b, v, x)
  {
    if b.Some? {
      MergeThree(b.value, h, if v.Some? then v.value else PASS, x);
    }
  }

  lemma {:induction false} LookupsAnswer(blocked: Blocklist, parties: seq<(string, string)>, i: nat,
                                         answered: nat -> bool)
    requires i <= |parties|
    ensures Lookups(blocked, parties, i, answered) in {None, Some(PASS), Some(BLOCKED)}
    decreases |parties| - i
  {
    if i < |parties| {
      LookupsAnswer(blocked, parties, i + 1, answered);
    }
  }

  /** What the merge of some results says: their sum, whether they decline, whether `x` is reported. */
  ghost predicate Says(results: seq<RuleResult>, sum: int, declines: bool, x: string, reported: bool) {
    DeltaSum(results) == sum && (Worst(results) == Decline <==> declines) && (x in Names(results) <==> reported)
  }

  lemma KeepOne(results: seq<RuleResult>, r: RuleResult, sum: int, declines: bool, x: string, reported: bool)
    requires Says(results, sum, declines, x, reported) && x != ""
    ensures Says(Keep(results, r), sum + r.delta, declines || r.decision == Decline, x, reported || r.name == x)
  {
    if r != PASS {
      assert (results + [r])[..|results|] == results;
    }
  }

  /** The merge of the at most three results the default engine keeps; `x` is what the velocity rule reports. */
  lemma MergeThree(b: RuleResult, h: RuleResult, v: RuleResult, x: string)
    requires b.name != x && h.name != x && h.decision != Decline && v.decision != Decline && x != ""
    ensures var two := Keep(Keep([], b), h);
            && Says(two, b.delta + h.delta, b.decision == Decline, x, false)
            && Says(Keep(two, v), b.delta + h.delta + v.delta, b.decision == Decline, x, v.name == x)
  {
    KeepOne([], b, 0, false, x, false);
    var one := Keep([], b);
    KeepOne(one, h, b.delta, b.decision == Decline, x, false);
    var two := Keep(one, h);
    KeepOne(two, v, b.delta + h.delta, b.decision == Decline, x, false);
  }

  lemma NamesDiffer()
    ensures BLOCKED.name != EXCEEDED
    ensures forall r :: HighValueRule(r) != PASS ==> HighValueRule(r).name != EXCEEDED
  {
    assert |"BLOCKLIST"| != |EXCEEDED| && |"HIGH_VALUE"| != |EXCEEDED|;
  }

  ghost predicate Monotone(calls: seq<Call>, since: int) {
    && (calls != [] ==> since <= calls[0].now)
    && forall i, j :: 0 <= i <= j < |calls| ==> calls[i].now <= calls[j].now
  }

  /** A successful score that was not declined and does not report VELOCITY_EXCEEDED. */
  predicate Escapes(counters: Counters, c: Call, consumer: string) {
    && c.request.consumer == consumer
    && var score := Scored(counters, c).1;
    && score.Some? && score.value.decision != Decline && EXCEEDED !in score.value.triggered
  }

  /** How many calls of a consumer between two instants escape. */
  function EscapesBetween(counters: Counters, calls: seq<Call>, consumer: string, from: int, to: int): nat
    decreases |calls|
  {
    if calls == [] then 0
    else
      (if from <= calls[0].now <= to && Escapes(counters, calls[0], consumer) then 1 else 0)
      + EscapesBetween(Scored(counters, calls[0]).0, calls[1..], consumer, from, to)
  }

  /** Escapes still possible until `to` if a new window can open at `t`. */
  function RoomOf(t: int, to: int): nat {
    if t > to then 0 else if t + WINDOW > to then THRESHOLD else 2 * THRESHOLD
  }

  /** The same, given the consumer's counter. */
  function Room(counters: Counters, consumer: string, t: int, to: int): nat {
    if consumer in counters && Alive(counters[consumer], t) then
      var c := counters[consumer];
      (if c.count >= THRESHOLD then 0 else THRESHOLD - c.count)
        + (if c.expires.None? then 0 else RoomOf(c.expires.value, to))
    else RoomOf(t, to)
  }

  ghost predicate Sane(counters: Counters) {
    forall k :: k in counters ==> counters[k].count >= 1
  }

  lemma RoomShrinks(counters: Counters, consumer: string, t: int, later: int, to: int)
    requires t <= later
    ensures Room(counters, consumer, later, to) <= Room(counters, consumer, t, to)
  {
  }

  /** An evaluation at `t` that lets the call through uses up room. */
  lemma EvaluateUsesRoom(counters: Counters, consumer: string, t: int, fate: Fate, to: int)
    requires consumer != "" && Sane(counters) && t <= to < t + 2 * WINDOW
    ensures var (after, result) := Evaluate(counters, consumer, t, fate);
            && Sane(after)
            && Room(after, consumer, t, to) + (if result == Some(PASS) then 1 else 0) <= Room(counters, consumer, t, to)
  {
  }

  lemma VelocityAnswer(counters: Counters, consumer: string, now: int, fate: Fate)
    ensures Evaluate(counters, consumer, now, fate).1
              in {None, Some(PASS), Some(RuleResult(VELOCITY_DELTA, Review, EXCEEDED))}
    ensures forall k :: k != consumer ==>
              (k in Evaluate(counters, consumer, now, fate).0 <==> k in counters)
              && (k in counters ==> Evaluate(counters, consumer, now, fate).0[k] == counters[k])
  {
  }

  lemma CallUsesRoom(counters: Counters, c: Call, consumer: string, to: int)
    requires consumer != "" && Sane(counters) && c.now <= to < c.now + 2 * WINDOW
    ensures var after := Scored(counters, c).0;
            Room(after, consumer, c.now, to) + (if Escapes(counters, c, consumer) then 1 else 0) <=
              Room(counters, consumer, c.now, to)
  {
    ScoredIsDecided(counters, c);
    if c.request.consumer == consumer {
      EvaluateUsesRoom(counters, consumer, c.now, c.fate, to);
    } else {
      VelocityAnswer(counters, c.request.consumer, c.now, c.fate);
    }
  }

  lemma CallKeepsSane(counters: Counters, c: Call)
    requires Sane(counters)
    ensures Sane(Scored(counters, c).0)
  {
  }

  /** From an instant inside the interval on, the escapes are bounded by the room left. */
  lemma {:induction false} EscapesWithinRoom(counters: Counters, calls: seq<Call>, consumer: string, t: int, from: int,
                                             to: int)
    requires consumer != "" && Sane(counters) && Monotone(calls, t) && from <= t && to < from + 2 * WINDOW
    ensures EscapesBetween(counters, calls, consumer, from, to) <= Room(counters, consumer, t, to)
    decreases |calls|
  {
    if calls != [] {
      var c := calls[0];
      var after := Scored(counters, c).0;
      CallKeepsSane(counters, c);
      EscapesWithinRoom(after, calls[1..], consumer, c.now, from, to);
      if c.now <= to {
        CallFitsRoom(counters, c, consumer, t, to);
      } else {
        NoneAfter(after, calls[1..], consumer, from, to);
      }
    }
  }

  lemma CallFitsRoom(counters: Counters, c: Call, consumer: string, t: int, to: int)
    requires consumer != "" && Sane(counters) && t <= c.now <= to < c.now + 2 * WINDOW
    ensures Room(Scored(counters, c).0, consumer, c.now, to) + (if Escapes(counters, c, consumer) then 1 else 0)
              <= Room(counters, consumer, t, to)
  {
    CallUsesRoom(counters, c, consumer, to);
    RoomShrinks(counters, consumer, t, c.now, to);
  }

  lemma {:induction false} NoneAfter(counters: Counters, calls: seq<Call>, consumer: string, from: int, to: int)
    requires forall i :: 0 <= i < |calls| ==> calls[i].now > to
    ensures EscapesBetween(counters, calls, consumer, from, to) == 0
    decreases |calls|
  {
    if calls != [] {
      NoneAfter(Scored(counters, calls[0]).0, calls[1..], consumer, from, to);
    }
  }

  /** Calls before the interval only set the scene. */
  lemma {:induction false} EscapesFromStart(counters: Counters, calls: seq<Call>, consumer: string, t: int, from: int,
                                            to: int)
    requires consumer != "" && Sane(counters) && Monotone(calls, t) && from <= to <= from + WINDOW
    ensures EscapesBetween(counters, calls, consumer, from, to) <= if to == from + WINDOW then 2 * THRESHOLD
              else 2 * THRESHOLD - 1
    decreases |calls|
  {
    if calls != [] {
      if calls[0].now < from {
        CallKeepsSane(counters, calls[0]);
        EscapesFromStart(Scored(counters, calls[0]).0, calls[1..], consumer, calls[0].now, from, to);
      } else {
        EscapesWithinRoom(counters, calls, consumer, calls[0].now, from, to);
      }
    }
  }

  /** For every timed sequence of calls, with any failures of the counter: of one consumer's scores inside any
      interval of sixty seconds at most ten escape VELOCITY_EXCEEDED, and at most nine unless both ends of
      the interval are counted. */
  lemma VelocityBound(calls: seq<Call>, consumer: string, from: int, to: int)
    requires consumer != "" && from <= to <= from + 60
    requires calls != [] ==> Monotone(calls, calls[0].now)
    ensures EscapesBetween(map[], calls, consumer, from, to) <= 10
    ensures to < from + 60 ==> EscapesBetween(map[], calls, consumer, from, to) <= 9
  {
    EscapesFromStart(map[], calls, consumer, if calls == [] then 0 else calls[0].now, from, to);
  }

  // ---------- the rules, exactly ----------

  /** With every lookup answered, a request is blocked iff one of its named parties is on the list. */
  lemma BlockedIff(blocked: Blocklist, r: Request, answered: nat -> bool)
    requires forall i :: answered(i)
    ensures Lookups(blocked, Parties(r), 0, answered) ==
              Some(if (r.consumer != "" && ("consumer", r.consumer) in blocked)
                   || (r.merchant != "" && ("merchant", r.merchant) in blocked)
                   || (r.ip != "" && ("ip", r.ip) in blocked)
                   then RuleResult(100, Decline, "BLOCKLIST") else PASS)
  {
    var parties := Parties(r);
    assert Lookups(blocked, parties, 3, answered) == Some(PASS);
    assert Lookups(blocked, parties, 2, answered) ==
      Some(if r.ip != "" && ("ip", r.ip) in blocked then BLOCKED else PASS);
    assert parties[1] == ("merchant", r.merchant) && parties[0] == ("consumer", r.consumer);
    assert Lookups(blocked, parties, 1, answered) ==
             if r.merchant != "" && parties[1] in blocked then Some(BLOCKED)
             else Lookups(blocked, parties, 2, answered);
  }

  /** The n-th counted call of a window is flagged from the sixth on; the window closes sixty seconds after the
      first. */
  lemma VelocityIff(counters: Counters, consumer: string, now: int)
    requires consumer != ""
    ensures var (after, result) := Evaluate(counters, consumer, now, Counted(true));
            var before := CountOf(counters, consumer, now);
            && result == Some(if before >= 5 then RuleResult(40, Review, "VELOCITY_EXCEEDED") else PASS)
            && consumer in after && after[consumer].count == before + 1
            && (before == 0 ==> after[consumer].expires == Some(now + 60))
            && (before > 0 ==> after[consumer].expires == counters[consumer].expires)
  {
  }

  /** The rule errs iff the increment is refused or unheard of, or the first one's expiry cannot be set; a
      refused increment changes nothing. */
  lemma VelocityErrsIff(counters: Counters, consumer: string, now: int, fate: Fate)
    ensures var (after, result) := Evaluate(counters, consumer, now, fate);
            && (result.None? <==>
                  && consumer != ""
                  && (fate in {NotCounted, CountedUnheard}
                      || (fate == Counted(false) && CountOf(counters, consumer, now) == 0)))
            && (consumer == "" || fate == NotCounted ==> after == counters)
            && (consumer != "" && fate != NotCounted ==>
                  consumer in after && after[consumer].count == CountOf(counters, consumer, now) + 1)
  {
  }

  /** A count is forgotten when its window closes, and not before; without an expiry it stays. */
  lemma WindowCloses(counters: Counters, consumer: string, now: int)
    ensures CountOf(counters, consumer, now) ==
              if consumer !in counters then 0
              else if counters[consumer].expires.Some? && counters[consumer].expires.value <= now then 0
              else counters[consumer].count
  {
  }

  function Named(r: RuleResult): seq<string> {
    if r.name == "" then [] else [r.name]
  }

  function Worse(d: Decision, e: Decision): Decision {
    if Decline in {d, e} then Decline else if Review in {d, e} then Review else Allow
  }

  ghost predicate Exactly(results: seq<RuleResult>, sum: int, worst: Decision, names: seq<string>) {
    DeltaSum(results) == sum && Worst(results) == worst && Names(results) == names
  }

  lemma KeepExactly(results: seq<RuleResult>, r: RuleResult, sum: int, worst: Decision, names: seq<string>)
    requires Exactly(results, sum, worst, names)
    ensures Exactly(Keep(results, r), sum + r.delta, Worse(worst, r.decision), names + Named(r))
  {
    if r == PASS {
      assert names + Named(r) == names;
    } else {
      SumAndNamesOf(results, r);
      WorstOf(results, r);
    }
  }

  lemma SumAndNamesOf(results: seq<RuleResult>, r: RuleResult)
    ensures DeltaSum(results + [r]) == DeltaSum(results) + r.delta
    ensures Names(results + [r]) == Names(results) + Named(r)
  {
    assert (results + [r])[..|results|] == results;
  }

  lemma WorstOf(results: seq<RuleResult>, r: RuleResult)
    ensures Worst(results + [r]) == Worse(Worst(results), r.decision)
  {
    assert (results + [r])[..|results|] == results;
  }

  /** What three rules say together. */
  function Verdict(b: RuleResult, h: RuleResult, v: RuleResult): Score {
    var delta := b.delta + h.delta + v.delta;
    Score(if delta > 100 then 100 else if delta < 0 then 0 else delta,
          Worse(Worse(b.decision, h.decision), v.decision), Named(b) + Named(h) + Named(v))
  }

  lemma MergeIsVerdict(b: RuleResult, h: RuleResult, v: RuleResult)
    ensures Merge(Keep(Keep([], b), h)) == Verdict(b, h, PASS)
    ensures Merge(Keep(Keep(Keep([], b), h), v)) == Verdict(b, h, v)
  {
    assert Exactly([], 0, Allow, []);
    KeepExactly([], b, 0, Allow, []);
    assert [] + Named(b) == Named(b) && Worse(Allow, b.decision) == b.decision;
    var one := Keep([], b);
    KeepExactly(one, h, b.delta, b.decision, Named(b));
    var two := Keep(one, h);
    KeepExactly(two, v, b.delta + h.delta, Worse(b.decision, h.decision), Named(b) + Named(h));
  }

  /** The answer in full: 100 for a blocked party, 30 above 50,000 pence, 40 from the sixth call of a window
      on, capped at 100; declined iff blocked, else reviewed iff anything triggered; and the velocity rule is
      not asked about a blocked request. */
  lemma ScoreIs(counters: Counters, c: Call)
    requires (forall i :: c.answered(i)) && c.fate == Counted(true) && c.request.consumer != ""
    ensures var (r, before) := (c.request, CountOf(counters, c.request.consumer, c.now));
            var blocked := Lookups(c.blocked, Parties(r), 0, c.answered) == Some(BLOCKED);
            var b := if blocked then RuleResult(100, Decline, "BLOCKLIST") else PASS;
            var h := if r.amount > 50_000 then RuleResult(30, Review, "HIGH_VALUE") else PASS;
            var v := if !blocked && before >= 5 then RuleResult(40, Review, "VELOCITY_EXCEEDED") else PASS;
            Scored(counters, c).1 == Some(Verdict(b, h, v))
  {
    BlockedIff(c.blocked, c.request, c.answered);
    VelocityIff(counters, c.request.consumer, c.now);
    var b := Lookups(c.blocked, Parties(c.request), 0, c.answered).value;
    var (counted, v) := Evaluate(counters, c.request.consumer, c.now, c.fate);
    DecideIs(counters, counted, b, HighValueRule(c.request), v.value);
  }

  lemma DecideIs(counters: Counters, counted: Counters, b: RuleResult, h: RuleResult, v: RuleResult)
    requires h.decision != Decline && b.decision in {Allow, Decline}
    ensures Decide(counters, counted, Some(Keep(Keep([], b), h)), Some(v)).1 ==
              Some(Verdict(b, h, if b.decision == Decline then PASS else v))
  {
    MergeIsVerdict(b, h, v);
    assert Merge(Keep(Keep([], b), h)).decision == Worst(Keep(Keep([], b), h));
  }
}
