/** The payment saga (payment-svc, saga.go) as a machine that makes one downstream call per step:
    Consent, Risk, Bank, Ledger, Settle with outbox, Confirm -- and, when a step fails, the
    compensations, which are all attempted whatever the earlier ones answered. */
module Saga {
  import opened Basics
  import opened Fee
  import B = Banks
  import C = Consents
  import L = Ledgers
  import P = Payments

  /** The four stores a payment touches, and the completed idempotency keys. */
  datatype World = World(repo: P.Repo, consent: C.State, bank: B.Bank, ledger: L.Ledger, idem: map<string, string>)

  const EMPTY := World(P.EMPTY, C.EMPTY, map[], L.EMPTY, map[])

  // ---------- what the outside answers ----------

  datatype RiskAnswer = RiskDown | Scored(score: int, decision: string)

  datatype BankAnswer = BankDown | BankRejects(ref: string) | BankTakes(ref: string)

  /** One call's fate: whether it gets through, what becomes of a status write, what risk and bank say,
      the clock, and the id or reference a store would generate. A call that does not get through has
      no effect. */
  datatype Answer = Answer(up: bool, write: P.Write, risk: RiskAnswer, bank: BankAnswer, now: int, newId: string)

  datatype Stage =
    | Reserve | SaveConsent | Risk | SaveRisk | Bank | SaveBank | Post | Settle | Confirm | Complete
    | UndoLedger | UndoBank | Release | Mark | Finished

  /** All the answers one attempt would get. */
  type Script = Stage -> Answer

  // ---------- who is working on a payment, and where ----------

  datatype Kind = First | Retried | Resumed | Stale

  datatype Pc =
    | AtReserve
    | AtSaveConsent(reservation: string, consumer: string)
    | AtRisk
    | AtSaveRisk(score: int, decision: string)
    | AtBank
    | AtSaveBank(ref: string)
    | AtPost
    | AtSettle
    | AtConfirm
    | AtUndoLedger
    | AtUndoBank(failed: bool, reverseBank: bool)
    | AtRelease(failed: bool)
    | AtMark(failed: bool)
    | AtComplete(ok: bool)
    | AtEnd(ok: bool)

  /** `memory` is the orchestrator's copy of the payment; it is lost in a crash. */
  datatype Actor = Actor(kind: Kind, pc: Pc, memory: P.Payment, consentRef: string)

  function StageOf(pc: Pc): Stage {
    match pc
    case AtReserve => Reserve
    case AtSaveConsent(_, _) => SaveConsent
    case AtRisk => Risk
    case AtSaveRisk(_, _) => SaveRisk
    case AtBank => Bank
    case AtSaveBank(_) => SaveBank
    case AtPost => Post
    case AtSettle => Settle
    case AtConfirm => Confirm
    case AtUndoLedger => UndoLedger
    case AtUndoBank(_, _) => UndoBank
    case AtRelease(_) => Release
    case AtMark(_) => Mark
    case AtComplete(_) => Complete
    case AtEnd(_) => Finished
  }

  // ---------- the ledger lines of a payment ----------

  const PLATFORM_OWNER := "platform"

  function SagaLines(p: P.Payment): seq<L.LineInput> {
    var fee := PlatformFee(p.amount);
    [L.LineInput("CONSUMER_ESCROW", p.consumer, "DR", p.amount, p.currency),
     L.LineInput("MERCHANT_ESCROW", p.merchant, "CR", p.amount - fee, p.currency),
     L.LineInput("PLATFORM_FEE", PLATFORM_OWNER, "CR", fee, p.currency)]
  }

  function PostText(kind: Kind, id: string): string {
    "VRP settlement " + id + (if kind == Resumed then " (reconciled)" else "")
  }

  // ---------- the forward steps ----------

  function StepReserve(w: World, id: string, a: Actor, ans: Answer): (World, Actor) {
    if !ans.up then (w, a.(pc := AtMark(false)))
    else
      var (consent, result) :=
        C.Reserve(w.consent, a.memory.consent, id, a.memory.amount, a.memory.currency, ans.now, ans.newId);
      match result
      case Err(_) => (w.(consent := consent), a.(pc := AtMark(false)))
      case Ok(r) =>
        (w.(consent := consent), a.(pc := AtSaveConsent(r.reservationId, r.consumer), consentRef := r.bankConsentRef))
  }

  function StepSaveConsent(w: World, id: string, a: Actor, ans: Answer): (World, Actor)
    requires a.pc.AtSaveConsent?
  {
    var change := P.AfterConsent(a.pc.reservation, a.pc.consumer);
    var (repo, ok) := P.StatusWrite(w.repo, id, a.memory.status, P.ConsentReserved, change, ans.write);
    if ok then
      (w.(repo := repo), a.(pc := AtRisk, memory := change(a.memory).(status := P.ConsentReserved)))
    else
      (w.(repo := repo), a.(pc := AtUndoBank(false, false), memory := a.memory.(reservation := Some(a.pc.reservation))))
  }

  /** ALLOW and REVIEW both go on. */
  function StepRisk(w: World, a: Actor, ans: Answer): (World, Actor) {
    match ans.risk
    case RiskDown => (w, a.(pc := AtUndoBank(false, false)))
    case Scored(score, decision) =>
      if decision == "DECLINE" then
        (w, a.(pc := AtUndoBank(false, false), memory := a.memory.(risk := Some((score, decision)))))
      else
        (w, a.(pc := AtSaveRisk(score, decision)))
  }

  function StepSaveRisk(w: World, id: string, a: Actor, ans: Answer): (World, Actor)
    requires a.pc.AtSaveRisk?
  {
    var change := P.AfterRisk(a.pc.score, a.pc.decision);
    var (repo, ok) := P.StatusWrite(w.repo, id, a.memory.status, P.RiskPassed, change, ans.write);
    if ok then
      (w.(repo := repo), a.(pc := AtBank, memory := change(a.memory).(status := P.RiskPassed)))
    else
      (w.(repo := repo), a.(pc := AtUndoBank(false, false)))
  }

  function BankRequest(id: string, p: P.Payment, consentRef: string): B.Request {
    B.Request(id, consentRef, p.consumer, p.amount, p.currency)
  }

  function StepBank(w: World, id: string, a: Actor, ans: Answer): (World, Actor) {
    match ans.bank
    case BankDown => (w, a.(pc := AtUndoBank(false, false)))
    case BankRejects(ref) => (w.(bank := B.Reject(w.bank, ref)), a.(pc := AtUndoBank(false, false)))
    case BankTakes(ref) =>
      var (bank, ok) := B.Initiate(w.bank, ref, BankRequest(id, a.memory, a.consentRef));
      (w.(bank := bank), a.(pc := if ok then AtSaveBank(ref) else AtUndoBank(false, false)))
  }

  /** When the write fails the reference never reaches the memory, and the reversal that follows skips the bank. */
  function StepSaveBank(w: World, id: string, a: Actor, ans: Answer): (World, Actor)
    requires a.pc.AtSaveBank?
  {
    var change := P.AfterBank(a.pc.ref);
    var (repo, ok) := P.StatusWrite(w.repo, id, a.memory.status, P.Authorising, change, ans.write);
    if ok then
      (w.(repo := repo), a.(pc := AtPost, memory := change(a.memory).(status := P.Authorising)))
    else
      (w.(repo := repo), a.(pc := AtUndoBank(false, true)))
  }

  /** The posting of a payment as its current attempt would make it. */
  function Posting(w: World, id: string, a: Actor): (L.Ledger, Option<Code>) {
    L.Post(w.ledger, id, PostText(a.kind, id), SagaLines(a.memory))
  }

  function StepPost(w: World, id: string, a: Actor, ans: Answer): (World, Actor) {
    if !ans.up then (w, a.(pc := AtUndoBank(false, true)))
    else
      var (ledger, err) := Posting(w, id, a);
      (w.(ledger := ledger), a.(pc := if err.None? then AtSettle else AtUndoBank(false, true)))
  }

  function StepSettle(w: World, id: string, a: Actor, ans: Answer): (World, Actor) {
    var (repo, ok) := P.Settle(w.repo, id, a.memory.status, ans.up);
    if ok then (w.(repo := repo), a.(pc := AtConfirm, memory := a.memory.(status := P.Settled)))
    else (w.(repo := repo), a.(pc := AtUndoLedger))
  }

  /** The payment is settled by now: an error of the confirmation is only logged. */
  function StepConfirm(w: World, id: string, a: Actor, ans: Answer): (World, Actor) {
    var next := a.(pc := if a.kind == Retried then AtEnd(true) else AtComplete(true));
    if a.memory.reservation.Some? && ans.up then
      (w.(consent := C.Confirm(w.consent, a.memory.reservation.value, id, ans.now).0), next)
    else
      (w, next)
  }

  function StepComplete(w: World, id: string, a: Actor, ans: Answer): (World, Actor)
    requires a.pc.AtComplete?
  {
    (if ans.up then w.(idem := w.idem[a.memory.key := id]) else w, a.(pc := AtEnd(a.pc.ok)))
  }

  // ---------- compensation ----------

  /** Each undo returns the world and whether the call failed. */
  function TryUndoLedger(w: World, id: string, up: bool): (World, bool) {
    if !up then (w, true)
    else
      var (ledger, err) := L.Reverse(w.ledger, id, "settle failed");
      (w.(ledger := ledger), err.Some?)
  }

  function TryUndoBank(w: World, p: P.Payment, up: bool): (World, bool) {
    if p.bankRef == "" then (w, false)
    else if !up then (w, true)
    else
      var (bank, err) := B.Reverse(w.bank, p.bankRef);
      (w.(bank := bank), err.Some?)
  }

  function TryRelease(w: World, p: P.Payment, up: bool): (World, bool) {
    if p.reservation.None? then (w, false)
    else if !up then (w, true)
    else
      var (consent, err) := C.Release(w.consent, p.reservation.value);
      (w.(consent := consent), err.Some?)
  }

  function StepUndoLedger(w: World, id: string, a: Actor, ans: Answer): (World, Actor) {
    var (after, failed) := TryUndoLedger(w, id, ans.up);
    (after, a.(pc := AtUndoBank(failed, true)))
  }

  function StepUndoBank(w: World, a: Actor, ans: Answer): (World, Actor)
    requires a.pc.AtUndoBank?
  {
    if !a.pc.reverseBank then (w, a.(pc := AtRelease(a.pc.failed)))
    else
      var (after, failed) := TryUndoBank(w, a.memory, ans.up);
      (after, a.(pc := AtRelease(a.pc.failed || failed)))
  }

  function StepRelease(w: World, a: Actor, ans: Answer): (World, Actor)
    requires a.pc.AtRelease?
  {
    var (after, failed) := TryRelease(w, a.memory, ans.up);
    (after, a.(pc := AtMark(a.pc.failed || failed)))
  }

  /** FAILED if every compensation went through, MANUAL_REVIEW otherwise; an error of the write is discarded. */
  function StepMark(w: World, id: string, a: Actor, ans: Answer): (World, Actor)
    requires a.pc.AtMark?
  {
    var status := if a.pc.failed then P.ManualReview else P.Failed;
    var (repo, _) := P.StatusWrite(w.repo, id, a.memory.status, status, P.Unchanged(), ans.write);
    (w.(repo := repo), a.(pc := if a.kind == First then AtComplete(false) else AtEnd(false)))
  }

  // ---------- the machine ----------

  predicate WritesRow(pc: Pc) {
    pc.AtSaveConsent? || pc.AtSaveRisk? || pc.AtSaveBank? || pc.AtSettle? || pc.AtMark?
  }

  predicate CallsConsent(pc: Pc) {
    pc.AtReserve? || pc.AtConfirm? || pc.AtRelease?
  }

  predicate CallsMoney(pc: Pc) {
    pc.AtBank? || pc.AtPost? || pc.AtUndoLedger? || pc.AtUndoBank?
  }

  /** The steps that write the payment table. */
  function RowStep(w: World, id: string, a: Actor, ans: Answer): (World, Actor)
    requires WritesRow(a.pc)
  {
    match a.pc
    case AtSaveConsent(_, _) => StepSaveConsent(w, id, a, ans)
    case AtSaveRisk(_, _) => StepSaveRisk(w, id, a, ans)
    case AtSaveBank(_) => StepSaveBank(w, id, a, ans)
    case AtSettle => StepSettle(w, id, a, ans)
    case AtMark(_) => StepMark(w, id, a, ans)
  }

  /** The calls of the consent service. */
  function ConsentStep(w: World, id: string, a: Actor, ans: Answer): (World, Actor)
    requires CallsConsent(a.pc)
  {
    match a.pc
    case AtReserve => StepReserve(w, id, a, ans)
    case AtConfirm => StepConfirm(w, id, a, ans)
    case AtRelease(_) => StepRelease(w, a, ans)
  }

  /** The calls of the bank and of the ledger. */
  function MoneyStep(w: World, id: string, a: Actor, ans: Answer): (World, Actor)
    requires CallsMoney(a.pc)
  {
    match a.pc
    case AtBank => StepBank(w, id, a, ans)
    case AtPost => StepPost(w, id, a, ans)
    case AtUndoLedger => StepUndoLedger(w, id, a, ans)
    case AtUndoBank(_, _) => StepUndoBank(w, a, ans)
  }

  /** The next call of the actor working on payment `id`. */
  function Advance(w: World, id: string, a: Actor, ans: Answer): (World, Actor) {
    if WritesRow(a.pc) then RowStep(w, id, a, ans)
    else if CallsConsent(a.pc) then ConsentStep(w, id, a, ans)
    else if CallsMoney(a.pc) then MoneyStep(w, id, a, ans)
    else match a.pc
      case AtRisk => StepRisk(w, a, ans)
      case AtComplete(_) => StepComplete(w, id, a, ans)
      case AtEnd(_) => (w, a)
  }

  function Rank(pc: Pc): nat {
    match pc
    case AtReserve => 14
    case AtSaveConsent(_, _) => 13
    case AtRisk => 12
    case AtSaveRisk(_, _) => 11
    case AtBank => 10
    case AtSaveBank(_) => 9
    case AtPost => 8
    case AtSettle => 7
    case AtUndoLedger => 6
    case AtUndoBank(_, _) => 5
    case AtRelease(_) => 4
    case AtMark(_) => 3
    case AtConfirm => 2
    case AtComplete(_) => 1
    case AtEnd(_) => 0
  }

  lemma AdvanceDescends(w: World, id: string, a: Actor, ans: Answer)
    requires !a.pc.AtEnd?
    ensures Rank(Advance(w, id, a, ans).1.pc) < Rank(a.pc)
    ensures Advance(w, id, a, ans).1.kind == a.kind
  {
  }

  /** The uninterrupted run of an actor to its end, alone in the world. */
  function RunFrom(w: World, id: string, a: Actor, script: Script): (World, bool)
    decreases Rank(a.pc)
  {
    if a.pc.AtEnd? then (w, a.pc.ok)
    else
      AdvanceDescends(w, id, a, script(StageOf(a.pc)));
      var (next, b) := Advance(w, id, a, script(StageOf(a.pc)));
      RunFrom(next, id, b, script)
  }

  // ---------- where the reconciler starts ----------

  function Pending(kind: Kind, pc: Pc, p: P.Payment): Actor {
    Actor(kind, pc, p, "")
  }

  /** A stale row is resumed from the ledger step if the bank says SETTLED, compensated if it says anything
      else or was never reached, and left alone if the bank does not answer. */
  function Recover(w: World, p: P.Payment, bankUp: bool): Option<Actor> {
    if p.bankRef == "" then Some(Pending(Stale, AtUndoBank(false, false), p))
    else if !bankUp || p.bankRef !in w.bank then None
    else if w.bank[p.bankRef].status == B.Settled then Some(Pending(Resumed, AtPost, p))
    else Some(Pending(Stale, AtUndoBank(false, true), p))
  }
}
