/** Domain errors over gRPC (pkg/shared/domainerr): ToGRPC, FromGRPC and the legacy "CODE: message" form. */
module ErrorCodec {
  import opened Basics

  const PLATFORM := "vrp.platform"
  const SEPARATOR := ": "

  const VALIDATION := "VALIDATION_ERROR"
  const NOT_FOUND := "NOT_FOUND"
  const ALREADY_EXISTS := "ALREADY_EXISTS"
  const DUPLICATE_KEY := "DUPLICATE_IDEMPOTENCY_KEY"
  const BANK_UNAVAILABLE := "BANK_UNAVAILABLE"
  const INTERNAL := "INTERNAL_ERROR"

  /** The codes that travel as FailedPrecondition. */
  predicate Business(code: string) {
    || code == "CONSENT_LIMIT_EXCEEDED" || code == "CONSENT_EXPIRED" || code == "CONSENT_REVOKED"
    || code == "CONSENT_INACTIVE" || code == "RISK_DECLINED" || code == "BANK_REJECTED"
    || code == "MERCHANT_SUSPENDED" || code == "CONFLICT"
  }

  /** The codes a standard gRPC code stands for. */
  predicate Standard(code: string) {
    code == VALIDATION || code == NOT_FOUND || code == ALREADY_EXISTS || code == BANK_UNAVAILABLE || code == INTERNAL
  }

  predicate IsKnownCode(code: string) {
    Business(code) || Standard(code) || code == DUPLICATE_KEY
  }

  datatype GrpcCode = InvalidArgument | NotFoundCode | AlreadyExistsCode | FailedPrecondition | Unavailable
    | InternalCode | OtherCode

  /** An ErrorInfo detail. */
  datatype Info = Info(reason: string, domain: string)

  /** An error of this program: a domain error, or any other with the words it prints. */
  datatype AppError = Domain(code: string, message: string) | Foreign(words: string)

  datatype Status = Status(grpc: GrpcCode, text: string, details: seq<Info>)

  /** What FromGRPC may be given: an error that never crossed the wire, or a status that did. */
  datatype Received = Local(error: AppError) | Remote(status: Status)

  /** `attached` says whether the detail could be attached; otherwise the code is put before the message. */
  function ToGRPC(e: AppError, attached: bool): Status {
    if e.Foreign? then Status(InternalCode, e.words, [])
    else if e.code == VALIDATION then Status(InvalidArgument, e.message, [])
    else if e.code == NOT_FOUND then Status(NotFoundCode, e.message, [])
    else if e.code == ALREADY_EXISTS || e.code == DUPLICATE_KEY then Status(AlreadyExistsCode, e.message, [])
    else if Business(e.code) then
      if attached then Status(FailedPrecondition, e.message, [Info(e.code, PLATFORM)])
      else Status(FailedPrecondition, e.code + SEPARATOR + e.message, [])
    else if e.code == BANK_UNAVAILABLE then Status(Unavailable, e.message, [])
    else Status(InternalCode, e.message, [])
  }

  /** The first detail of the platform's domain. */
  function PlatformInfo(details: seq<Info>): Option<string> {
    if details == [] then None
    else if details[0].domain == PLATFORM then Some(details[0].reason)
    else PlatformInfo(details[1..])
  }

  /** Where the separator first occurs at or after `i`. */
  function Find(text: string, i: nat): Option<nat>
    requires i <= |text|
    decreases |text| - i
  {
    if i + 2 > |text| then None
    else if text[i] == ':' && text[i + 1] == ' ' then Some(i)
    else Find(text, i + 1)
  }

  function FromStandard(grpc: GrpcCode): string {
    match grpc
    case InvalidArgument => VALIDATION
    case NotFoundCode => NOT_FOUND
    case AlreadyExistsCode => ALREADY_EXISTS
    case Unavailable => BANK_UNAVAILABLE
    case _ => INTERNAL
  }

  lemma {:induction false} FoundWithin(text: string, i: nat)
    requires i <= |text|
    ensures Find(text, i).Some? ==> i <= Find(text, i).value && Find(text, i).value + 2 <= |text|
    decreases |text| - i
  {
    if i < |text| {
      FoundWithin(text, i + 1);
    }
  }

  /** The code before the first separator, if it is a known one, with the rest of the text. */
  function Legacy(text: string): Option<(string, string)> {
    FoundWithin(text, 0);
    var at := Find(text, 0);
    if at.Some? && IsKnownCode(text[..at.value]) then Some((text[..at.value], text[at.value + 2..])) else None
  }

  function FromStatus(st: Status): AppError {
    if PlatformInfo(st.details).Some? then Domain(PlatformInfo(st.details).value, st.text)
    else if Legacy(st.text).Some? then Domain(Legacy(st.text).value.0, Legacy(st.text).value.1)
    else Domain(FromStandard(st.grpc), st.text)
  }

  function FromGRPC(e: Received): AppError {
    match e
    case Local(Domain(code, message)) => Domain(code, message)
    case Local(Foreign(words)) => Domain(INTERNAL, words)
    case Remote(st) => FromStatus(st)
  }

  /** The search for the detail, as the loop makes it. */
  method FindInfo(details: seq<Info>) returns (reason: Option<string>)
    ensures reason == PlatformInfo(details)
    ensures reason.None? <==> forall i :: 0 <= i < |details| ==> details[i].domain != PLATFORM
    ensures reason.Some? ==> Info(reason.value, PLATFORM) in details
  {
    var i := 0;
    while i < |details|
      invariant 0 <= i <= |details|
      invariant PlatformInfo(details) == PlatformInfo(details[i..])
      invariant forall k :: 0 <= k < i ==> details[k].domain != PLATFORM
    {
      if details[i].domain == PLATFORM {
        assert details[i] == Info(details[i].reason, PLATFORM);
        return Some(details[i].reason);
      }
      assert details[i..][1..] == details[i + 1..];
      i := i + 1;
    }
    return None;
  }

  // ---------- the codes are told apart ----------

  lemma ClassesAreDisjoint(code: string)
    requires Business(code)
    ensures code != VALIDATION && code != NOT_FOUND && code != ALREADY_EXISTS && code != DUPLICATE_KEY
    ensures code != BANK_UNAVAILABLE
  {
    assert |"CONSENT_LIMIT_EXCEEDED"| == 22 && |"CONSENT_EXPIRED"| == 15 && |"CONSENT_REVOKED"| == 15;
    assert |"RISK_DECLINED"| == 13 && |"BANK_REJECTED"| == 13 && |"MERCHANT_SUSPENDED"| == 18 && |"CONFLICT"| == 8;
    assert |VALIDATION| == 16 && |NOT_FOUND| == 9 && |ALREADY_EXISTS| == 14 && |DUPLICATE_KEY| == 25
      && |BANK_UNAVAILABLE| == 16;
    assert |"CONSENT_INACTIVE"| == 16 && "CONSENT_INACTIVE"[0] == 'C' && VALIDATION[0] == 'V'
      && BANK_UNAVAILABLE[0] == 'B';
  }

  lemma StandardCodesDiffer()
    ensures VALIDATION != NOT_FOUND && VALIDATION != ALREADY_EXISTS && NOT_FOUND != ALREADY_EXISTS
    ensures BANK_UNAVAILABLE != VALIDATION && BANK_UNAVAILABLE != NOT_FOUND && BANK_UNAVAILABLE != ALREADY_EXISTS
    ensures INTERNAL != VALIDATION && INTERNAL != NOT_FOUND && INTERNAL != ALREADY_EXISTS
    ensures INTERNAL != BANK_UNAVAILABLE
    ensures DUPLICATE_KEY != VALIDATION && DUPLICATE_KEY != NOT_FOUND && DUPLICATE_KEY != ALREADY_EXISTS
    ensures DUPLICATE_KEY != BANK_UNAVAILABLE && DUPLICATE_KEY != INTERNAL
    ensures !Business(INTERNAL) && !Business(DUPLICATE_KEY)
  {
    assert VALIDATION[0] == 'V' && NOT_FOUND[0] == 'N' && ALREADY_EXISTS[0] == 'A' && BANK_UNAVAILABLE[0] == 'B';
    assert INTERNAL[0] == 'I' && DUPLICATE_KEY[0] == 'D';
  }

  predicate NoColon(s: string) {
    forall i :: 0 <= i < |s| ==> s[i] != ':'
  }

  lemma BusinessHasNoColon(code: string)
    requires Business(code)
    ensures NoColon(code)
  {
  }

  lemma {:induction false} FindAfter(code: string, rest: string, i: nat)
    requires NoColon(code) && i <= |code|
    ensures Find(code + SEPARATOR + rest, i) == Some(|code|)
    decreases |code| - i
  {
    var text := code + SEPARATOR + rest;
    assert text[|code|] == ':' && text[|code| + 1] == ' ';
    if i < |code| {
      assert text[i] == code[i];
      FindAfter(code, rest, i + 1);
    }
  }

  // ---------- round trips ----------

  /** Business errors survive the trip whatever their message, with the detail attached or in the legacy form. */
  lemma BusinessRoundTrip(code: string, message: string, attached: bool)
    requires Business(code)
    ensures FromGRPC(Remote(ToGRPC(Domain(code, message), attached))) == Domain(code, message)
  {
    ClassesAreDisjoint(code);
    if attached {
      assert PlatformInfo([Info(code, PLATFORM)]) == Some(code);
    } else {
      var text := code + SEPARATOR + message;
      BusinessHasNoColon(code);
      FindAfter(code, message, 0);
      assert text[..|code|] == code && text[|code| + 2..] == message;
      assert Legacy(text) == Some((code, message));
    }
  }

  /** What arrives for any other code: the code of its gRPC class, unless the message itself begins with a
      known code, which is then taken for the code. */
  lemma OtherTrip(code: string, message: string, attached: bool)
    requires !Business(code)
    ensures FromGRPC(Remote(ToGRPC(Domain(code, message), attached))) ==
              if Legacy(message).Some? then Domain(Legacy(message).value.0, Legacy(message).value.1)
              else if Standard(code) then Domain(code, message)
              else Domain(if code == DUPLICATE_KEY then ALREADY_EXISTS else INTERNAL, message)
  {
    StandardCodesDiffer();
  }

  /** For every code and every message: the error comes back unchanged if and only if it is a business error, or
      its code is one of the standard ones and its message does not begin with a known code. In particular
      DUPLICATE_IDEMPOTENCY_KEY never does: it comes back as ALREADY_EXISTS. */
  lemma RoundTripIff(code: string, message: string, attached: bool)
    ensures FromGRPC(Remote(ToGRPC(Domain(code, message), attached))) == Domain(code, message)
       <==> Business(code) || (Standard(code) && Legacy(message).None?)
  {
    if Business(code) {
      BusinessRoundTrip(code, message, attached);
    } else {
      OtherTrip(code, message, attached);
      StandardCodesDiffer();
      FoundWithin(message, 0);
      assert Legacy(message).Some? ==> |Legacy(message).value.1| < |message|;
    }
  }

  // ---------- the table ----------

  /** What each code becomes on the wire. */
  lemma CodesOnTheWire(message: string, attached: bool)
    ensures ToGRPC(Domain("VALIDATION_ERROR", message), attached) == Status(InvalidArgument, message, [])
    ensures ToGRPC(Domain("NOT_FOUND", message), attached) == Status(NotFoundCode, message, [])
    ensures ToGRPC(Domain("ALREADY_EXISTS", message), attached) == Status(AlreadyExistsCode, message, [])
    ensures ToGRPC(Domain("DUPLICATE_IDEMPOTENCY_KEY", message), attached) == Status(AlreadyExistsCode, message, [])
    ensures ToGRPC(Domain("BANK_UNAVAILABLE", message), attached) == Status(Unavailable, message, [])
    ensures ToGRPC(Domain("INTERNAL_ERROR", message), attached) == Status(InternalCode, message, [])
    ensures ToGRPC(Foreign(message), attached) == Status(InternalCode, message, [])
  {
    StandardCodesDiffer();
  }

  /** The eight business codes travel as a failed precondition that names them, in a detail or before the message. */
  lemma BusinessOnTheWire(code: string, message: string, attached: bool)
    requires code in {"CONSENT_LIMIT_EXCEEDED", "CONSENT_EXPIRED", "CONSENT_REVOKED", "CONSENT_INACTIVE",
                      "RISK_DECLINED", "BANK_REJECTED", "MERCHANT_SUSPENDED", "CONFLICT"}
    ensures Business(code)
    ensures ToGRPC(Domain(code, message), attached) ==
              if attached then Status(FailedPrecondition, message, [Info(code, "vrp.platform")])
              else Status(FailedPrecondition, code + ": " + message, [])
  {
    ClassesAreDisjoint(code);
  }

  /** The fourteen codes, and no others, are recognised before a message. */
  lemma KnownIff(code: string)
    ensures IsKnownCode(code) <==>
              code in {"VALIDATION_ERROR", "NOT_FOUND", "ALREADY_EXISTS", "CONSENT_LIMIT_EXCEEDED", "CONSENT_EXPIRED",
                       "CONSENT_REVOKED", "CONSENT_INACTIVE", "RISK_DECLINED", "BANK_REJECTED", "BANK_UNAVAILABLE",
                       "MERCHANT_SUSPENDED", "DUPLICATE_IDEMPOTENCY_KEY", "CONFLICT", "INTERNAL_ERROR"}
  {
  }

  lemma StandardHasNoColon(code: string)
    requires Standard(code) || code == DUPLICATE_KEY
    ensures NoColon(code)
  {
  }

  /** A status in the legacy form gives back the code and the message it was made of, whatever its gRPC code. */
  lemma LegacyForm(code: string, message: string, grpc: GrpcCode)
    requires IsKnownCode(code)
    ensures FromGRPC(Remote(Status(grpc, code + ": " + message, []))) == Domain(code, message)
  {
    var text := code + SEPARATOR + message;
    if Business(code) {
      BusinessHasNoColon(code);
    } else {
      StandardHasNoColon(code);
    }
    FindAfter(code, message, 0);
    assert text[..|code|] == code && text[|code| + 2..] == message;
    assert Legacy(text) == Some((code, message));
  }
}
