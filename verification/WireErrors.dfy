/** BrainErrors on the wire: the constructor and its options, the sanitizer, the JSON-RPC
    error object with its data envelope, and what a trip through them keeps. */
module WireErrors {
  import opened Options

  datatype Metadata = Metadata(errorClass: string, retryable: bool)

  predicate KnownClass(c: string) {
    c in {"transient", "permanent", "user_fault", "quota_exceeded", "safety_refused", "internal_bug"}
  }

  /** The codes seeded at start that this file refers to. */
  predicate Seeded(codes: set<string>) {
    {"frame_parse_error", "invalid_params", "method_not_found", "assertion_failed", "shutting_down", "frame_too_large",
     "sidecar_hung", "brain_overloaded", "brain_task_failed", "stale_response", "unknown"} <= codes
  }

  /** The code registry, and the fingerprint as a function of error code, brain id, cause
      code and message. */
  datatype Env = Env(registry: map<string, Metadata>, digest: (string, string, string, string) -> string) {
    /** What Register lets in, on top of the seeded codes. */
    predicate Valid() {
      && Seeded(registry.Keys)
      && "" !in registry
      && forall code :: code in registry ==> KnownClass(registry[code].errorClass)
    }
  }

  type Internal = map<string, string>

  datatype BrainError = BrainError(
    errorClass: string, code: string, retryable: bool, fingerprint: string, traceId: string, spanId: string,
    message: string, hint: string, cause: Option<BrainError>, internalOnly: Option<Internal>,
    brainId: string, sidecarPid: int, occurredAt: int, attempt: int, suggestions: seq<string>)

  // ----- construction -----

  datatype Setting =
    | WithMessage(message: string)
    | WithHint(hint: string)
    | WithTraceId(traceId: string)
    | WithSpanId(spanId: string)
    | WithSuggestions(suggestions: seq<string>)
    | WithClass(errorClass: string)
    | WithCause(cause: BrainError)

  function Apply(e: BrainError, setting: Setting): BrainError {
    match setting
    case WithMessage(message) => if message != "" then e.(message := message) else e
    case WithHint(hint) => e.(hint := hint)
    case WithTraceId(id) => e.(traceId := id)
    case WithSpanId(id) => e.(spanId := id)
    case WithSuggestions(list) => if list != [] then e.(suggestions := list) else e
    case WithClass(c) => if KnownClass(c) then e.(errorClass := c) else e
    case WithCause(cause) => e.(cause := Some(cause))
  }

  function ApplyAll(e: BrainError, settings: seq<Setting>): BrainError {
    if settings == [] then e else Apply(ApplyAll(e, settings[..|settings| - 1]), settings[|settings| - 1])
  }

  /** newShell. */
  function Shell(env: Env, code: string, now: int): BrainError
    requires env.Valid()
  {
    if code in env.registry then
      BrainError(env.registry[code].errorClass, code, env.registry[code].retryable, "", "", "", "", "", None, None,
                 "", 0, now, 0, [])
    else
      BrainError(env.registry["unknown"].errorClass, "unknown", env.registry["unknown"].retryable, "", "", "",
                 "unregistered error code: " + code, "", None,
                 Some(map["requested_code" := code, "registry_violation" := "true"]), "", 0, now, 0, [])
  }

  function Fingerprint(env: Env, e: BrainError): string {
    env.digest(e.code, e.brainId, if e.cause.Some? then e.cause.value.code else "", e.message)
  }

  function Stamped(env: Env, e: BrainError): BrainError {
    e.(fingerprint := Fingerprint(env, e))
  }

  /** What no option changes: a registered code, or else the unknown code with the requested one
      in the internal detail; the registry's word on retrying, the time, and no brain yet. */
  predicate FromRegistry(env: Env, code: string, now: int, e: BrainError) {
    && e.code == (if code in env.registry then code else "unknown") && e.code in env.registry
    && e.retryable == env.registry[e.code].retryable && e.occurredAt == now && e.attempt == 0 && e.brainId == ""
    && (e.internalOnly.None? <==> code in env.registry)
    && (e.internalOnly.Some? ==>
          "requested_code" in e.internalOnly.value && e.internalOnly.value["requested_code"] == code)
  }

  lemma ShellIs(env: Env, code: string, now: int)
    requires env.Valid()
    ensures FromRegistry(env, code, now, Shell(env, code, now))
    ensures KnownClass(Shell(env, code, now).errorClass)
  {
  }

  lemma ApplyKeeps(env: Env, code: string, now: int, e: BrainError, setting: Setting)
    requires FromRegistry(env, code, now, e)
    ensures FromRegistry(env, code, now, Apply(e, setting))
    ensures KnownClass(e.errorClass) ==> KnownClass(Apply(e, setting).errorClass)
  {
    hide KnownClass;
  }

  method New(env: Env, code: string, settings: seq<Setting>, now: int) returns (e: BrainError)
    requires env.Valid()
    ensures e == Stamped(env, ApplyAll(Shell(env, code, now), settings))
    ensures FromRegistry(env, code, now, e) && KnownClass(e.errorClass)
    ensures e.fingerprint == env.digest(e.code, "", if e.cause.Some? then e.cause.value.code else "", e.message)
  {
    hide Shell, FromRegistry, KnownClass, Apply;
    ShellIs(env, code, now);
    e := Shell(env, code, now);
    for i := 0 to |settings|
      invariant e == ApplyAll(Shell(env, code, now), settings[..i])
      invariant FromRegistry(env, code, now, e)
      invariant KnownClass(e.errorClass)
    {
      ApplyKeeps(env, code, now, e, settings[i]);
      e := Apply(e, settings[i]);
      assert settings[..i + 1][..i] == settings[..i];
    }
    assert settings[..|settings|] == settings;
    StampKeeps(env, code, now, e);
    e := Stamped(env, e);
  }

  lemma StampKeeps(env: Env, code: string, now: int, e: BrainError)
    requires FromRegistry(env, code, now, e)
    ensures FromRegistry(env, code, now, Stamped(env, e)) && e.brainId == ""
  {
  }

  // ----- encoding -----

  datatype CauseEnvelope = CauseEnvelope(errorClass: string, code: string, message: string)

  datatype Envelope = Envelope(
    errorClass: string, retryable: bool, code: string, fingerprint: string, traceId: string, spanId: string,
    message: string, hint: string, cause: Option<CauseEnvelope>, suggestions: seq<string>)

  /** `data` is None when it is absent or does not decode. */
  datatype RpcError = RpcError(code: int, message: string, data: Option<Envelope>)

  function CodeFromNumeric(code: int): string {
    match code
    case -32700 => "frame_parse_error"
    case -32600 => "invalid_params"
    case -32601 => "method_not_found"
    case -32602 => "invalid_params"
    case -32603 => "assertion_failed"
    case -32099 => "shutting_down"
    case -32098 => "frame_too_large"
    case -32097 => "sidecar_hung"
    case -32096 => "brain_overloaded"
    case -32000 => "brain_task_failed"
    case -32800 => "stale_response"
    case _ => "unknown"
  }

  function NumericFromCode(code: string): int {
    if code == "frame_parse_error" then -32700
    else if code == "frame_too_large" then -32098
    else if code == "method_not_found" then -32601
    else if code == "invalid_params" then -32602
    else if code == "shutting_down" then -32099
    else if code == "sidecar_hung" then -32097
    else if code == "brain_overloaded" then -32096
    else -32000
  }

  function SanitizeForWire(e: BrainError): BrainError {
    e.(internalOnly := None, traceId := "", spanId := "",
       cause := match e.cause case None => None case Some(c) => Some(SanitizeForWire(c)))
  }

  /** EncodeErrorToRPCError; the JSON of the envelope stands for itself. */
  function Encode(e: Option<BrainError>): RpcError {
    match e
    case None => RpcError(-32603, "nil brain error", None)
    case Some(err) =>
      var clean := SanitizeForWire(err);
      RpcError(NumericFromCode(clean.code), clean.message,
               Some(Envelope(clean.errorClass, clean.retryable, clean.code, clean.fingerprint, "", "", clean.message,
                             clean.hint,
                             match clean.cause
                             case None => None
                             case Some(c) => Some(CauseEnvelope(c.errorClass, c.code, c.message)),
                             clean.suggestions)))
  }

  // ----- decoding -----

  function Either(first: string, second: string): string {
    if first != "" then first else second
  }

  function ClassOr(errorClass: string, default: string): string {
    if KnownClass(errorClass) then errorClass else default
  }

  function ReceivedCause(env: Env, c: CauseEnvelope, now: int): BrainError
    requires env.Valid()
  {
    var shell := Shell(env, c.code, now);
    var message := Either(c.message, shell.message);
    shell.(message := message, errorClass := ClassOr(c.errorClass, shell.errorClass),
           fingerprint := env.digest(shell.code, "", "", message))
  }

  function ReceivedCode(rpc: RpcError): string {
    if rpc.data.Some? && rpc.data.value.code != "" then rpc.data.value.code else CodeFromNumeric(rpc.code)
  }

  /** The error WrapRPCError builds, field by field. */
  function Received(env: Env, rpc: RpcError, now: int): BrainError
    requires env.Valid()
  {
    var shell := Shell(env, ReceivedCode(rpc), now);
    var message := Either(rpc.message, shell.message);
    match rpc.data
    case None => shell.(message := message, fingerprint := env.digest(shell.code, "", "", message))
    case Some(data) =>
      var cause := match data.cause case None => None case Some(c) => Some(ReceivedCause(env, c, now));
      shell.(message := message, hint := data.hint, traceId := data.traceId, spanId := data.spanId,
             suggestions := data.suggestions,
             errorClass := ClassOr(data.errorClass, shell.errorClass), cause := cause,
             fingerprint := env.digest(shell.code, "", if cause.Some? then cause.value.code else "", message))
  }

  lemma ApplyOne(e: BrainError, settings: seq<Setting>, setting: Setting)
    ensures ApplyAll(e, settings + [setting]) == Apply(ApplyAll(e, settings), setting)
  {
    assert (settings + [setting])[..|settings|] == settings;
  }

  method WrapCause(env: Env, c: CauseEnvelope, now: int) returns (cause: BrainError)
    requires env.Valid()
    ensures cause == ReceivedCause(env, c, now)
  {
    cause := New(env, c.code, [WithMessage(c.message)], now);
    ApplyOne(Shell(env, c.code, now), [], WithMessage(c.message));
    assert [] + [WithMessage(c.message)] == [WithMessage(c.message)];
    if c.errorClass != "" {
      cause := Apply(cause, WithClass(c.errorClass));
    }
  }

  method WrapRpcError(env: Env, rpc: Option<RpcError>, now: int) returns (e: Option<BrainError>)
    requires env.Valid()
    ensures e == match rpc case None => None case Some(error) => Some(Received(env, error, now))
  {
    if rpc.None? {
      return None;
    }
    var code := ReceivedCode(rpc.value);
    var settings := [WithMessage(rpc.value.message)];
    if rpc.value.data.Some? {
      var more := DataSettings(env, rpc.value.data.value, Shell(env, code, now), rpc.value.message, now);
      settings := more;
    } else {
      ApplyOne(Shell(env, code, now), [], WithMessage(rpc.value.message));
      assert [] + settings == settings;
    }
    var built := New(env, code, settings, now);
    e := Some(built);
  }

  /** The option list WrapRPCError collects from a decoded envelope. */
  method DataSettings(env: Env, data: Envelope, ghost shell: BrainError, message: string, now: int)
    returns (settings: seq<Setting>)
    requires env.Valid()
    requires shell.hint == shell.traceId == shell.spanId == "" && shell.suggestions == [] && shell.cause == None
    ensures ApplyAll(shell, settings) ==
            shell.(message := Either(message, shell.message), hint := data.hint, traceId := data.traceId,
                   spanId := data.spanId,
                   suggestions := data.suggestions, errorClass := ClassOr(data.errorClass, shell.errorClass),
                   cause := match data.cause case None => None case Some(c) => Some(ReceivedCause(env, c, now)))
  {
    settings := [];
    assert ApplyAll(shell, settings) == shell;
    settings := AddTexts(shell, settings, message, data);
    settings := AddLists(shell, settings, data);
    if data.cause.Some? {
      var cause := WrapCause(env, data.cause.value, now);
      settings := Add(shell, settings, true, WithCause(cause));
    }
  }

  method AddTexts(ghost shell: BrainError, settings: seq<Setting>, message: string, data: Envelope)
    returns (r: seq<Setting>)
    requires var b := ApplyAll(shell, settings); b.hint == b.traceId == b.spanId == ""
    ensures var b := ApplyAll(shell, settings);
            ApplyAll(shell, r) ==
            b.(message := Either(message, b.message), hint := data.hint, traceId := data.traceId, spanId := data.spanId)
  {
    hide ApplyAll;
    r := Add(shell, settings, true, WithMessage(message));
    r := Add(shell, r, data.hint != "", WithHint(data.hint));
    r := Add(shell, r, data.traceId != "", WithTraceId(data.traceId));
    r := Add(shell, r, data.spanId != "", WithSpanId(data.spanId));
  }

  method AddLists(ghost shell: BrainError, settings: seq<Setting>, data: Envelope) returns (r: seq<Setting>)
    requires ApplyAll(shell, settings).suggestions == []
    ensures var b := ApplyAll(shell, settings);
            ApplyAll(shell, r) ==
            b.(suggestions := data.suggestions, errorClass := ClassOr(data.errorClass, b.errorClass))
  {
    hide ApplyAll;
    r := Add(shell, settings, data.suggestions != [], WithSuggestions(data.suggestions));
    r := Add(shell, r, data.errorClass != "", WithClass(data.errorClass));
  }

  /** Appends an option; one that is left out would have changed nothing. */
  method Add(ghost shell: BrainError, settings: seq<Setting>, needed: bool, setting: Setting) returns (r: seq<Setting>)
    requires !needed ==> Apply(ApplyAll(shell, settings), setting) == ApplyAll(shell, settings)
    ensures r == if needed then settings + [setting] else settings
    ensures ApplyAll(shell, r) == Apply(ApplyAll(shell, settings), setting)
  {
    if needed {
      ApplyOne(shell, settings, setting);
      r := settings + [setting];
    } else {
      r := settings;
    }
  }

  // ----- trips -----

  lemma SanitizerKeeps(e: BrainError)
    ensures var s := SanitizeForWire(e);
            && s.code == e.code && s.errorClass == e.errorClass && s.message == e.message && s.hint == e.hint
            && s.retryable == e.retryable && s.fingerprint == e.fingerprint
            && s.suggestions == e.suggestions && (s.cause.Some? <==> e.cause.Some?)
            && (e.cause.Some? ==> s.cause.value == SanitizeForWire(e.cause.value))
  {
  }

  /** The envelope of an error, its cause included, in terms of the error itself. */
  lemma EncodedFields(e: BrainError)
    ensures var r := Encode(Some(e));
            && r.code == NumericFromCode(e.code) && r.message == e.message && r.data.Some?
            && r.data.value.code == e.code && r.data.value.errorClass == e.errorClass && r.data.value.hint == e.hint
            && r.data.value.traceId == "" && r.data.value.spanId == "" && r.data.value.suggestions == e.suggestions
            && r.data.value.retryable == e.retryable && r.data.value.fingerprint == e.fingerprint
            && r.data.value.message == e.message
            && r.data.value.cause ==
               match e.cause case None => None case Some(c) => Some(CauseEnvelope(c.errorClass, c.code, c.message))
  {
    SanitizerKeeps(e);
    if e.cause.Some? {
      SanitizerKeeps(e.cause.value);
    }
    hide SanitizeForWire;
  }

  /** Encoded by one process and wrapped by the other. */
  function Trip(env: Env, e: Option<BrainError>, now: int): BrainError
    requires env.Valid()
  {
    Received(env, Encode(e), now)
  }

  /** The error without its timestamps and its internal-only detail. */
  function Timeless(e: BrainError): BrainError {
    e.(occurredAt := 0, internalOnly := None,
       cause := match e.cause case None => None case Some(c) => Some(Timeless(c)))
  }

  /** A second trip changes nothing but timestamps and internal-only detail. */
  lemma SecondTripChangesNothing(env: Env, e: Option<BrainError>, now: int, later: int)
    requires env.Valid()
    ensures Timeless(Trip(env, Some(Trip(env, e, now)), later)) == Timeless(Trip(env, e, now))
  {
    var once := Trip(env, e, now);
    EncodedFields(once);
    hide Encode, SanitizeForWire;
    var twice := Trip(env, Some(once), later);
    assert once.code in env.registry && KnownClass(once.errorClass);
    if once.cause.Some? {
      assert once.cause.value.code in env.registry && KnownClass(once.cause.value.errorClass);
      assert twice.cause.Some? && Timeless(twice.cause.value) == Timeless(once.cause.value);
    }
  }

  /** What the first trip keeps, field by field, and exactly when. */
  lemma FirstTripKeeps(env: Env, e: BrainError, now: int)
    requires env.Valid()
    ensures var r := Trip(env, Some(e), now);
            && (r.code == e.code <==> e.code in env.registry)
            && (r.errorClass == e.errorClass <==> KnownClass(e.errorClass))
            && (r.message == e.message <==> e.message != "" || e.code in env.registry || e.code == "")
            && r.hint == e.hint && r.suggestions == e.suggestions
            && r.retryable == env.registry[r.code].retryable
            && r.traceId == r.spanId == r.brainId == ""
            && (r.cause.Some? <==> e.cause.Some?)
            && (e.cause.Some? ==>
                  var c, rc := e.cause.value, r.cause.value;
                  && (rc.code == c.code <==> c.code in env.registry)
                  && (rc.errorClass == c.errorClass <==> KnownClass(c.errorClass))
                  && (rc.message == c.message <==> c.message != "" || c.code in env.registry)
                  && rc.cause == None)
  {
    EncodedFields(e);
    assert CodeFromNumeric(-32000) == "brain_task_failed";
    hide Encode, SanitizeForWire, CodeFromNumeric;
    assert |"unregistered error code: " + e.code| > 0;
    if e.cause.Some? {
      assert |"unregistered error code: " + e.cause.value.code| > 0;
    }
  }

  /** Remark: a nil error arrives as a failed assertion. */
  lemma NilArrives(env: Env, now: int)
    requires env.Valid()
    ensures var r := Trip(env, None, now);
            r.code == "assertion_failed" && r.message == "nil brain error" && r.cause == None
  {
  }

  /** Remark: the numeric codes lose nothing exactly for the codes with a slot of their own. */
  lemma NumericRoundTrip(code: string, numeric: int)
    ensures CodeFromNumeric(NumericFromCode(code)) == code <==>
            code in {"frame_parse_error", "frame_too_large", "method_not_found", "invalid_params", "shutting_down",
                     "sidecar_hung", "brain_overloaded", "brain_task_failed"}
    ensures NumericFromCode(CodeFromNumeric(numeric)) == numeric <==>
            numeric in {-32700, -32098, -32601, -32602, -32099, -32097, -32096, -32000}
    ensures CodeFromNumeric(-32600) == "invalid_params" && CodeFromNumeric(-32603) == "assertion_failed"
            && CodeFromNumeric(-32800) == "stale_response"
    ensures CodeFromNumeric(numeric) == "unknown" <==>
            numeric !in {-32700, -32600, -32601, -32602, -32603, -32099, -32098, -32097, -32096, -32000, -32800}
  {
  }

  /** Nothing internal is left anywhere on the chain. */
  predicate Clean(e: BrainError) {
    e.internalOnly == None && e.traceId == "" && e.spanId == "" && (e.cause.Some? ==> Clean(e.cause.value))
  }

  /** Two errors differ at most in internal-only detail and trace ids, along the chain. */
  predicate SameToPeers(e: BrainError, f: BrainError) {
    && e.(internalOnly := None, traceId := "", spanId := "", cause := None) ==
       f.(internalOnly := None, traceId := "", spanId := "", cause := None)
    && (e.cause.Some? <==> f.cause.Some?)
    && (e.cause.Some? && f.cause.Some? ==> SameToPeers(e.cause.value, f.cause.value))
  }

  /** The sanitizer cleans the whole chain, keeps everything else, and forgets exactly the
      internal detail: errors that differ in nothing else become the same wire error. */
  lemma {:induction false} SanitizerForgetsExactly(e: BrainError, f: BrainError)
    ensures Clean(SanitizeForWire(e)) && SameToPeers(e, SanitizeForWire(e))
    ensures SanitizeForWire(e) == SanitizeForWire(f) <==> SameToPeers(e, f)
    ensures SameToPeers(e, f) ==> Encode(Some(e)) == Encode(Some(f))
    decreases e
  {
    if e.cause.Some? {
      SanitizerForgetsExactly(e.cause.value, if f.cause.Some? then f.cause.value else e.cause.value);
    }
  }
}
