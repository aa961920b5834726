/**
 * The protocol cores above a transport: the server's dispatcher with its in-flight set, the
 * client's unwrapping of replies, and the theorem that a remote call means the local one.
 */
module Protocol {
  import opened Wrappers
  import opened JsonValues
  import opened Envelope

  /** Schema libraries are not part of this model: a schema is any function to a value or to error data. */
  datatype Validation = Valid(value: Json) | Invalid(data: Json)

  datatype HandlerOutcome =
    | Returned(value: Json)
    | RaisedRpcError(code: Number, message: string, data: Json)
    | RaisedOther(data: Json)

  /** A definition without a result schema declares a notification. */
  datatype MethodDef = MethodDef(params: Json -> Validation, result: Option<Json -> Validation>)

  /**
   * `handlers` holds whatever looking a name up in the handlers finds, which in TypeScript includes
   * inherited members. `missingMemberData` is what the language reports as error data when `.params.parse` is read off
   * something that is not a method definition.
   */
  datatype ServiceEntry = ServiceEntry(
    methods: map<string, MethodDef>,
    handlers: map<string, Json -> HandlerOutcome>,
    missingMemberData: Json)

  const METHOD_NOT_FOUND: int := -32601
  const INVALID_PARAMS: int := -32602
  const INTERNAL_ERROR: int := -32603

  /** The members every JavaScript object inherits whose names satisfy METHOD_RE. */
  const INHERITED: set<string> := {"constructor", "hasOwnProperty", "isPrototypeOf", "propertyIsEnumerable",
                                   "toLocaleString", "toString", "valueOf"}

  /** Everything that an object inherits from `Object.prototype`. */
  const OBJECT_PROTOTYPE: set<string> := {
    "__defineGetter__", "__defineSetter__", "__lookupGetter__", "__lookupSetter__", "__proto__", "constructor",
    "hasOwnProperty", "isPrototypeOf", "propertyIsEnumerable", "toLocaleString", "toString", "valueOf"}

  /** No method name starts with an underscore. */
  lemma InheritedMethodNames(name: string)
    requires IsMethod(name)
    ensures name in INHERITED <==> name in OBJECT_PROTOTYPE
  {
  }

  function NotFound(id: Json): Json {
    BuildErrorResponse(id, Int(METHOD_NOT_FOUND), "Method not found", Null)
  }

  function EnvelopeId(env: Envelope): Json {
    if env.Request? then env.id else Null
  }

  // ---------------------------------------------------------------------------------------
  // The dispatcher, in its two spans around `await work`.
  // ---------------------------------------------------------------------------------------

  /** Up to the handler's invocation: a reply (or none) at once, or a handler run. */
  datatype Start = Answer(reply: Option<Json>) | Run(methodName: string, params: Json)

  /** Only requests are answered. */
  function IfRequest(env: Envelope, reply: Json): Start {
    Answer(if env.Request? then Some(reply) else None)
  }

  function BeginDispatch(lang: Language, entry: Option<ServiceEntry>, env: Envelope): Start {
    if lang.TypeScript? && entry.None? then
      // Anything but a notification is answered here, a response included.
      Answer(if env.Notification? then None else Some(NotFound(EnvelopeId(env))))
    else if env.SuccessResponse? || env.ErrorResponse? then Answer(None)
    else if entry.None? then IfRequest(env, NotFound(EnvelopeId(env)))
    else
      var service := entry.value;
      var name := env.methodName;
      if name !in service.methods then
        if lang.TypeScript? && name in INHERITED then
          // `methods[name]` finds an inherited function, whose `params.parse` then throws.
          IfRequest(env, BuildErrorResponse(EnvelopeId(env), Int(INVALID_PARAMS), "Invalid params", service.missingMemberData))
        else IfRequest(env, NotFound(EnvelopeId(env)))
      else
        match service.methods[name].params(env.params)
        case Invalid(data) =>
          IfRequest(env, BuildErrorResponse(EnvelopeId(env), Int(INVALID_PARAMS), "Invalid params", data))
        case Valid(params) =>
          if name in service.handlers then Run(name, params)
          else IfRequest(env, NotFound(EnvelopeId(env)))
  }

  /** After the handler run has settled. */
  function FinishDispatch(def: MethodDef, env: Envelope, outcome: HandlerOutcome): Option<Json> {
    if !env.Request? then None
    else
      match outcome
      case RaisedRpcError(code, message, data) => Some(BuildErrorResponse(env.id, code, message, data))
      case RaisedOther(data) => Some(BuildErrorResponse(env.id, Int(INTERNAL_ERROR), "Internal error", data))
      case Returned(value) =>
        match def.result
        case None => None
        case Some(schema) =>
          match schema(value)
          case Valid(result) => Some(BuildSuccessResponse(env.id, result))
          case Invalid(data) =>
            Some(BuildErrorResponse(env.id, Int(INTERNAL_ERROR), "Result validation failed", data))
  }

  /** A whole dispatch, with the handler's run in the middle. */
  function Dispatch(lang: Language, entry: Option<ServiceEntry>, env: Envelope): Option<Json> {
    match BeginDispatch(lang, entry, env)
    case Answer(reply) => reply
    case Run(name, params) =>
      FinishDispatch(entry.value.methods[name], env, entry.value.handlers[name](params))
  }

  /** What has to hold for a handler to run, and on what it then runs: on a notification as on a request. */
  lemma HandlerRunsExactly(lang: Language, entry: Option<ServiceEntry>, env: Envelope, name: string, params: Json)
    ensures BeginDispatch(lang, entry, env) == Run(name, params) <==>
            && (env.Request? || env.Notification?) && name == env.methodName
            && entry.Some? && name in entry.value.methods && name in entry.value.handlers
            && entry.value.methods[name].params(env.params) == Valid(params)
  {
  }

  /** The responses of JSON-RPC 2.0, section 5, spelled out. */
  function ErrorReply(id: Json, code: Json, message: string, data: Json): Json {
    Obj(map["jsonrpc" := Str("2.0"), "id" := id,
            "error" := Obj(map["code" := code, "message" := Str(message), "data" := data])])
  }

  function ResultReply(id: Json, result: Json): Json {
    Obj(map["jsonrpc" := Str("2.0"), "id" := id, "result" := result])
  }

  /** A request that no handler run answers, with the codes of section 5.1. */
  lemma RefusalsAreExact(lang: Language, entry: Option<ServiceEntry>, env: Envelope)
    requires env.Request?
    ensures entry.None? ==> Dispatch(lang, entry, env) == Some(ErrorReply(env.id, Int(-32601), "Method not found", Null))
    ensures entry.Some? && env.methodName !in entry.value.methods ==>
              Dispatch(lang, entry, env)
              == Some(if lang.TypeScript? && env.methodName in INHERITED
                      then ErrorReply(env.id, Int(-32602), "Invalid params", entry.value.missingMemberData)
                      else ErrorReply(env.id, Int(-32601), "Method not found", Null))
    ensures entry.Some? && env.methodName in entry.value.methods ==>
              match entry.value.methods[env.methodName].params(env.params)
              case Invalid(data) =>
                Dispatch(lang, entry, env) == Some(ErrorReply(env.id, Int(-32602), "Invalid params", data))
              case Valid(_) =>
                env.methodName !in entry.value.handlers ==>
                  Dispatch(lang, entry, env) == Some(ErrorReply(env.id, Int(-32601), "Method not found", Null))
  {
  }

  /** A request that a handler run answers. */
  lemma HandlerAnswersExactly(lang: Language, entry: ServiceEntry, env: Envelope, params: Json)
    requires env.Request? && env.methodName in entry.methods && env.methodName in entry.handlers
    requires entry.methods[env.methodName].params(env.params) == Valid(params)
    ensures var reply := Dispatch(lang, Some(entry), env);
            match entry.handlers[env.methodName](params)
            case RaisedRpcError(code, message, data) => reply == Some(ErrorReply(env.id, code, message, data))
            case RaisedOther(data) => reply == Some(ErrorReply(env.id, Int(-32603), "Internal error", data))
            case Returned(value) =>
              match entry.methods[env.methodName].result
              case None => reply == None
              case Some(schema) =>
                match schema(value)
                case Valid(result) => reply == Some(ResultReply(env.id, result))
                case Invalid(data) => reply == Some(ErrorReply(env.id, Int(-32603), "Result validation failed", data))
  {
  }

  predicate IsResponseTo(reply: Json, id: Json) {
    && reply.Obj?
    && Get(reply.members, "jsonrpc") == Str("2.0")
    && "id" in reply.members && reply.members["id"] == id
    && ("result" in reply.members <==> "error" !in reply.members)
    && "method" !in reply.members
  }

  /** The handler of a notification-declared method ran to success. */
  ghost predicate SucceededSilently(entry: Option<ServiceEntry>, env: Envelope) {
    && env.Request? && entry.Some?
    && env.methodName in entry.value.methods && env.methodName in entry.value.handlers
    && var def := entry.value.methods[env.methodName];
       def.result.None? && def.params(env.params).Valid?
       && entry.value.handlers[env.methodName](def.params(env.params).value).Returned?
  }

  lemma RequestIsAnswered(lang: Language, entry: Option<ServiceEntry>, env: Envelope)
    requires env.Request?
    ensures Dispatch(lang, entry, env).None? <==> SucceededSilently(entry, env)
    ensures Dispatch(lang, entry, env).Some? ==> IsResponseTo(Dispatch(lang, entry, env).value, env.id)
  {
  }

  /**
   * JSON-RPC 2.0, sections 4.1 and 5: a notification is never answered; a request is answered with its
   * own id and exactly one of result and error, except when a notification-declared method succeeded.
   */
  lemma DispatcherContract(lang: Language, entry: Option<ServiceEntry>, env: Envelope)
    ensures env.Notification? ==> Dispatch(lang, entry, env).None?
    ensures env.Request? ==>
              (Dispatch(lang, entry, env).None? <==> SucceededSilently(entry, env))
    ensures env.Request? && Dispatch(lang, entry, env).Some? ==>
              IsResponseTo(Dispatch(lang, entry, env).value, env.id)
    ensures env.SuccessResponse? || env.ErrorResponse? ==>
              Dispatch(lang, entry, env)
              == if lang.TypeScript? && entry.None? then Some(ErrorReply(Null, Int(-32601), "Method not found", Null)) else None
  {
    if env.Request? { RequestIsAnswered(lang, entry, env); }
  }

  // ---------------------------------------------------------------------------------------
  // Meaning of a call.
  // ---------------------------------------------------------------------------------------

  datatype CallOutcome =
    | Value(value: Json)
    | RpcFailure(code: Number, message: string, data: Json)
    | ProtocolFailure            // the reply is not an acceptable response
    | Refused                    // the name was rejected before anything was sent
    | NoReply                    // the caller waits for its timeout

  /** What calling the handler in place would give, validated on the way in and out. */
  function LocalCall(serverLang: Language, entry: Option<ServiceEntry>, name: string, params: Json): CallOutcome {
    if entry.None? then RpcFailure(Int(METHOD_NOT_FOUND), "Method not found", Null)
    else if name !in entry.value.methods then
      if serverLang.TypeScript? && name in INHERITED
      then RpcFailure(Int(INVALID_PARAMS), "Invalid params", entry.value.missingMemberData)
      else RpcFailure(Int(METHOD_NOT_FOUND), "Method not found", Null)
    else
      var def := entry.value.methods[name];
      match def.params(Defaulted(serverLang, params))
      case Invalid(data) => RpcFailure(Int(INVALID_PARAMS), "Invalid params", data)
      case Valid(checked) =>
        if name !in entry.value.handlers then RpcFailure(Int(METHOD_NOT_FOUND), "Method not found", Null)
        else
          match entry.value.handlers[name](checked)
          case RaisedRpcError(code, message, data) => RpcFailure(code, message, data)
          case RaisedOther(data) => RpcFailure(Int(INTERNAL_ERROR), "Internal error", data)
          case Returned(value) =>
            match def.result
            case None => NoReply
            case Some(schema) =>
              match schema(value)
              case Valid(result) => Value(result)
              case Invalid(data) => RpcFailure(Int(INTERNAL_ERROR), "Result validation failed", data)
  }

  /** `call` once a reply envelope has arrived. */
  function Unwrap(clientLang: Language, reply: Json): CallOutcome {
    match Parse(clientLang, reply)
    case Success(SuccessResponse(_, result)) => Value(result)
    case Success(ErrorResponse(_, code, message, data)) =>
      if IsNumber(code) then RpcFailure(code, message, data) else ProtocolFailure
    case _ => ProtocolFailure
  }

  /** The whole path: check names, build, parse, dispatch, match the id, parse, unwrap. */
  function RemoteCall(clientLang: Language, serverLang: Language, entry: Option<ServiceEntry>,
                      service: string, name: string, params: Json, id: string): CallOutcome
  {
    if !AcceptsService(clientLang, service) || !AcceptsMethod(clientLang, name) then Refused
    else
      match Parse(serverLang, BuildRequest(service + "." + name, params, Str(id)))
      case Failure(_) => NoReply   // poison: acknowledged and dropped
      case Success(env) =>
        match Dispatch(serverLang, entry, env)
        case None => NoReply
        case Some(reply) =>
          if reply.Obj? && Get(reply.members, "id") == Str(id) then Unwrap(clientLang, reply) else NoReply
  }

  /** A Python client takes an error response whose code is fractional for a malformed one. */
  predicate CodeLostOnPythonClient(clientLang: Language, local: CallOutcome) {
    clientLang.Python? && local.RpcFailure? && local.code.Float?
  }

  /** The reply that stands for a local outcome on the wire. */
  function Encode(local: CallOutcome, id: string): Option<Json> {
    match local
    case Value(result) => Some(BuildSuccessResponse(Str(id), result))
    case RpcFailure(code, message, data) => Some(BuildErrorResponse(Str(id), code, message, data))
    case _ => None
  }

  lemma DispatchEncodesLocalCall(serverLang: Language, entry: Option<ServiceEntry>, env: Envelope, params: Json, id: string)
    requires env.Request? && env.id == Str(id) && env.params == Defaulted(serverLang, params)
    ensures var local := LocalCall(serverLang, entry, env.methodName, params);
            && Dispatch(serverLang, entry, env) == Encode(local, id)
            && !local.ProtocolFailure? && !local.Refused?
  {
  }

  lemma UnwrapInvertsEncode(clientLang: Language, local: CallOutcome, id: string)
    requires local.Value? || local.RpcFailure?
    ensures var reply := Encode(local, id).value;
            && Get(reply.members, "id") == Str(id)
            && Unwrap(clientLang, reply)
               == if CodeLostOnPythonClient(clientLang, local) then ProtocolFailure else local
  {
  }

  /** For every pair of languages, every service, and all JSON params, the remote call is the local call. */
  lemma RemoteCallMeansLocalCall(clientLang: Language, serverLang: Language, entry: Option<ServiceEntry>,
                                 service: string, name: string, params: Json, id: string)
    requires IsService(service) && IsMethod(name)
    ensures var local := LocalCall(serverLang, entry, name, params);
            RemoteCall(clientLang, serverLang, entry, service, name, params, id)
            == if CodeLostOnPythonClient(clientLang, local) then ProtocolFailure else local
  {
    ParseInvertsBuildRequest(serverLang, service, name, params, Str(id));
    var env := Parse(serverLang, BuildRequest(service + "." + name, params, Str(id))).value;
    DispatchEncodesLocalCall(serverLang, entry, env, params, id);
    var local := LocalCall(serverLang, entry, name, params);
    if local.Value? || local.RpcFailure? {
      UnwrapInvertsEncode(clientLang, local, id);
    }
  }

  /** A name outside the grammar never reaches a handler from a TypeScript client. */
  lemma TypeScriptClientRefusesExactly(serverLang: Language, entry: Option<ServiceEntry>,
                                       service: string, name: string, params: Json, id: string)
    ensures RemoteCall(TypeScript, serverLang, entry, service, name, params, id) == Refused
            <==> !IsService(service) || !IsMethod(name)
  {
  }

  /**
   * A method the contract does not declare answers "method not found" exactly when the server is not
   * TypeScript or the name is not one that every JavaScript object inherits.
   */
  lemma UndeclaredMethodIsNotFound(clientLang: Language, serverLang: Language, entry: ServiceEntry,
                                   service: string, name: string, params: Json, id: string)
    requires IsService(service) && IsMethod(name) && name !in entry.methods
    ensures RemoteCall(clientLang, serverLang, Some(entry), service, name, params, id)
            == RpcFailure(Int(METHOD_NOT_FOUND), "Method not found", Null)
            <==> serverLang.Python? || name !in INHERITED
  {
    RemoteCallMeansLocalCall(clientLang, serverLang, Some(entry), service, name, params, id);
  }

  // ---------------------------------------------------------------------------------------
  // The server core: registration, and the set of handler runs in flight.
  // ---------------------------------------------------------------------------------------

  datatype HandlerRun = HandlerRun(entry: ServiceEntry, env: Envelope, methodName: string, params: Json)

  class RpcServerCore {
    var services: map<string, ServiceEntry>
    var inflight: set<nat>
    /** Every handler run ever invoked, by number, and which of them have settled. */
    ghost var runs: map<nat, HandlerRun>
    ghost var settled: set<nat>
    var next: nat

    ghost predicate Valid()
      reads this
    {
      && inflight == runs.Keys - settled
      && settled <= runs.Keys
      && (forall r | r in runs :: r < next)
      && (forall r | r in runs ::
            var run := runs[r];
            BeginDispatch(TypeScript, Some(run.entry), run.env) == Run(run.methodName, run.params))
    }

    constructor ()
      ensures Valid() && services == map[] && inflight == {} && runs == map[]
    {
      services, inflight, runs, settled, next := map[], {}, map[], {}, 0;
    }

    method RegisterService(name: string, entry: ServiceEntry) returns (ok: bool)
      requires Valid()
      modifies this`services
      ensures Valid()
      ensures ok <==> name !in old(services)
      ensures services == if ok then old(services)[name := entry] else old(services)
    {
      ok := name !in services;
      if ok { services := services[name := entry]; }
    }

    /** The span up to `await work`: answers at once, or adds exactly one run to the in-flight set. */
    method Begin(service: string, env: Envelope) returns (answer: Option<Json>, run: Option<nat>)
      requires Valid()
      modifies this`inflight, this`runs, this`next
      ensures Valid()
      ensures var entry := if service in services then Some(services[service]) else None;
              match BeginDispatch(TypeScript, entry, env)
              case Answer(reply) => answer == reply && run.None? && inflight == old(inflight) && runs == old(runs)
              case Run(name, params) =>
                && answer.None? && run.Some? && run.value !in old(runs)
                && inflight == old(inflight) + {run.value}
                && runs == old(runs)[run.value := HandlerRun(entry.value, env, name, params)]
      ensures run.Some? <==>
                && (env.Request? || env.Notification?)
                && service in services && env.methodName in services[service].methods
                && env.methodName in services[service].handlers
                && services[service].methods[env.methodName].params(env.params).Valid?
      ensures run.Some? ==>
                && run.value in runs && run.value in inflight
                && runs[run.value].methodName == env.methodName
                && services[service].methods[env.methodName].params(env.params) == Validation.Valid(runs[run.value].params)
    {
      answer, run := None, None;
      if service !in services {
        if !env.Notification? { answer := Some(NotFound(EnvelopeId(env))); }
        return;
      }
      var entry := services[service];
      if env.SuccessResponse? || env.ErrorResponse? { return; }
      var id := EnvelopeId(env);
      if env.methodName !in entry.methods {
        if env.Request? {
          answer := Some(if env.methodName in INHERITED
                         then BuildErrorResponse(id, Int(INVALID_PARAMS), "Invalid params", entry.missingMemberData)
                         else NotFound(id));
        }
        return;
      }
      var parsed := entry.methods[env.methodName].params(env.params);
      if parsed.Invalid? {
        if env.Request? { answer := Some(BuildErrorResponse(id, Int(INVALID_PARAMS), "Invalid params", parsed.data)); }
        return;
      }
      if env.methodName !in entry.handlers {
        if env.Request? { answer := Some(NotFound(id)); }
        return;
      }
      run := Some(next);
      inflight := inflight + {next};
      runs := runs[next := HandlerRun(entry, env, env.methodName, parsed.value)];
      next := next + 1;
    }

    /** The span after `await work`, whatever other dispatches did meanwhile. */
    method Finish(run: nat, ghost was: HandlerRun, def: MethodDef, env: Envelope, outcome: HandlerOutcome)
      returns (reply: Option<Json>)
      requires Valid()
      requires run in runs && run !in settled && runs[run] == was
      requires env == was.env && def == was.entry.methods[was.methodName]
      modifies this`inflight, this`settled
      ensures Valid()
      ensures inflight == old(inflight) - {run} && settled == old(settled) + {run}
      ensures reply == FinishDispatch(def, env, outcome)
      ensures outcome == was.entry.handlers[was.methodName](was.params) ==>
                reply == Dispatch(TypeScript, Some(was.entry), env)
    {
      inflight := inflight - {run};
      settled := settled + {run};
      if !env.Request? { return None; }
      if outcome.RaisedRpcError? { return Some(BuildErrorResponse(env.id, outcome.code, outcome.message, outcome.data)); }
      if outcome.RaisedOther? { return Some(BuildErrorResponse(env.id, Int(INTERNAL_ERROR), "Internal error", outcome.data)); }
      if def.result.None? { return None; }
      var validated := def.result.value(outcome.value);
      if validated.Invalid? {
        return Some(BuildErrorResponse(env.id, Int(INTERNAL_ERROR), "Result validation failed", validated.data));
      }
      return Some(BuildSuccessResponse(env.id, validated.value));
    }
  }
}
