/**
 * The JSON-RPC 2.0 envelope: the two name grammars, the TypeScript parser, the Python parser
 * and the four builders that both languages share.
 */
module Envelope {
  import opened Wrappers
  import opened JsonValues

  datatype Language = TypeScript | Python

  // ---------------------------------------------------------------------------------------
  // Names. SERVICE_RE is ^[a-z][a-z0-9-]*$ and METHOD_RE is ^[a-z][a-zA-Z0-9]*$.
  // ---------------------------------------------------------------------------------------

  predicate IsLower(c: char) { 'a' <= c <= 'z' }

  predicate IsUpper(c: char) { 'A' <= c <= 'Z' }

  predicate IsDigit(c: char) { '0' <= c <= '9' }

  predicate ServiceTail(s: string) {
    s == "" || ((IsLower(s[0]) || IsDigit(s[0]) || s[0] == '-') && ServiceTail(s[1..]))
  }

  predicate MethodTail(s: string) {
    s == "" || ((IsLower(s[0]) || IsUpper(s[0]) || IsDigit(s[0])) && MethodTail(s[1..]))
  }

  predicate IsService(s: string) {
    s != "" && IsLower(s[0]) && ServiceTail(s[1..])
  }

  predicate IsMethod(s: string) {
    s != "" && IsLower(s[0]) && MethodTail(s[1..])
  }

  /** Python's `$` also matches just before one final line feed. */
  predicate BeforeFinalNewline(s: string, p: string -> bool) {
    p(s) || (s != "" && s[|s| - 1] == '\n' && p(s[..|s| - 1]))
  }

  predicate AcceptsService(lang: Language, s: string) {
    if lang.TypeScript? then IsService(s) else BeforeFinalNewline(s, IsService)
  }

  predicate AcceptsMethod(lang: Language, s: string) {
    if lang.TypeScript? then IsMethod(s) else BeforeFinalNewline(s, IsMethod)
  }

  lemma {:induction false} ServiceTailChars(s: string)
    ensures ServiceTail(s) ==> '.' !in s && '\n' !in s && ':' !in s
  {
    if s != "" && ServiceTail(s) {
      ServiceTailChars(s[1..]);
      assert s == [s[0]] + s[1..];
    }
  }

  lemma {:induction false} MethodTailChars(s: string)
    ensures MethodTail(s) ==> '.' !in s && '\n' !in s && '_' !in s
  {
    if s != "" && MethodTail(s) {
      MethodTailChars(s[1..]);
      assert s == [s[0]] + s[1..];
    }
  }

  /** A service name holds no dot, line feed or colon. */
  lemma ServiceChars(s: string)
    requires IsService(s)
    ensures '.' !in s && '\n' !in s && ':' !in s
  {
    ServiceTailChars(s[1..]);
    assert s == [s[0]] + s[1..];
  }

  /** A method name holds no dot, line feed or underscore. */
  lemma MethodChars(s: string)
    requires IsMethod(s)
    ensures '.' !in s && '\n' !in s && '_' !in s
  {
    MethodTailChars(s[1..]);
    assert s == [s[0]] + s[1..];
  }

  predicate ServiceChar(c: char) { 'a' <= c <= 'z' || '0' <= c <= '9' || c == '-' }

  predicate MethodChar(c: char) { 'a' <= c <= 'z' || 'A' <= c <= 'Z' || '0' <= c <= '9' }

  predicate Every(s: string, from: nat, p: char -> bool) {
    forall k | from <= k < |s| :: p(s[k])
  }

  lemma EveryOfTail(s: string, p: char -> bool)
    requires s != ""
    ensures Every(s, 1, p) <==> Every(s[1..], 0, p)
  {
    assert forall k | 0 < k < |s| :: s[k] == s[1..][k - 1];
    assert forall k | 0 <= k < |s| - 1 :: s[1..][k] == s[k + 1];
  }

  lemma {:induction false} ServiceTailIsExact(s: string)
    ensures ServiceTail(s) <==> Every(s, 0, ServiceChar)
  {
    if s != "" {
      ServiceTailIsExact(s[1..]);
      EveryOfTail(s, ServiceChar);
    }
  }

  lemma {:induction false} MethodTailIsExact(s: string)
    ensures MethodTail(s) <==> Every(s, 0, MethodChar)
  {
    if s != "" {
      MethodTailIsExact(s[1..]);
      EveryOfTail(s, MethodChar);
    }
  }

  /** The two grammars, character by character. */
  lemma NamesAreExact(s: string)
    ensures IsService(s) <==>
            && |s| > 0 && 'a' <= s[0] <= 'z'
            && forall k | 1 <= k < |s| :: 'a' <= s[k] <= 'z' || '0' <= s[k] <= '9' || s[k] == '-'
    ensures IsMethod(s) <==>
            && |s| > 0 && 'a' <= s[0] <= 'z'
            && forall k | 1 <= k < |s| :: 'a' <= s[k] <= 'z' || 'A' <= s[k] <= 'Z' || '0' <= s[k] <= '9'
  {
    if s != "" {
      ServiceTailIsExact(s[1..]);
      EveryOfTail(s, ServiceChar);
      MethodTailIsExact(s[1..]);
      EveryOfTail(s, MethodChar);
    }
  }

  /** Python accepts the same names, and each of them followed by one line feed. */
  lemma AcceptedNamesAreExact(lang: Language, s: string)
    ensures AcceptsService(lang, s) <==> IsService(s) || (lang.Python? && exists t :: s == t + "\n" && IsService(t))
    ensures AcceptsMethod(lang, s) <==> IsMethod(s) || (lang.Python? && exists t :: s == t + "\n" && IsMethod(t))
  {
    if s != "" && s[|s| - 1] == '\n' { assert s == s[..|s| - 1] + "\n"; }
    assert forall t | s == t + "\n" :: t == s[..|s| - 1] && s[|s| - 1] == '\n';
  }

  /** JavaScript's `indexOf` for one character. */
  function IndexOf(s: string, c: char): (i: int)
    ensures -1 <= i < |s|
    ensures i < 0 ==> c !in s
    ensures 0 <= i ==> s[i] == c && c !in s[..i]
  {
    if s == "" then -1
    else if s[0] == c then 0
    else
      var i := IndexOf(s[1..], c);
      assert s == [s[0]] + s[1..];
      if i < 0 then -1
      else
        assert s[..i + 1] == [s[0]] + s[1..][..i];
        i + 1
  }

  /** Python's `str.partition`: the text before the first `c`, and the text after it if there is one. */
  function Partition(s: string, c: char): (string, Option<string>) {
    if s == "" then ("", None)
    else if s[0] == c then ("", Some(s[1..]))
    else
      var (before, after) := Partition(s[1..], c);
      ([s[0]] + before, after)
  }

  lemma {:induction false} PartitionIsSplitAtIndex(s: string, c: char)
    ensures IndexOf(s, c) < 0 ==> Partition(s, c) == (s, None)
    ensures IndexOf(s, c) >= 0 ==>
              Partition(s, c) == (s[..IndexOf(s, c)], Some(s[IndexOf(s, c) + 1..]))
  {
    if s != "" && s[0] != c {
      PartitionIsSplitAtIndex(s[1..], c);
      assert s == [s[0]] + s[1..];
      var i := IndexOf(s[1..], c);
      if i >= 0 {
        assert s[..i + 1] == [s[0]] + s[1..][..i];
        assert s[i + 2..] == s[1..][i + 1..];
      }
    }
  }

  lemma IndexOfFirst(a: string, c: char, b: string)
    requires c !in a
    ensures IndexOf(a + [c] + b, c) == |a|
  {
    var s := a + [c] + b;
    assert s[|a|] == c;
    assert forall j | 0 <= j < |a| :: s[j] == a[j];
  }

  // ---------------------------------------------------------------------------------------
  // Envelopes and the two parsers.
  // ---------------------------------------------------------------------------------------

  /** A missing or null id of an error response reads as `Null`. */
  datatype Envelope =
    | Request(service: string, methodName: string, fullMethod: string, params: Json, id: Json,
              raw: map<string, Json>)
    | Notification(service: string, methodName: string, fullMethod: string, params: Json,
                   raw: map<string, Json>)
    | SuccessResponse(id: Json, result: Json)
    | ErrorResponse(id: Json, code: Json, message: string, data: Json)

  /** Why an envelope is refused with -32600. */
  datatype InvalidRequest =
    | BatchUnsupported
    | NotAnObject
    | WrongVersion
    | MethodShape
    | ServiceSegment
    | MethodSegment
    | IdType
    | ResponseWithoutId
    | ErrorShape
    | NoKind

  type Parsed = Result<Envelope, InvalidRequest>

  const VERSION: Json := Str("2.0")

  const EMPTY_PARAMS: Json := Obj(map[])

  /** The branch of the TypeScript parser for a string `method`. */
  function CallTypeScript(obj: map<string, Json>): Parsed
    requires Get(obj, "method").Str?
  {
    var full := obj["method"].s;
    var dot := IndexOf(full, '.');
    if dot <= 0 || dot == |full| - 1 then Failure(MethodShape)
    else
      var service := full[..dot];
      var methodName := full[dot + 1..];
      // `obj.params ?? {}`
      var params := if Get(obj, "params") == Null then EMPTY_PARAMS else obj["params"];
      if !IsService(service) then Failure(ServiceSegment)
      else if !IsMethod(methodName) then Failure(MethodSegment)
      else if Get(obj, "id") != Null then
        if obj["id"].Str? || IsNumber(obj["id"])
        then Success(Request(service, methodName, full, params, obj["id"], obj))
        else Failure(IdType)
      else Success(Notification(service, methodName, full, params, obj))
  }

  /** The branches of the TypeScript parser for responses. */
  function ResponseTypeScript(obj: map<string, Json>): Parsed {
    var hasResult := "result" in obj;
    var hasError := "error" in obj;
    if hasResult && !hasError then
      if Get(obj, "id") != Null then Success(SuccessResponse(obj["id"], obj["result"]))
      else Failure(ResponseWithoutId)
    else if hasError && !hasResult then
      // Only an object can have a numeric `code` and a string `message` member.
      if obj["error"].Obj? && IsNumber(Get(obj["error"].members, "code"))
         && Get(obj["error"].members, "message").Str?
      then
        var err := obj["error"].members;
        Success(ErrorResponse(Get(obj, "id"), err["code"], err["message"].s, Get(err, "data")))
      else Failure(ErrorShape)
    else Failure(NoKind)
  }

  function ParseTypeScript(v: Json): Parsed {
    if v.Arr? then Failure(BatchUnsupported)
    else if !v.Obj? then Failure(NotAnObject)
    else if Get(v.members, "jsonrpc") != VERSION then Failure(WrongVersion)
    else if Get(v.members, "method").Str? then CallTypeScript(v.members)
    else ResponseTypeScript(v.members)
  }

  /** The branch of the Python parser for a string `method`. */
  function CallPython(value: map<string, Json>): Parsed
    requires "method" in value && value["method"].Str?
  {
    var full := value["method"].s;
    var (service, rest) := Partition(full, '.');
    if rest.None? || service == "" || rest.value == "" then Failure(MethodShape)
    else
      var methodName := rest.value;
      // `value.get("params", {})`
      var params := if "params" in value then value["params"] else EMPTY_PARAMS;
      if !AcceptsService(Python, service) then Failure(ServiceSegment)
      else if !AcceptsMethod(Python, methodName) then Failure(MethodSegment)
      else if "id" in value && value["id"] != Null then
        // `bool` is an `int` in Python and is excluded by hand; a float is neither.
        if value["id"].Str? || value["id"].Int?
        then Success(Request(service, methodName, full, params, value["id"], value))
        else Failure(IdType)
      else Success(Notification(service, methodName, full, params, value))
  }

  /** The branches of the Python parser for responses. */
  function ResponsePython(value: map<string, Json>): Parsed {
    var hasResult := "result" in value;
    var hasError := "error" in value;
    var hasId := "id" in value && value["id"] != Null;
    if hasResult && !hasError then
      if hasId then Success(SuccessResponse(value["id"], value["result"])) else Failure(ResponseWithoutId)
    else if hasError && !hasResult then
      // `isinstance(code, int)` also holds of a bool here.
      if value["error"].Obj?
         && (Get(value["error"].members, "code").Int? || Get(value["error"].members, "code").Bool?)
         && Get(value["error"].members, "message").Str?
      then
        var err := value["error"].members;
        Success(ErrorResponse(if hasId then value["id"] else Null, err["code"], err["message"].s, Get(err, "data")))
      else Failure(ErrorShape)
    else Failure(NoKind)
  }

  function ParsePython(v: Json): Parsed {
    if v.Arr? then Failure(BatchUnsupported)
    else if !v.Obj? then Failure(NotAnObject)
    else if Get(v.members, "jsonrpc") != VERSION then Failure(WrongVersion)
    else if "method" in v.members && v.members["method"].Str? then CallPython(v.members)
    else ResponsePython(v.members)
  }

  function Parse(lang: Language, v: Json): Parsed {
    if lang.TypeScript? then ParseTypeScript(v) else ParsePython(v)
  }

  // ---------------------------------------------------------------------------------------
  // Builders.
  // ---------------------------------------------------------------------------------------

  function BuildRequest(fullMethod: string, params: Json, id: Json): Json {
    Obj(map["jsonrpc" := VERSION, "method" := Str(fullMethod), "params" := params, "id" := id])
  }

  function BuildNotification(fullMethod: string, params: Json): Json {
    Obj(map["jsonrpc" := VERSION, "method" := Str(fullMethod), "params" := params])
  }

  function BuildSuccessResponse(id: Json, result: Json): Json {
    Obj(map["jsonrpc" := VERSION, "id" := id, "result" := result])
  }

  function BuildErrorResponse(id: Json, code: Json, message: string, data: Json): Json {
    Obj(map["jsonrpc" := VERSION, "id" := id,
            "error" := Obj(map["code" := code, "message" := Str(message), "data" := data])])
  }

  // ---------------------------------------------------------------------------------------
  // Agreement of the two parsers.
  // ---------------------------------------------------------------------------------------

  predicate EndsInNewline(s: string, p: string -> bool) {
    s != "" && s[|s| - 1] == '\n' && p(s[..|s| - 1])
  }

  /** The segments around the first dot, when both are non-empty. */
  function Segments(full: string): Option<(string, string)> {
    var dot := IndexOf(full, '.');
    if dot <= 0 || dot == |full| - 1 then None else Some((full[..dot], full[dot + 1..]))
  }

  /** What the two languages read differently in a call: a final line feed on a segment, a fractional id, null params. */
  predicate CallIsSensitive(obj: map<string, Json>)
    requires Get(obj, "method").Str?
  {
    var id := Get(obj, "id");
    match Segments(obj["method"].s)
    case None => false
    case Some((service, methodName)) =>
      if !IsService(service) then EndsInNewline(service, IsService)
      else if !IsMethod(methodName) then EndsInNewline(methodName, IsMethod)
      else id.Float? || ((id.Null? || id.Str? || id.Int?) && "params" in obj && obj["params"] == Null)
  }

  /** What they read differently in a response: an error code that is fractional or a bool. */
  predicate ResponseIsSensitive(obj: map<string, Json>) {
    "error" in obj && "result" !in obj && obj["error"].Obj? &&
    var code := Get(obj["error"].members, "code");
    (code.Float? || code.Bool?) && Get(obj["error"].members, "message").Str?
  }

  predicate LanguageSensitive(v: Json) {
    v.Obj? && Get(v.members, "jsonrpc") == VERSION &&
    if Get(v.members, "method").Str? then CallIsSensitive(v.members) else ResponseIsSensitive(v.members)
  }

  /** What the Python grammars accept around the first dot. */
  lemma SegmentsAgree(service: string, methodName: string)
    ensures AcceptsService(Python, service) <==> IsService(service) || EndsInNewline(service, IsService)
    ensures AcceptsMethod(Python, methodName) <==> IsMethod(methodName) || EndsInNewline(methodName, IsMethod)
    ensures IsService(service) ==> !EndsInNewline(service, IsService)
    ensures IsMethod(methodName) ==> !EndsInNewline(methodName, IsMethod)
  {
    if IsService(service) { ServiceChars(service); }
    if IsMethod(methodName) { MethodChars(methodName); }
  }

  lemma CallsAgreeExactly(obj: map<string, Json>)
    requires Get(obj, "method").Str?
    ensures CallTypeScript(obj) == CallPython(obj) <==> !CallIsSensitive(obj)
  {
    var full := obj["method"].s;
    PartitionIsSplitAtIndex(full, '.');
    match Segments(full)
    case None =>
    case Some((service, methodName)) =>
      SegmentsAgree(service, methodName);
  }

  /** On every JSON value the parsers give the same answer, reason included, or the value is language sensitive. */
  lemma ParsersAgreeExactly(v: Json)
    ensures ParseTypeScript(v) == ParsePython(v) <==> !LanguageSensitive(v)
  {
    if v.Obj? && Get(v.members, "method").Str? {
      CallsAgreeExactly(v.members);
    }
  }

  // ---------------------------------------------------------------------------------------
  // What is accepted, and why the rest is not.
  // ---------------------------------------------------------------------------------------

  predicate IsRpcId(lang: Language, id: Json) {
    id.Str? || id.Int? || (lang.TypeScript? && id.Float?)
  }

  /** The text splits at its first dot into two parts, neither of them empty. */
  predicate SplitsInto(full: string, service: string, methodName: string) {
    service != "" && methodName != "" && '.' !in service && full == service + "." + methodName
  }

  lemma SplitIsAtFirstDot(full: string, service: string, methodName: string)
    ensures SplitsInto(full, service, methodName) <==> Segments(full) == Some((service, methodName))
  {
    if SplitsInto(full, service, methodName) {
      IndexOfFirst(service, '.', methodName);
      assert full[..|service|] == service && full[|service| + 1..] == methodName;
    }
    var dot := IndexOf(full, '.');
    if dot >= 0 { assert full == full[..dot] + "." + full[dot + 1..]; }
  }

  /** What both parsers require before they look at the kind. */
  ghost predicate IsVersioned(v: Json) {
    v.Obj? && "jsonrpc" in v.members && v.members["jsonrpc"] == Str("2.0")
  }

  /** The `method` of a call with these names. */
  ghost predicate Addresses(lang: Language, v: Json, service: string, methodName: string) {
    && IsVersioned(v) && "method" in v.members && v.members["method"] == Str(service + "." + methodName)
    && AcceptsService(lang, service) && AcceptsMethod(lang, methodName)
  }

  lemma AcceptedIsPlain(lang: Language, service: string, methodName: string)
    requires AcceptsService(lang, service) && AcceptsMethod(lang, methodName)
    ensures SplitsInto(service + "." + methodName, service, methodName)
  {
    if IsService(service) {
      ServiceChars(service);
    } else {
      ServiceChars(service[..|service| - 1]);
      assert service == service[..|service| - 1] + [service[|service| - 1]];
    }
  }

  /** The params handed on: absent ones are an empty object; null ones too, but in TypeScript only. */
  ghost predicate HandsOn(lang: Language, v: Json, params: Json)
    requires v.Obj?
  {
    if "params" in v.members && !(lang.TypeScript? && v.members["params"].Null?) then params == v.members["params"]
    else params == Obj(map[])
  }

  /** A call whose `method` splits. */
  lemma CallOfParts(lang: Language, v: Json, service: string, methodName: string)
    requires IsVersioned(v) && Get(v.members, "method").Str? && SplitsInto(v.members["method"].s, service, methodName)
    ensures var full, id := v.members["method"].s, Get(v.members, "id");
            match Parse(lang, v)
            case Failure(why) =>
              if !AcceptsService(lang, service) then why == ServiceSegment
              else if !AcceptsMethod(lang, methodName) then why == MethodSegment
              else why == IdType && !id.Null? && !IsRpcId(lang, id)
            case Success(env) =>
              && AcceptsService(lang, service) && AcceptsMethod(lang, methodName)
              && if id.Null? then env.Notification? && HandsOn(lang, v, env.params)
                                  && env == Notification(service, methodName, full, env.params, v.members)
                 else env.Request? && HandsOn(lang, v, env.params) && IsRpcId(lang, id)
                      && env == Request(service, methodName, full, env.params, id, v.members)
  {
    var full := v.members["method"].s;
    SplitIsAtFirstDot(full, service, methodName);
    PartitionIsSplitAtIndex(full, '.');
  }

  /** A call whose `method` does not split. */
  lemma CallWithoutParts(lang: Language, v: Json)
    requires IsVersioned(v) && Get(v.members, "method").Str? && Segments(v.members["method"].s).None?
    ensures Parse(lang, v) == Failure(MethodShape)
  {
    PartitionIsSplitAtIndex(v.members["method"].s, '.');
  }

  lemma CallCases(lang: Language, v: Json)
    requires IsVersioned(v) && Get(v.members, "method").Str?
    ensures match Segments(v.members["method"].s)
            case None => Parse(lang, v) == Failure(MethodShape)
            case Some((service, methodName)) =>
              SplitsInto(v.members["method"].s, service, methodName)
              && (Parse(lang, v).Success? ==>
                    && AcceptsService(lang, service) && AcceptsMethod(lang, methodName)
                    && !Parse(lang, v).value.SuccessResponse? && !Parse(lang, v).value.ErrorResponse?
                    && Parse(lang, v).value.service == service && Parse(lang, v).value.methodName == methodName)
  {
    match Segments(v.members["method"].s)
    case None => CallWithoutParts(lang, v);
    case Some((service, methodName)) =>
      SplitIsAtFirstDot(v.members["method"].s, service, methodName);
      CallOfParts(lang, v, service, methodName);
  }

  /** A call that is accepted, or whose names are acceptable, splits into them. */
  lemma AcceptedSplits(lang: Language, v: Json, env: Envelope)
    requires env.Request? || env.Notification?
    requires Parse(lang, v) == Success(env) || Addresses(lang, v, env.service, env.methodName)
    ensures IsVersioned(v) && Get(v.members, "method").Str?
    ensures SplitsInto(v.members["method"].s, env.service, env.methodName)
  {
    if Parse(lang, v) == Success(env) {
      assert Get(v.members, "method").Str?;
      CallCases(lang, v);
    } else {
      AcceptedIsPlain(lang, env.service, env.methodName);
    }
  }

  /** Exactly these values are requests, and this is how they are read. */
  lemma RequestIsReadExactly(lang: Language, v: Json, env: Envelope)
    requires env.Request?
    ensures Parse(lang, v) == Success(env) <==>
            && Addresses(lang, v, env.service, env.methodName) && env.fullMethod == env.service + "." + env.methodName
            && HandsOn(lang, v, env.params) && env.raw == v.members
            && "id" in v.members && v.members["id"] == env.id && IsRpcId(lang, env.id)
  {
    if Parse(lang, v) == Success(env) || Addresses(lang, v, env.service, env.methodName) {
      AcceptedSplits(lang, v, env);
      CallOfParts(lang, v, env.service, env.methodName);
    }
  }

  lemma NotificationIsReadExactly(lang: Language, v: Json, env: Envelope)
    requires env.Notification?
    ensures Parse(lang, v) == Success(env) <==>
            && Addresses(lang, v, env.service, env.methodName) && env.fullMethod == env.service + "." + env.methodName
            && HandsOn(lang, v, env.params) && env.raw == v.members
            && ("id" in v.members ==> v.members["id"].Null?)
  {
    if Parse(lang, v) == Success(env) || Addresses(lang, v, env.service, env.methodName) {
      AcceptedSplits(lang, v, env);
      CallOfParts(lang, v, env.service, env.methodName);
    }
  }

  /** Exactly these values are responses. */
  lemma ResponseIsReadExactly(lang: Language, v: Json, env: Envelope)
    requires env.SuccessResponse? || env.ErrorResponse?
    ensures Parse(lang, v) == Success(env) <==>
            && IsVersioned(v) && !("method" in v.members && v.members["method"].Str?)
            && Get(v.members, "id") == env.id
            && match env
               case SuccessResponse(id, result) =>
                 !id.Null? && "error" !in v.members && "result" in v.members && v.members["result"] == result
               case ErrorResponse(_, code, message, data) =>
                 && "result" !in v.members && "error" in v.members && v.members["error"].Obj?
                 && var err := v.members["error"].members;
                    && "code" in err && err["code"] == code && "message" in err && err["message"] == Str(message)
                    && (code.Int? || (lang.TypeScript? && code.Float?) || (lang.Python? && code.Bool?))
                    && Get(err, "data") == data
               case _ => true
  {
  }

  /** The reason given for each value that is refused. */
  ghost predicate IsRefusedFor(lang: Language, v: Json, why: InvalidRequest) {
    match why
    case BatchUnsupported => v.Arr?
    case NotAnObject => !v.Arr? && !v.Obj?
    case WrongVersion => v.Obj? && !IsVersioned(v)
    case MethodShape =>
      IsVersioned(v) && Get(v.members, "method").Str?
      && forall service, methodName :: !SplitsInto(v.members["method"].s, service, methodName)
    case ServiceSegment =>
      IsVersioned(v) && Get(v.members, "method").Str?
      && exists service, methodName :: SplitsInto(v.members["method"].s, service, methodName) && !AcceptsService(lang, service)
    case MethodSegment =>
      IsVersioned(v) && Get(v.members, "method").Str?
      && exists service, methodName :: SplitsInto(v.members["method"].s, service, methodName)
           && AcceptsService(lang, service) && !AcceptsMethod(lang, methodName)
    case IdType =>
      IsVersioned(v) && Get(v.members, "method").Str?
      && exists service, methodName :: SplitsInto(v.members["method"].s, service, methodName)
           && AcceptsService(lang, service) && AcceptsMethod(lang, methodName)
           && !Get(v.members, "id").Null? && !IsRpcId(lang, v.members["id"])
    case ResponseWithoutId =>
      IsVersioned(v) && !Get(v.members, "method").Str?
      && "result" in v.members && "error" !in v.members && Get(v.members, "id").Null?
    case ErrorShape =>
      IsVersioned(v) && !Get(v.members, "method").Str?
      && "error" in v.members && "result" !in v.members
      && !(v.members["error"].Obj? && Get(v.members["error"].members, "message").Str?
           && var code := Get(v.members["error"].members, "code");
              code.Int? || (lang.TypeScript? && code.Float?) || (lang.Python? && code.Bool?))
    case NoKind =>
      IsVersioned(v) && !Get(v.members, "method").Str? && ("result" in v.members <==> "error" in v.members)
  }

  lemma CallIsRefusedExactly(lang: Language, v: Json, why: InvalidRequest)
    requires IsVersioned(v) && Get(v.members, "method").Str?
    ensures Parse(lang, v) == Failure(why) <==> IsRefusedFor(lang, v, why)
  {
    var full := v.members["method"].s;
    CallCases(lang, v);
    forall service, methodName
      ensures SplitsInto(full, service, methodName) <==> Segments(full) == Some((service, methodName))
    {
      SplitIsAtFirstDot(full, service, methodName);
    }
    if Segments(full).Some? {
      CallOfParts(lang, v, Segments(full).value.0, Segments(full).value.1);
    }
  }

  lemma RefusalsAreExact(lang: Language, v: Json, why: InvalidRequest)
    ensures Parse(lang, v) == Failure(why) <==> IsRefusedFor(lang, v, why)
  {
    if IsVersioned(v) && Get(v.members, "method").Str? {
      CallIsRefusedExactly(lang, v, why);
    }
  }

  // ---------------------------------------------------------------------------------------
  // Round trips.
  // ---------------------------------------------------------------------------------------

  /** The params a parser hands on: TypeScript replaces null by an empty object, Python keeps it. */
  function Defaulted(lang: Language, params: Json): Json {
    if lang.TypeScript? && params == Null then EMPTY_PARAMS else params
  }

  lemma SplitsAtItsDot(service: string, methodName: string)
    requires IsService(service) && IsMethod(methodName)
    ensures Segments(service + "." + methodName) == Some((service, methodName))
    ensures Partition(service + "." + methodName, '.') == (service, Some(methodName))
  {
    var full := service + "." + methodName;
    ServiceChars(service);
    IndexOfFirst(service, '.', methodName);
    PartitionIsSplitAtIndex(full, '.');
    assert full[..|service|] == service && full[|service| + 1..] == methodName;
  }

  lemma ParseInvertsBuildRequest(lang: Language, service: string, methodName: string, params: Json, id: Json)
    requires IsService(service) && IsMethod(methodName) && IsRpcId(lang, id)
    ensures var built := BuildRequest(service + "." + methodName, params, id);
            Parse(lang, built)
            == Success(Request(service, methodName, service + "." + methodName, Defaulted(lang, params), id, built.members))
  {
    SplitsAtItsDot(service, methodName);
  }

  lemma ParseInvertsBuildNotification(lang: Language, service: string, methodName: string, params: Json)
    requires IsService(service) && IsMethod(methodName)
    ensures var built := BuildNotification(service + "." + methodName, params);
            Parse(lang, built)
            == Success(Notification(service, methodName, service + "." + methodName, Defaulted(lang, params), built.members))
  {
    SplitsAtItsDot(service, methodName);
  }

  /** A success response parses back exactly when it has an id; the id's type is not checked. */
  lemma ParseInvertsBuildSuccess(lang: Language, id: Json, result: Json)
    ensures Parse(lang, BuildSuccessResponse(id, result))
            == if id == Null then Failure(ResponseWithoutId) else Success(SuccessResponse(id, result))
  {
  }

  /** An error response parses back exactly when the code is a number to the reader (for Python: not fractional, or a bool). */
  lemma ParseInvertsBuildError(lang: Language, id: Json, code: Json, message: string, data: Json)
    ensures Parse(lang, BuildErrorResponse(id, code, message, data))
            == if code.Int? || (lang.TypeScript? && code.Float?) || (lang.Python? && code.Bool?)
               then Success(ErrorResponse(id, code, message, data))
               else Failure(ErrorShape)
  {
  }

  const RECOGNISED: set<string> := {"jsonrpc", "method", "params", "id"}

  lemma CallSplits(obj: map<string, Json>)
    requires Get(obj, "method").Str?
    ensures var p := CallTypeScript(obj);
            p.Success? && p.value.Request? ==>
              p.value.fullMethod == obj["method"].s == p.value.service + "." + p.value.methodName
    ensures var p := CallPython(obj);
            p.Success? && p.value.Request? ==>
              p.value.fullMethod == obj["method"].s == p.value.service + "." + p.value.methodName
  {
    var full := obj["method"].s;
    PartitionIsSplitAtIndex(full, '.');
    var dot := IndexOf(full, '.');
    if dot >= 0 {
      assert full == full[..dot] + "." + full[dot + 1..];
    }
  }

  lemma RequestMembers(lang: Language, v: Json)
    requires Parse(lang, v).Success? && Parse(lang, v).value.Request?
    ensures v.Obj? && {"jsonrpc", "method", "id"} <= v.members.Keys
    ensures var r := Parse(lang, v).value;
            && v.members["jsonrpc"] == VERSION
            && v.members["method"] == Str(r.fullMethod)
            && v.members["id"] == r.id
            && r.fullMethod == r.service + "." + r.methodName
  {
    assert Get(v.members, "method").Str?;
    CallSplits(v.members);
  }

  /** Rebuilding an accepted request gives back its recognised members, with params defaulted. */
  lemma RebuildKeepsRecognisedMembers(lang: Language, v: Json)
    requires Parse(lang, v).Success? && Parse(lang, v).value.Request?
    ensures var r := Parse(lang, v).value;
            var kept := map k | k in v.members && k in RECOGNISED :: v.members[k];
            && r.fullMethod == r.service + "." + r.methodName
            && IsRpcId(lang, r.id)
            && BuildRequest(r.fullMethod, r.params, r.id) == Obj(kept["params" := r.params])
            && r.params == Defaulted(lang, if "params" in v.members then v.members["params"] else EMPTY_PARAMS)
  {
    var r := Parse(lang, v).value;
    RequestMembers(lang, v);
    var kept := map k | k in v.members && k in RECOGNISED :: v.members[k];
    assert BuildRequest(r.fullMethod, r.params, r.id).members == kept["params" := r.params];
  }

  /** A full method is accepted exactly when it splits into a service and a method, and it splits in one way only. */
  lemma AcceptedMethodSplitsUniquely(full: string, service: string, methodName: string)
    requires IsService(service) && IsMethod(methodName)
    ensures full == service + "." + methodName <==>
            (ParseTypeScript(BuildNotification(full, EMPTY_PARAMS)).Success? &&
             ParseTypeScript(BuildNotification(full, EMPTY_PARAMS)).value.service == service &&
             ParseTypeScript(BuildNotification(full, EMPTY_PARAMS)).value.methodName == methodName)
  {
    if full == service + "." + methodName {
      SplitsAtItsDot(service, methodName);
    } else if Segments(full).Some? {
      var dot := IndexOf(full, '.');
      assert full == full[..dot] + "." + full[dot + 1..];
    }
  }
}
