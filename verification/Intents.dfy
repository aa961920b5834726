/** What a caller asks for, what the dispatcher of a service makes of it, and that this is the local call. */
module Intents {
  import opened Wrappers
  import opened JsonValues
  import opened Envelope
  import opened Protocol

  datatype Intent = Intent(service: string, name: string, params: Json)

  predicate ValidIntent(intent: Intent) {
    IsService(intent.service) && IsMethod(intent.name)
  }

  function RequestOf(intent: Intent, id: string): Json {
    BuildRequest(intent.service + "." + intent.name, intent.params, Str(id))
  }

  /** What the dispatcher over `entry` returns for the request. */
  function AnswerFrom(lang: Language, entry: Option<ServiceEntry>, intent: Intent, id: string): Option<Json> {
    match Parse(lang, RequestOf(intent, id))
    case Failure(_) => None
    case Success(env) => Dispatch(lang, entry, env)
  }

  /** The outcome of calling in place, as a client of this language reports it. */
  function Expected(clientLang: Language, lang: Language, entry: Option<ServiceEntry>, intent: Intent): CallOutcome {
    var local := LocalCall(lang, entry, intent.name, intent.params);
    if CodeLostOnPythonClient(clientLang, local) then ProtocolFailure else local
  }

  /** The reply, if there is one, unwraps to the local outcome; there is none exactly if that has no wire form. */
  lemma AnswerMeansLocalCall(clientLang: Language, lang: Language, entry: Option<ServiceEntry>, intent: Intent, id: string)
    requires ValidIntent(intent)
    ensures AnswerFrom(lang, entry, intent, id) == Encode(LocalCall(lang, entry, intent.name, intent.params), id)
    ensures AnswerFrom(lang, entry, intent, id).Some? ==>
              Unwrap(clientLang, AnswerFrom(lang, entry, intent, id).value) == Expected(clientLang, lang, entry, intent)
  {
    ParseInvertsBuildRequest(lang, intent.service, intent.name, intent.params, Str(id));
    var env := Parse(lang, RequestOf(intent, id)).value;
    DispatchEncodesLocalCall(lang, entry, env, intent.params, id);
    var local := LocalCall(lang, entry, intent.name, intent.params);
    if local.Value? || local.RpcFailure? {
      UnwrapInvertsEncode(clientLang, local, id);
    }
  }

  /** Calling in place is neither refused nor malformed: it has a wire form, or it is silent. */
  lemma LocalCallHasFormOrIsSilent(lang: Language, entry: Option<ServiceEntry>, intent: Intent)
    ensures var local := LocalCall(lang, entry, intent.name, intent.params);
            local.Value? || local.RpcFailure? || local.NoReply?
  {
  }
}
