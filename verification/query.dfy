/** The query endpoint of `actions/AIIntegrationQuery.php`: reading the
    request body, the ordered validation of question and provider, the
    choice of provider, the call, and the JSON reply. The configuration
    comes from the profile store through `ConfigManager.Load`; the clock is
    a parameter. */
module Query {
  import opened Wrappers
  import opened Php
  import opened Json
  import opened Config
  import opened Secrets
  import opened ConfigManager
  import opened Gateway

  // ---------------------------------------------------------------------------
  // Outcomes
  // ---------------------------------------------------------------------------

  /** Why the handler refused a query before calling a provider. */
  datatype QueryError =
    | QuestionRequired
    | NoProviders
    | ProviderNotConfigured(name: string)
    | ProviderNotEnabled(name: string)
    | ApiKeyMissing(name: string)

  function QueryErrorMessage(e: QueryError): string {
    match e
    case QuestionRequired => "Question parameter is required."
    case NoProviders => "No AI providers configured. Please configure at least one provider."
    case ProviderNotConfigured(name) => "Provider '" + name + "' not configured."
    case ProviderNotEnabled(name) => "Provider '" + name + "' is not enabled."
    case ApiKeyMissing(name) => "API key not configured for provider '" + name + "'."
  }

  /** What the client receives: `{success: true, provider, response,
      timestamp}`; `{success: false, error}` with status 500 for any
      exception; or nothing useful when a `TypeError`, which the handler's
      `catch (Exception)` does not catch, ends the request. */
  datatype Reply =
    | Answered(provider: string, response: string, timestamp: int)
    | Failed(error: string)
    | Fatal

  /** The HTTP status of a reply: 200 for an answer, 500 from the handler's
      `catch` for a failure. For `Fatal` the status comes from the PHP
      runtime, which sends 500 for an uncaught error when errors are not
      displayed; that is the value taken here. */
  function Status(r: Reply): (code: int)
    ensures code == 200 <==> r.Answered?
    ensures !r.Answered? ==> code == 500
  {
    if r.Answered? then 200 else 500
  }

  /** One run of the handler: whether it loaded the configuration, the
      requests it sent, and the reply. */
  datatype QueryRun = QueryRun(loaded: bool, sent: seq<HttpRequest>, reply: Reply)

  // ---------------------------------------------------------------------------
  // Reading the request body
  // ---------------------------------------------------------------------------

  /** `$payload[k] ?? null` on the decoded body: only an object has string
      keys, and a member that is `null` counts as missing. A body that is
      not an object (including one that is not JSON) has no members. */
  function Member(body: Value, k: string): (r: Option<Value>)
    ensures r.Some? ==> body.JObj? && Get(body.members, k) == r && r.value != JNull
    ensures body.JObj? && Get(body.members, k).Some? && Get(body.members, k).value != JNull ==> r.Some?
  {
    if body.JObj? then
      match Get(body.members, k)
      case Some(v) => if v == JNull then None else Some(v)
      case None => None
    else None
  }

  /** `trim($payload[k] ?? '')` under strict types: a missing member is
      "", a string is trimmed, anything else is a `TypeError`. */
  function TrimmedArg(v: Option<Value>): (r: Option<string>)
    ensures r.None? <==> v.Some? && !v.value.JStr?
    ensures v.None? ==> r == Some("")
    ensures v.Some? && v.value.JStr? ==> r == Some(Trim(v.value.s))
  {
    match v
    case None => Some(Trim(""))
    case Some(JStr(s)) => Some(Trim(s))
    case Some(_) => None
  }

  /** `$payload['context'] ?? []`, replaced by `[]` when it is not an array. */
  function ContextArg(body: Value): (ctx: Value)
    ensures ctx.IsArray()
    ensures Member(body, "context").Some? && Member(body, "context").value.IsArray() ==> ctx == Member(body, "context").value
    ensures !(Member(body, "context").Some? && Member(body, "context").value.IsArray()) ==> ctx == JArr([])
  {
    match Member(body, "context")
    case Some(v) => if v.IsArray() then v else JArr([])
    case None => JArr([])
  }

  // ---------------------------------------------------------------------------
  // Validation and selection
  // ---------------------------------------------------------------------------

  /** `!empty($config['providers'])`. */
  predicate HasProviders(cfg: Doc) {
    cfg.providers.Present? && |cfg.providers.value| > 0
  }

  /** The provider asked for, else the configured default, else `openai`. */
  function Choose(requested: string, cfg: Doc): (name: string)
    ensures requested != "" ==> name == requested
    ensures requested == "" && cfg.defaultProvider.Present? ==> name == cfg.defaultProvider.value
    ensures requested == "" && !cfg.defaultProvider.Present? ==> name == OpenAI
  {
    if requested != "" then requested else cfg.defaultProvider.Or(OpenAI)
  }

  /** A provider the handler will call: configured, enabled, and with a
      non-empty key unless it is `custom`. */
  predicate Callable(cfg: Doc, name: string) {
    cfg.Entry(name).Some? && cfg.Entry(name).value.Enabled() && (name == Custom || cfg.Entry(name).value.HasApiKey())
  }

  /** The checks after the question, in the handler's order; on success the
      chosen name and its entry. */
  function Validate(cfg: Doc, requested: string): (r: Result<(string, ProviderEntry), QueryError>)
    ensures r.Success? <==> HasProviders(cfg) && Callable(cfg, Choose(requested, cfg))
    ensures r.Success? ==> r.value == (Choose(requested, cfg), cfg.Entry(Choose(requested, cfg)).value)
    ensures !HasProviders(cfg) ==> r == Failure(NoProviders)
    ensures var name := Choose(requested, cfg);
            && (HasProviders(cfg) && cfg.Entry(name).None? ==> r == Failure(ProviderNotConfigured(name)))
            && (HasProviders(cfg) && cfg.Entry(name).Some? && !cfg.Entry(name).value.Enabled() ==>
                  r == Failure(ProviderNotEnabled(name)))
            && ((HasProviders(cfg) && cfg.Entry(name).Some? && cfg.Entry(name).value.Enabled()
                 && name != Custom && !cfg.Entry(name).value.HasApiKey()) ==> r == Failure(ApiKeyMissing(name)))
  {
    if !HasProviders(cfg) then Failure(NoProviders)
    else
      var name := Choose(requested, cfg);
      match cfg.Entry(name)
      case None => Failure(ProviderNotConfigured(name))
      case Some(entry) =>
        if !entry.Enabled() then Failure(ProviderNotEnabled(name))
        else if name != Custom && !entry.HasApiKey() then Failure(ApiKeyMissing(name))
        else Success((name, entry))
  }

  /** The reply for a provider call's outcome: the answer, an exception
      message, or a fatal type error. */
  function CallReply(name: string, result: Result<string, CallError>, now: int): (r: Reply)
    ensures result.Success? <==> r.Answered?
    ensures result.Success? ==> r == Answered(name, result.value, now)
    ensures result == Failure(AnswerNotString) <==> r.Fatal?
    ensures result.Failure? && result.error != AnswerNotString ==> r == Failed(CallErrorMessage(result.error))
  {
    match result
    case Success(text) => Answered(name, text, now)
    case Failure(AnswerNotString) => Fatal
    case Failure(err) => Failed(CallErrorMessage(err))
  }

  /** `doAction`: read the body, refuse an empty question before loading
      anything, load the configuration, validate and choose the provider,
      call it, and reply. */
  function HandleQuery(body: Value, store: ProfileStore, c: Cipher, src: KeySources, env: Env, now: int): (q: QueryRun)
    ensures q.sent != [] ==> q.loaded
    ensures q.reply.Answered? ==> q.loaded && |q.sent| == 1 && q.reply.timestamp == now
  {
    var question := TrimmedArg(Member(body, "question"));
    var requested := TrimmedArg(Member(body, "provider"));
    if question.None? || requested.None? then QueryRun(false, [], Fatal)
    else if question.value == "" then QueryRun(false, [], Failed(QueryErrorMessage(QuestionRequired)))
    else
      var cfg := Load(store, c, MasterKey(src));
      match Validate(cfg, requested.value)
      case Failure(err) => QueryRun(true, [], Failed(QueryErrorMessage(err)))
      case Success((name, entry)) =>
        var o := CallProvider(name, entry, question.value, ContextArg(body), env);
        QueryRun(true, o.sent, CallReply(name, o.result, now))
  }

  // ---------------------------------------------------------------------------
  // Properties
  // ---------------------------------------------------------------------------

  /** The configuration the handler works with. */
  function Loaded(store: ProfileStore, c: Cipher, src: KeySources): Doc {
    Load(store, c, MasterKey(src))
  }

  /** A question that is empty after trimming is refused before the
      configuration is loaded or any provider is contacted. */
  lemma EmptyQuestionShortCircuits(body: Value, store: ProfileStore, c: Cipher, src: KeySources, env: Env, now: int)
    requires TrimmedArg(Member(body, "question")) == Some("")
    requires TrimmedArg(Member(body, "provider")).Some?
    ensures HandleQuery(body, store, c, src, env, now) == QueryRun(false, [], Failed("Question parameter is required."))
  {
  }

  /** A question or provider field that is present but not a string ends
      the request with a type error, before anything is loaded or sent. */
  lemma NonStringFieldIsFatal(body: Value, store: ProfileStore, c: Cipher, src: KeySources, env: Env, now: int)
    requires (Member(body, "question").Some? && !Member(body, "question").value.JStr?)
             || (Member(body, "provider").Some? && !Member(body, "provider").value.JStr?)
    ensures HandleQuery(body, store, c, src, env, now) == QueryRun(false, [], Fatal)
  {
  }

  /** With a non-empty question, the handler's refusals are exactly the
      validation failures, in order: no providers, then an unknown, a
      disabled, or a key-less non-custom provider. A refused query sends
      nothing. */
  lemma RefusalIsFirstFailedCheck(body: Value, store: ProfileStore, c: Cipher, src: KeySources, env: Env, now: int)
    requires TrimmedArg(Member(body, "question")).Some? && TrimmedArg(Member(body, "question")).value != ""
    requires TrimmedArg(Member(body, "provider")).Some?
    ensures var cfg := Loaded(store, c, src);
            var name := Choose(TrimmedArg(Member(body, "provider")).value, cfg);
            var q := HandleQuery(body, store, c, src, env, now);
            && q.loaded
            && (!HasProviders(cfg) ==> q == QueryRun(true, [], Failed(QueryErrorMessage(NoProviders))))
            && (HasProviders(cfg) && cfg.Entry(name).None? ==>
                  q == QueryRun(true, [], Failed(QueryErrorMessage(ProviderNotConfigured(name)))))
            && (HasProviders(cfg) && cfg.Entry(name).Some? && !cfg.Entry(name).value.Enabled() ==>
                  q == QueryRun(true, [], Failed(QueryErrorMessage(ProviderNotEnabled(name)))))
            && (HasProviders(cfg) && cfg.Entry(name).Some? && cfg.Entry(name).value.Enabled()
                && name != Custom && !cfg.Entry(name).value.HasApiKey() ==>
                  q == QueryRun(true, [], Failed(QueryErrorMessage(ApiKeyMissing(name)))))
            && (HasProviders(cfg) && Callable(cfg, name) ==>
                  q.sent == CallProvider(name, cfg.Entry(name).value, TrimmedArg(Member(body, "question")).value,
                                         ContextArg(body), env).sent)
  {
  }

  /** A provider is contacted only when it is configured, enabled and, unless
      it is `custom`, has a key; an answer names that provider. */
  lemma ContactOnlyCallable(body: Value, store: ProfileStore, c: Cipher, src: KeySources, env: Env, now: int)
    ensures var q := HandleQuery(body, store, c, src, env, now);
            var cfg := Loaded(store, c, src);
            q.reply.Answered? ==> HasProviders(cfg) && Callable(cfg, q.reply.provider)
  {
  }

  /** The handler's run once the question is non-empty and both fields are
      strings: the validation outcome decides between a refusal and the call. */
  lemma HandleValidQuery(body: Value, store: ProfileStore, c: Cipher, src: KeySources, env: Env, now: int)
    requires TrimmedArg(Member(body, "question")).Some? && TrimmedArg(Member(body, "question")).value != ""
    requires TrimmedArg(Member(body, "provider")).Some?
    ensures var cfg := Loaded(store, c, src);
            var v := Validate(cfg, TrimmedArg(Member(body, "provider")).value);
            var q := HandleQuery(body, store, c, src, env, now);
            && (v.Failure? ==> q == QueryRun(true, [], Failed(QueryErrorMessage(v.error))))
            && (v.Success? ==>
                  var o := CallProvider(v.value.0, v.value.1, TrimmedArg(Member(body, "question")).value, ContextArg(body), env);
                  q == QueryRun(true, o.sent, CallReply(v.value.0, o.result, now)))
  {
  }

  /** The answer an OpenAI-shaped body `{"choices":[{"message":{"content":"42"}}]}` yields. */
  function FortyTwoBody(): Value {
    JObj(Zip(["choices"], [JArr([JObj(Zip(["message"], [JObj(Zip(["content"], [JStr("42")]))]))])]))
  }

  lemma FortyTwoExtracted()
    ensures OpenAIAnswer(FortyTwoBody()) == Success("42")
  {
    var content := JObj(Zip(["content"], [JStr("42")]));
    var message := JObj(Zip(["message"], [content]));
    var items := JArr([message]);
    var data := JObj(Zip(["choices"], [items]));
    var p := ChatContentPath;
    assert Probe(content, p[3..]) == Some(JStr("42")) by {
      GetZipFirst(["content"], [JStr("42")]);
      assert Subscript(content, Key("content")) == Some(JStr("42"));
      assert p[3..][1..] == [];
    }
    assert Probe(message, p[2..]) == Probe(content, p[3..]) by {
      GetZipFirst(["message"], [content]);
      assert Subscript(message, Key("message")) == Some(content);
      assert p[2..][1..] == p[3..];
    }
    assert Probe(items, p[1..]) == Probe(message, p[2..]) by {
      assert Subscript(items, Index(0)) == Some(message);
      assert p[1..][1..] == p[2..];
    }
    assert Probe(data, p) == Probe(items, p[1..]) by {
      GetZipFirst(["choices"], [items]);
      assert Subscript(data, Key("choices")) == Some(items);
    }
  }

  /** The backend's answer "42" to an enabled OpenAI provider with a key is
      relayed as the response, under the provider's name. */
  lemma OpenAIAnswerRelayed(body: Value, store: ProfileStore, c: Cipher, src: KeySources, env: Env, now: int)
    requires TrimmedArg(Member(body, "question")) == Some("what is 6*7")
    requires TrimmedArg(Member(body, "provider")) == Some(OpenAI)
    requires HasProviders(Loaded(store, c, src)) && Callable(Loaded(store, c, src), OpenAI)
    requires forall req :: env.transport(req) == CurlResult("", 200, "", FortyTwoBody())
    ensures HandleQuery(body, store, c, src, env, now).reply == Answered(OpenAI, "42", now)
  {
    HandleValidQuery(body, store, c, src, env, now);
    var cfg := Loaded(store, c, src);
    var entry := cfg.Entry(OpenAI).value;
    assert Validate(cfg, OpenAI) == Success((OpenAI, entry));
    var o := CallProvider(OpenAI, entry, "what is 6*7", ContextArg(body), env);
    var req := OpenAIRequest(entry, "what is 6*7", ContextArg(body), env);
    assert o.sent == [req];
    assert PostJson(env.transport(req)) == Success(FortyTwoBody());
    FortyTwoExtracted();
    assert o.result == Success("42");
  }

  /** Whatever the provider, a 401 from the backend fails the call with
      that status and body once a request went out. */
  lemma UnauthorizedCall(name: string, e: ProviderEntry, question: string, context: Value, env: Env, text: string)
    requires context.IsArray()
    requires forall req :: env.transport(req) == CurlResult("", 401, text, JNull)
    ensures var o := CallProvider(name, e, question, context, env);
            o.sent != [] ==> o.result == Failure(HttpStatus(401, text))
  {
    var o := CallProvider(name, e, question, context, env);
    if o.sent != [] {
      assert PostJson(env.transport(o.sent[0])) == Failure(HttpStatus(401, text));
    }
  }

  lemma Status401Message(text: string)
    ensures CallErrorMessage(HttpStatus(401, text)) == "HTTP error 401: " + text
  {
    assert NatToDecimal(4) == "4";
    assert NatToDecimal(40) == "40";
    assert IntToDecimal(401) == "401";
    assert "HTTP error " + "401" + ": " == "HTTP error 401: ";
  }

  /** A backend that answers with status 401 yields a handled failure whose
      message carries the status and the body, never a fatal error. */
  lemma UnauthorizedIsReported(body: Value, store: ProfileStore, c: Cipher, src: KeySources, env: Env, now: int, text: string)
    requires TrimmedArg(Member(body, "question")).Some? && TrimmedArg(Member(body, "question")).value != ""
    requires TrimmedArg(Member(body, "provider")).Some?
    requires forall req :: env.transport(req) == CurlResult("", 401, text, JNull)
    ensures var q := HandleQuery(body, store, c, src, env, now);
            && Status(q.reply) == 500
            && (q.sent != [] ==> q.reply == Failed("HTTP error 401: " + text))
  {
    HandleValidQuery(body, store, c, src, env, now);
    var cfg := Loaded(store, c, src);
    var v := Validate(cfg, TrimmedArg(Member(body, "provider")).value);
    if v.Success? {
      UnauthorizedCall(v.value.0, v.value.1, TrimmedArg(Member(body, "question")).value, ContextArg(body), env, text);
      Status401Message(text);
    }
  }
}
