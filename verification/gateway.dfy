/** The provider adapters of `actions/AIIntegrationQuery.php`: the system
    prompt, one request builder per provider, the classification of the
    HTTP outcome, the extraction of the answer from the response body, and
    the dispatch by provider name. The transport is a function from request
    to what curl reported, so every call is pure. */
module Gateway {
  import opened Wrappers
  import opened Php
  import opened Config
  import opened Json

  // ---------------------------------------------------------------------------
  // Collaborators
  // ---------------------------------------------------------------------------

  /** One outbound POST: URL, header lines in order, and the body before
      `json_encode`. */
  datatype HttpRequest = HttpRequest(url: string, headers: seq<string>, payload: Value)

  /** What curl reported for a request: `curl_error` ("" when none), the
      HTTP status, the raw body, and `json_decode` of the body (`JNull`
      when it is not JSON). */
  datatype CurlResult = CurlResult(error: string, code: int, body: string, decoded: Value)

  /** The functions the adapters call but this model does not define:
      `json_encode` for the context, `json_decode` for the custom headers,
      and the HTTP transport. */
  datatype Env = Env(encode: Value -> string, decode: string -> Value, transport: HttpRequest -> CurlResult)

  /** Why a provider call failed. All but `AnswerNotString` are exceptions
      the query handler reports; `AnswerNotString` is the `TypeError` that a
      non-string answer raises against the adapters' `string` return type. */
  datatype CallError =
    | UnknownProvider(name: string)
    | CustomEndpointMissing
    | TransportFailed(message: string)
    | HttpStatus(code: int, body: string)
    | InvalidResponse(api: string)
    | UnparsableCustomResponse
    | AnswerNotString

  /** The exception message reported for a failed call. */
  function CallErrorMessage(e: CallError): string {
    match e
    case UnknownProvider(name) => "Unknown provider: " + name
    case CustomEndpointMissing => "Custom endpoint not configured."
    case TransportFailed(message) => "HTTP request error: " + message
    case HttpStatus(code, body) => "HTTP error " + IntToDecimal(code) + ": " + body
    case InvalidResponse(api) => "Invalid response from " + api + " API."
    case UnparsableCustomResponse => "Could not parse response from custom API."
    case AnswerNotString => "Return value must be of type string"
  }

  // ---------------------------------------------------------------------------
  // System prompt
  // ---------------------------------------------------------------------------

  const BasePrompt: string := "You are a helpful assistant integrated with Zabbix monitoring."
  const ContextLabel: string := "\n\nContext: "

  /** `buildSystemPrompt`: the fixed sentence, followed by the label and
      the encoded context exactly when the context is a non-empty array. */
  function SystemPrompt(context: Value, encode: Value -> string): (p: string)
    requires context.IsArray()
    ensures |BasePrompt| <= |p| && p[..|BasePrompt|] == BasePrompt
    ensures p == BasePrompt <==> context.IsEmptyArray()
    ensures !context.IsEmptyArray() ==> p[|BasePrompt|..] == ContextLabel + encode(context)
  {
    if context.IsEmptyArray() then BasePrompt
    else
      var p := BasePrompt + ContextLabel + encode(context);
      assert p[|BasePrompt|..] == ContextLabel + encode(context);
      p
  }

  // ---------------------------------------------------------------------------
  // Request construction
  // ---------------------------------------------------------------------------

  const JsonContentType: string := "Content-Type: application/json"
  const AnthropicVersionHeader: string := "Anthropic-Version: 2023-06-01"

  /** The settings an adapter reads, with its `??` fallbacks applied. */
  datatype CallSettings = CallSettings(
    apiKey: string,
    model: string,
    endpoint: string,
    temperature: Float,
    maxTokens: int)

  function SettingsFor(name: string, e: ProviderEntry): (s: CallSettings)
    ensures s.apiKey == e.apiKey.GetOr("")
    ensures s.model == e.model.GetOr(DefaultModel(name))
    ensures s.endpoint == e.endpoint.GetOr(DefaultEndpoint(name))
    ensures s.temperature == e.temperature.GetOr(DefaultTemperature)
    ensures s.maxTokens == e.maxTokens.GetOr(DefaultMaxTokens)
  {
    CallSettings(
      e.apiKey.GetOr(""),
      e.model.GetOr(DefaultModel(name)),
      e.endpoint.GetOr(DefaultEndpoint(name)),
      e.temperature.GetOr(DefaultTemperature),
      e.maxTokens.GetOr(DefaultMaxTokens))
  }

  function ChatMessage(role: string, content: string): Value {
    JObj(Zip(["role", "content"], [JStr(role), JStr(content)]))
  }

  /** The system and user messages shared by the OpenAI and custom adapters. */
  function ChatMessages(prompt: string, question: string): Value {
    JArr([ChatMessage("system", prompt), ChatMessage("user", question)])
  }

  /** The chat-completion body of the OpenAI and custom adapters. */
  function ChatPayload(s: CallSettings, prompt: string, question: string): Value {
    JObj(Zip(["model", "max_tokens", "temperature", "messages"],
             [JStr(s.model), JInt(s.maxTokens), JFloat(s.temperature), ChatMessages(prompt, question)]))
  }

  /** The chat-completion body carries the model, the token limit and the
      temperature from the settings, and the message list under `messages`. */
  lemma ChatPayloadFields(s: CallSettings, prompt: string, question: string)
    ensures Probe(ChatPayload(s, prompt, question), [Key("model")]) == Some(JStr(s.model))
    ensures Probe(ChatPayload(s, prompt, question), [Key("max_tokens")]) == Some(JInt(s.maxTokens))
    ensures Probe(ChatPayload(s, prompt, question), [Key("temperature")]) == Some(JFloat(s.temperature))
    ensures Probe(ChatPayload(s, prompt, question), [Key("messages")]) == Some(ChatMessages(prompt, question))
  {
    var ks := ["model", "max_tokens", "temperature", "messages"];
    var vs := [JStr(s.model), JInt(s.maxTokens), JFloat(s.temperature), ChatMessages(prompt, question)];
    assert Distinct(ks);
    ProbeMember(ks, vs, 0, []);
    ProbeMember(ks, vs, 1, []);
    ProbeMember(ks, vs, 2, []);
    ProbeMember(ks, vs, 3, []);
    assert [Key("model")] == [Key(ks[0])] + [];
    assert [Key("max_tokens")] == [Key(ks[1])] + [];
    assert [Key("temperature")] == [Key(ks[2])] + [];
    assert [Key("messages")] == [Key(ks[3])] + [];
  }

  /** The role and the content of one message. */
  lemma MessageFields(role: string, content: string)
    ensures Probe(ChatMessage(role, content), [Key("role")]) == Some(JStr(role))
    ensures Probe(ChatMessage(role, content), [Key("content")]) == Some(JStr(content))
  {
    ProbeMember(["role", "content"], [JStr(role), JStr(content)], 0, []);
    ProbeMember(["role", "content"], [JStr(role), JStr(content)], 1, []);
  }

  /** The chat message list holds exactly two messages: the system prompt,
      then the user's question. */
  lemma ChatMessagesFields(prompt: string, question: string)
    ensures Probe(ChatMessages(prompt, question), [Index(0), Key("role")]) == Some(JStr("system"))
    ensures Probe(ChatMessages(prompt, question), [Index(0), Key("content")]) == Some(JStr(prompt))
    ensures Probe(ChatMessages(prompt, question), [Index(1), Key("role")]) == Some(JStr("user"))
    ensures Probe(ChatMessages(prompt, question), [Index(1), Key("content")]) == Some(JStr(question))
    ensures Probe(ChatMessages(prompt, question), [Index(2)]) == None
  {
    var items := [ChatMessage("system", prompt), ChatMessage("user", question)];
    MessageFields("system", prompt);
    MessageFields("user", question);
    ProbeItem(items, 0, [Key("role")]);
    ProbeItem(items, 0, [Key("content")]);
    ProbeItem(items, 1, [Key("role")]);
    ProbeItem(items, 1, [Key("content")]);
  }

  /** `callOpenAI`'s request: the endpoint, a bearer token, and the chat
      body built from the entry's settings, the system prompt and the
      question. */
  function OpenAIRequest(e: ProviderEntry, question: string, context: Value, env: Env): (r: HttpRequest)
    requires context.IsArray()
    ensures r.url == e.endpoint.GetOr(DefaultEndpoint(OpenAI))
    ensures r.headers == [JsonContentType, "Authorization: Bearer " + e.apiKey.GetOr("")]
    ensures r.payload == ChatPayload(SettingsFor(OpenAI, e), SystemPrompt(context, env.encode), question)
  {
    var s := SettingsFor(OpenAI, e);
    HttpRequest(s.endpoint, [JsonContentType, "Authorization: Bearer " + s.apiKey],
                ChatPayload(s, SystemPrompt(context, env.encode), question))
  }

  /** The single-message list of the Anthropic body. */
  function UserMessages(question: string): Value {
    JArr([ChatMessage("user", question)])
  }

  /** The Anthropic list holds exactly one message: the user's question. */
  lemma UserMessagesFields(question: string)
    ensures Probe(UserMessages(question), [Index(0), Key("role")]) == Some(JStr("user"))
    ensures Probe(UserMessages(question), [Index(0), Key("content")]) == Some(JStr(question))
    ensures Probe(UserMessages(question), [Index(1)]) == None
  {
    MessageFields("user", question);
    ProbeItem([ChatMessage("user", question)], 0, [Key("role")]);
    ProbeItem([ChatMessage("user", question)], 0, [Key("content")]);
  }

  /** The Anthropic messages body: the settings, the system prompt in its
      own field, and the single user message. */
  function AnthropicPayload(s: CallSettings, prompt: string, question: string): Value {
    JObj(Zip(["model", "max_tokens", "temperature", "system", "messages"],
             [JStr(s.model), JInt(s.maxTokens), JFloat(s.temperature), JStr(prompt), UserMessages(question)]))
  }

  /** The Anthropic body carries the settings, the system prompt under
      `system` rather than as a message, and the user message list. */
  lemma AnthropicPayloadFields(s: CallSettings, prompt: string, question: string)
    ensures Probe(AnthropicPayload(s, prompt, question), [Key("model")]) == Some(JStr(s.model))
    ensures Probe(AnthropicPayload(s, prompt, question), [Key("max_tokens")]) == Some(JInt(s.maxTokens))
    ensures Probe(AnthropicPayload(s, prompt, question), [Key("temperature")]) == Some(JFloat(s.temperature))
    ensures Probe(AnthropicPayload(s, prompt, question), [Key("system")]) == Some(JStr(prompt))
    ensures Probe(AnthropicPayload(s, prompt, question), [Key("messages")]) == Some(UserMessages(question))
  {
    var ks := ["model", "max_tokens", "temperature", "system", "messages"];
    var vs := [JStr(s.model), JInt(s.maxTokens), JFloat(s.temperature), JStr(prompt), UserMessages(question)];
    assert Distinct(ks);
    ProbeMember(ks, vs, 0, []);
    ProbeMember(ks, vs, 1, []);
    ProbeMember(ks, vs, 2, []);
    ProbeMember(ks, vs, 3, []);
    ProbeMember(ks, vs, 4, []);
    assert [Key("model")] == [Key(ks[0])] + [];
    assert [Key("max_tokens")] == [Key(ks[1])] + [];
    assert [Key("temperature")] == [Key(ks[2])] + [];
    assert [Key("system")] == [Key(ks[3])] + [];
    assert [Key("messages")] == [Key(ks[4])] + [];
  }

  /** `callAnthropic`'s request: the key and API version in dedicated
      headers, and the messages body with the system prompt. */
  function AnthropicRequest(e: ProviderEntry, question: string, context: Value, env: Env): (r: HttpRequest)
    requires context.IsArray()
    ensures r.url == e.endpoint.GetOr(DefaultEndpoint(Anthropic))
    ensures r.headers == [JsonContentType, AnthropicVersionHeader, "x-api-key: " + e.apiKey.GetOr("")]
    ensures r.payload == AnthropicPayload(SettingsFor(Anthropic, e), SystemPrompt(context, env.encode), question)
  {
    var s := SettingsFor(Anthropic, e);
    HttpRequest(s.endpoint, [JsonContentType, AnthropicVersionHeader, "x-api-key: " + s.apiKey],
                AnthropicPayload(s, SystemPrompt(context, env.encode), question))
  }

  /** The Gemini URL: the endpoint without trailing slashes, the model and
      the action, with the key as a query parameter. */
  function GeminiUrl(s: CallSettings): string {
    TrimSlashes(s.endpoint) + "/" + s.model + ":generateContent?key=" + s.apiKey
  }

  /** The single text part Gemini receives: prompt and question in one. */
  function GeminiText(prompt: string, question: string): string {
    prompt + "\n\nUser question: " + question
  }

  /** `callGemini`'s request: key in the URL, no auth header, one content
      part, and the generation settings under `generationConfig`. */
  function GeminiRequest(e: ProviderEntry, question: string, context: Value, env: Env): (r: HttpRequest)
    requires context.IsArray()
    ensures r.headers == [JsonContentType]
    ensures r.url == TrimSlashes(e.endpoint.GetOr(DefaultEndpoint(Gemini))) + "/" + e.model.GetOr(DefaultModel(Gemini))
                     + ":generateContent?key=" + e.apiKey.GetOr("")
    ensures r.payload == GeminiPayload(SettingsFor(Gemini, e), SystemPrompt(context, env.encode) + "\n\nUser question: " + question)
    ensures Probe(r.payload, [Key("generationConfig"), Key("temperature")]) == Some(JFloat(e.temperature.GetOr(DefaultTemperature)))
    ensures Probe(r.payload, [Key("generationConfig"), Key("maxOutputTokens")]) == Some(JInt(e.maxTokens.GetOr(DefaultMaxTokens)))
  {
    var s := SettingsFor(Gemini, e);
    var text := GeminiText(SystemPrompt(context, env.encode), question);
    GeminiPayloadFields(s, text);
    HttpRequest(GeminiUrl(s), [JsonContentType], GeminiPayload(s, text))
  }

  /** The Gemini body around one text part. */
  function GeminiPayload(s: CallSettings, text: string): Value {
    var part := JObj(Zip(["text"], [JStr(text)]));
    var content := JObj(Zip(["parts"], [JArr([part])]));
    var generation := JObj(Zip(["temperature", "maxOutputTokens"], [JFloat(s.temperature), JInt(s.maxTokens)]));
    JObj(Zip(["contents", "generationConfig"], [JArr([content]), generation]))
  }

  /** The Gemini body carries the temperature and the token limit from the
      settings under `generationConfig`, as `temperature` and
      `maxOutputTokens`. */
  lemma GeminiPayloadFields(s: CallSettings, text: string)
    ensures Probe(GeminiPayload(s, text), [Key("generationConfig"), Key("temperature")]) == Some(JFloat(s.temperature))
    ensures Probe(GeminiPayload(s, text), [Key("generationConfig"), Key("maxOutputTokens")]) == Some(JInt(s.maxTokens))
  {
    var part := JObj(Zip(["text"], [JStr(text)]));
    var content := JObj(Zip(["parts"], [JArr([part])]));
    var gks := ["temperature", "maxOutputTokens"];
    var gvs := [JFloat(s.temperature), JInt(s.maxTokens)];
    var tks := ["contents", "generationConfig"];
    var tvs := [JArr([content]), JObj(Zip(gks, gvs))];
    assert Distinct(gks) && Distinct(tks);
    ProbeMember(tks, tvs, 1, [Key("temperature")]);
    ProbeMember(tks, tvs, 1, [Key("maxOutputTokens")]);
    ProbeMember(gks, gvs, 0, []);
    ProbeMember(gks, gvs, 1, []);
    assert [Key("generationConfig"), Key("temperature")] == [Key(tks[1])] + [Key("temperature")];
    assert [Key("generationConfig"), Key("maxOutputTokens")] == [Key(tks[1])] + [Key("maxOutputTokens")];
    assert [Key("temperature")] == [Key(gks[0])] + [];
    assert [Key("maxOutputTokens")] == [Key(gks[1])] + [];
  }

  /** The Gemini body carries the prompt and the question as the single
      text part of its single content entry. */
  lemma GeminiSinglePart(s: CallSettings, text: string)
    ensures Probe(GeminiPayload(s, text), [Key("contents"), Index(0), Key("parts"), Index(0), Key("text")])
            == Some(JStr(text))
  {
    var part := JObj(Zip(["text"], [JStr(text)]));
    var content := JObj(Zip(["parts"], [JArr([part])]));
    var generation := JObj(Zip(["temperature", "maxOutputTokens"], [JFloat(s.temperature), JInt(s.maxTokens)]));
    var top := JObj(Zip(["contents", "generationConfig"], [JArr([content]), generation]));
    var path := [Key("contents"), Index(0), Key("parts"), Index(0), Key("text")];
    assert Probe(part, path[4..]) == Some(JStr(text)) by {
      GetZipFirst(["text"], [JStr(text)]);
      assert Subscript(part, Key("text")) == Some(JStr(text));
      assert path[4..][1..] == [];
    }
    assert Probe(content, path[2..]) == Probe(part, path[4..]) by {
      GetZipFirst(["parts"], [JArr([part])]);
      assert Subscript(content, Key("parts")) == Some(JArr([part]));
      assert path[2..][1..] == path[3..] && path[3..][1..] == path[4..];
    }
    assert Probe(top, path) == Probe(content, path[2..]) by {
      GetZipFirst(["contents", "generationConfig"], [JArr([content]), generation]);
      assert Subscript(top, Key("contents")) == Some(JArr([content]));
      assert path[1..][1..] == path[2..];
    }
  }

  /** The `key: value` lines for the decoded custom headers, in order; a
      list contributes its indices as names. */
  function HeaderLines(v: Value): (lines: seq<string>)
    ensures v.JObj? ==> |lines| == |v.members|
                        && forall i | 0 <= i < |v.members| :: lines[i] == v.members[i].0 + ": " + ToPhpString(v.members[i].1)
    ensures v.JArr? ==> |lines| == |v.items|
                        && forall i | 0 <= i < |v.items| :: lines[i] == IntToDecimal(i) + ": " + ToPhpString(v.items[i])
    ensures !v.IsArray() ==> lines == []
  {
    match v
    case JObj(ms) => MemberLines(ms)
    case JArr(items) => ItemLines(items, 0)
    case _ => []
  }

  function MemberLines(ms: seq<(string, Value)>): (lines: seq<string>)
    ensures |lines| == |ms|
    ensures forall i | 0 <= i < |ms| :: lines[i] == ms[i].0 + ": " + ToPhpString(ms[i].1)
  {
    if |ms| == 0 then [] else [ms[0].0 + ": " + ToPhpString(ms[0].1)] + MemberLines(ms[1..])
  }

  function ItemLines(items: seq<Value>, from: nat): (lines: seq<string>)
    ensures |lines| == |items|
    ensures forall i | 0 <= i < |items| :: lines[i] == IntToDecimal(from + i) + ": " + ToPhpString(items[i])
  {
    if |items| == 0 then [] else [IntToDecimal(from) + ": " + ToPhpString(items[0])] + ItemLines(items[1..], from + 1)
  }

  /** The extra header lines of the custom provider: only when `headers` is
      non-empty and decodes to an array. */
  function ExtraHeaders(headers: Option<string>, decode: string -> Value): (lines: seq<string>)
    ensures !TruthyOpt(headers) ==> lines == []
    ensures TruthyOpt(headers) && !decode(headers.value).IsArray() ==> lines == []
    ensures TruthyOpt(headers) && decode(headers.value).JObj? ==>
              var ms := decode(headers.value).members;
              |lines| == |ms| && forall i | 0 <= i < |ms| :: lines[i] == ms[i].0 + ": " + ToPhpString(ms[i].1)
    ensures TruthyOpt(headers) && decode(headers.value).JArr? ==>
              var items := decode(headers.value).items;
              |lines| == |items| && forall i | 0 <= i < |items| :: lines[i] == IntToDecimal(i) + ": " + ToPhpString(items[i])
  {
    if TruthyOpt(headers) then HeaderLines(decode(headers.value)) else []
  }

  /** A header line that sets `Authorization`. */
  predicate IsAuthorization(h: string) {
    |h| >= 15 && h[..15] == "Authorization: "
  }

  /** The custom provider's header lines: the content type, a bearer token
      when the key is not "", then the extra lines. */
  function CustomHeaders(key: string, extra: seq<string>): seq<string> {
    [JsonContentType] + (if key != "" then ["Authorization: Bearer " + key] else []) + extra
  }

  /** Among the custom provider's own header lines (those before the
      configured ones), an `Authorization` line is present exactly when the
      key is not ""; the configured lines follow, unchanged and in order,
      whatever they contain. */
  lemma CustomBearerIffKey(key: string, extra: seq<string>)
    ensures var hs := CustomHeaders(key, extra);
            (exists h | h in hs[..|hs| - |extra|] :: IsAuthorization(h)) <==> key != ""
    ensures CustomHeaders(key, extra)[|CustomHeaders(key, extra)| - |extra|..] == extra
  {
    var hs := CustomHeaders(key, extra);
    assert !IsAuthorization(JsonContentType) by {
      assert JsonContentType[..15] != "Authorization: " by { assert JsonContentType[0] != 'A'; }
    }
    if key != "" {
      var h := "Authorization: Bearer " + key;
      assert hs[1] == h;
      assert h[..15] == "Authorization: ";
      assert IsAuthorization(h);
      assert h in hs[..|hs| - |extra|];
    } else {
      assert hs == [JsonContentType] + extra;
      assert hs[..|hs| - |extra|] == [JsonContentType];
    }
  }

  /** `callCustom`'s request: refused before anything is sent when the
      endpoint is empty; otherwise sent to the endpoint with the custom
      header lines built from the key and the configured extra headers. */
  function CustomRequest(e: ProviderEntry, question: string, context: Value, env: Env): (r: Result<HttpRequest, CallError>)
    requires context.IsArray()
    ensures e.endpoint.GetOr("") == "" <==> r.Failure?
    ensures r.Failure? ==> r.error == CustomEndpointMissing
    ensures r.Success? ==>
              && r.value.url == e.endpoint.value
              && r.value.headers == CustomHeaders(e.apiKey.GetOr(""), ExtraHeaders(e.headers, env.decode))
              && r.value.payload == ChatPayload(SettingsFor(Custom, e), SystemPrompt(context, env.encode), question)
  {
    var s := SettingsFor(Custom, e);
    if s.endpoint == "" then Failure(CustomEndpointMissing)
    else
      var headers := CustomHeaders(s.apiKey, ExtraHeaders(e.headers, env.decode));
      Success(HttpRequest(s.endpoint, headers, ChatPayload(s, SystemPrompt(context, env.encode), question)))
  }

  // ---------------------------------------------------------------------------
  // Response handling
  // ---------------------------------------------------------------------------

  /** `postJson`: a curl error wins whatever the status; otherwise a status
      of 400 or more is an error carrying status and body; otherwise the
      decoded body is the data. */
  function PostJson(r: CurlResult): (res: Result<Value, CallError>)
    ensures res.Success? <==> !Truthy(r.error) && r.code < 400
    ensures Truthy(r.error) ==> res == Failure(TransportFailed(r.error))
    ensures !Truthy(r.error) && res.Failure? ==> res.error == HttpStatus(r.code, r.body)
    ensures res.Success? ==> res.value == r.decoded
  {
    if Truthy(r.error) then Failure(TransportFailed(r.error))
    else if r.code >= 400 then Failure(HttpStatus(r.code, r.body))
    else Success(r.decoded)
  }

  const ChatContentPath: seq<Step> := [Key("choices"), Index(0), Key("message"), Key("content")]
  const AnthropicTextPath: seq<Step> := [Key("content"), Index(0), Key("text")]
  const GeminiTextPath: seq<Step> := [Key("candidates"), Index(0), Key("content"), Key("parts"), Index(0), Key("text")]
  const ResponsePath: seq<Step> := [Key("response")]
  const TextPath: seq<Step> := [Key("text")]

  /** An adapter returning a set value: a string is the answer; anything
      else violates the `string` return type. */
  function AsAnswer(v: Value): (r: Result<string, CallError>)
    ensures r.Success? <==> v.JStr?
    ensures r.Success? ==> r.value == v.s
    ensures r.Failure? ==> r.error == AnswerNotString
  {
    if v.JStr? then Success(v.s) else Failure(AnswerNotString)
  }

  /** The answer at one path, or `missing` when the path is not set. */
  function AnswerAt(data: Value, path: seq<Step>, missing: CallError): (r: Result<string, CallError>)
    ensures Probe(data, path).None? ==> r == Failure(missing)
    ensures r.Success? <==> Probe(data, path).Some? && Probe(data, path).value.JStr?
    ensures r.Success? ==> r.value == Probe(data, path).value.s
    ensures Probe(data, path).Some? && r.Failure? ==> r.error == AnswerNotString
  {
    match Probe(data, path)
    case Some(v) => AsAnswer(v)
    case None => Failure(missing)
  }

  /** The custom adapter's extraction: the chat-completion content, else a
      flat `response`, else a flat `text`. */
  function CustomAnswer(data: Value): Result<string, CallError> {
    match Probe(data, ChatContentPath)
    case Some(v) => AsAnswer(v)
    case None =>
      match Probe(data, ResponsePath)
      case Some(v) => AsAnswer(v)
      case None => AnswerAt(data, TextPath, UnparsableCustomResponse)
  }

  /** The first of several paths that is set, with its value. */
  function FirstSet(data: Value, paths: seq<seq<Step>>): (r: Option<Value>)
    ensures r.None? <==> forall i | 0 <= i < |paths| :: Probe(data, paths[i]).None?
    decreases |paths|
  {
    if |paths| == 0 then None
    else if Probe(data, paths[0]).Some? then Probe(data, paths[0])
    else
      var r := FirstSet(data, paths[1..]);
      assert forall i | 1 <= i < |paths| :: paths[i] == paths[1..][i - 1];
      r
  }

  /** A value `FirstSet` finds is the one at some set path, and every path
      before that one is not set: the search takes the first match. */
  lemma {:induction false} FirstSetIsFirst(data: Value, paths: seq<seq<Step>>)
    ensures FirstSet(data, paths).Some? ==>
              exists i | 0 <= i < |paths| ::
                && FirstSet(data, paths) == Probe(data, paths[i])
                && forall j | 0 <= j < i :: Probe(data, paths[j]).None?
    decreases |paths|
  {
    if |paths| > 0 {
      if Probe(data, paths[0]).Some? {
        assert FirstSet(data, paths) == Probe(data, paths[0]);
      } else {
        var t := paths[1..];
        FirstSetIsFirst(data, t);
        assert FirstSet(data, paths) == FirstSet(data, t);
        if FirstSet(data, t).Some? {
          var k :| 0 <= k < |t| && FirstSet(data, t) == Probe(data, t[k])
                   && forall j | 0 <= j < k :: Probe(data, t[j]).None?;
          assert t[k] == paths[k + 1];
          forall j | 0 <= j < k + 1 ensures Probe(data, paths[j]).None? {
            if j > 0 { assert paths[j] == t[j - 1]; }
          }
        }
      }
    }
  }

  /** The custom adapter answers with the first of its three paths that is
      set, and fails only when none is. */
  lemma CustomAnswerIsFirstSet(data: Value)
    ensures CustomAnswer(data) ==
      match FirstSet(data, [ChatContentPath, ResponsePath, TextPath])
      case Some(v) => AsAnswer(v)
      case None => Failure(UnparsableCustomResponse)
  {
    var paths := [ChatContentPath, ResponsePath, TextPath];
    assert paths[1..] == [ResponsePath, TextPath];
    assert paths[1..][1..] == [TextPath];
    assert [TextPath][1..] == [];
    assert FirstSet(data, [TextPath]) == Probe(data, TextPath);
    if Probe(data, ChatContentPath).None? {
      assert FirstSet(data, paths) == FirstSet(data, [ResponsePath, TextPath]);
      if Probe(data, ResponsePath).None? {
        assert FirstSet(data, [ResponsePath, TextPath]) == FirstSet(data, [TextPath]);
      }
    }
  }

  // ---------------------------------------------------------------------------
  // Dispatch
  // ---------------------------------------------------------------------------

  /** The requests a call sent (none or one) and its outcome. */
  datatype CallOutcome = CallOutcome(sent: seq<HttpRequest>, result: Result<string, CallError>)

  /** Sends one request and extracts the answer from a successful response. */
  function Exchange(req: HttpRequest, env: Env, extract: Value -> Result<string, CallError>): (o: CallOutcome)
    ensures o.sent == [req]
    ensures PostJson(env.transport(req)).Failure? ==> o.result == Failure(PostJson(env.transport(req)).error)
    ensures PostJson(env.transport(req)).Success? ==> o.result == extract(env.transport(req).decoded)
  {
    CallOutcome([req],
      match PostJson(env.transport(req))
      case Failure(err) => Failure(err)
      case Success(data) => extract(data))
  }

  /** The request an adapter would send, or the error raised before any
      request is built. */
  function RequestFor(name: string, e: ProviderEntry, question: string, context: Value, env: Env): (r: Result<HttpRequest, CallError>)
    requires context.IsArray()
    ensures name !in KnownProviders <==> r == Failure(UnknownProvider(name))
    ensures name == OpenAI ==> r == Success(OpenAIRequest(e, question, context, env))
    ensures name == Anthropic ==> r == Success(AnthropicRequest(e, question, context, env))
    ensures name == Gemini ==> r == Success(GeminiRequest(e, question, context, env))
    ensures name == Custom ==> r == CustomRequest(e, question, context, env)
  {
    if name == Gemini then Success(GeminiRequest(e, question, context, env))
    else if name == Anthropic then Success(AnthropicRequest(e, question, context, env))
    else if name == OpenAI then Success(OpenAIRequest(e, question, context, env))
    else if name == Custom then CustomRequest(e, question, context, env)
    else Failure(UnknownProvider(name))
  }

  /** `candidates[0].content.parts[0].text`, or the Gemini error. */
  function GeminiAnswer(data: Value): (r: Result<string, CallError>)
    ensures Probe(data, GeminiTextPath).None? ==> r == Failure(InvalidResponse("Gemini"))
    ensures forall s :: Probe(data, GeminiTextPath) == Some(JStr(s)) ==> r == Success(s)
    ensures r.Success? ==> Probe(data, GeminiTextPath) == Some(JStr(r.value))
  {
    AnswerAt(data, GeminiTextPath, InvalidResponse("Gemini"))
  }

  /** `content[0].text`, or the Anthropic error. */
  function AnthropicAnswer(data: Value): (r: Result<string, CallError>)
    ensures Probe(data, AnthropicTextPath).None? ==> r == Failure(InvalidResponse("Anthropic"))
    ensures forall s :: Probe(data, AnthropicTextPath) == Some(JStr(s)) ==> r == Success(s)
    ensures r.Success? ==> Probe(data, AnthropicTextPath) == Some(JStr(r.value))
  {
    AnswerAt(data, AnthropicTextPath, InvalidResponse("Anthropic"))
  }

  /** `choices[0].message.content`, or the OpenAI error. */
  function OpenAIAnswer(data: Value): (r: Result<string, CallError>)
    ensures Probe(data, ChatContentPath).None? ==> r == Failure(InvalidResponse("OpenAI"))
    ensures forall s :: Probe(data, ChatContentPath) == Some(JStr(s)) ==> r == Success(s)
    ensures r.Success? ==> Probe(data, ChatContentPath) == Some(JStr(r.value))
  {
    AnswerAt(data, ChatContentPath, InvalidResponse("OpenAI"))
  }

  /** How each adapter reads its answer out of the decoded body: the two
      chat-format adapters both try `choices[0].message.content` first, and
      only the custom one falls back to other paths. */
  function AnswerFor(name: string, data: Value): (r: Result<string, CallError>)
    ensures (name == OpenAI || name !in KnownProviders || name == Custom) && Probe(data, ChatContentPath).Some? ==>
              r == AsAnswer(Probe(data, ChatContentPath).value)
    ensures name == Gemini ==> r == GeminiAnswer(data)
    ensures name == Anthropic ==> r == AnthropicAnswer(data)
    ensures name == OpenAI ==> r == OpenAIAnswer(data)
    ensures name != Gemini && name != Anthropic && name != OpenAI ==> r == CustomAnswer(data)
    ensures r.Failure? && r.error != AnswerNotString ==>
              r.error == if name == Gemini then InvalidResponse("Gemini")
                         else if name == Anthropic then InvalidResponse("Anthropic")
                         else if name == OpenAI then InvalidResponse("OpenAI")
                         else UnparsableCustomResponse
  {
    if name == Gemini then GeminiAnswer(data)
    else if name == Anthropic then AnthropicAnswer(data)
    else if name == OpenAI then OpenAIAnswer(data)
    else CustomAnswer(data)
  }

  /** `callProvider`: dispatch by name to one of the four adapters. An
      unknown name and a custom provider without endpoint fail without
      sending anything; otherwise exactly the adapter's request is sent and
      the adapter's extraction reads the answer from a successful response. */
  function CallProvider(name: string, e: ProviderEntry, question: string, context: Value, env: Env): (o: CallOutcome)
    requires context.IsArray()
    ensures RequestFor(name, e, question, context, env).Failure? ==>
              o == CallOutcome([], Failure(RequestFor(name, e, question, context, env).error))
    ensures RequestFor(name, e, question, context, env).Success? ==>
              && o.sent == [RequestFor(name, e, question, context, env).value]
              && (PostJson(env.transport(o.sent[0])).Failure? ==> o.result == Failure(PostJson(env.transport(o.sent[0])).error))
              && (PostJson(env.transport(o.sent[0])).Success? ==> o.result == AnswerFor(name, env.transport(o.sent[0]).decoded))
  {
    match RequestFor(name, e, question, context, env)
    case Failure(err) => CallOutcome([], Failure(err))
    case Success(req) => Exchange(req, env, data => AnswerFor(name, data))
  }

  /** A call answers only after exactly one request whose response passed
      the transport and status checks. */
  lemma AnswerNeedsOneGoodResponse(name: string, e: ProviderEntry, question: string, context: Value, env: Env)
    requires context.IsArray()
    ensures var o := CallProvider(name, e, question, context, env);
            o.result.Success? ==> |o.sent| == 1 && PostJson(env.transport(o.sent[0])).Success?
    ensures name !in KnownProviders ==> CallProvider(name, e, question, context, env).sent == []
  {
  }
}
