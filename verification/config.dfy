/** The configuration document shared by every handler: a map of provider
    entries, the default provider, the quick-action toggles and a save
    timestamp, as `json_decode` yields it from either store. */
module Config {
  import opened Wrappers
  import opened Php
  import Json

  /** A top-level key of a decoded document. `array_merge` keeps a key whose
      value is `null`, so absence and `null` are told apart here. */
  datatype Field<+T> = Absent | Null | Present(value: T) {

    /** `isset($doc[key])`. */
    predicate IsSet() {
      Present?
    }

    /** `$doc[key] ?? $default`. */
    function Or(default: T): T {
      if Present? then value else default
    }
  }

  /** One provider's settings. Every reader goes through `isset`, `??` or
      `empty`, which treat `null` as missing, so `None` stands for both. */
  datatype ProviderEntry = ProviderEntry(
    enabled: Option<bool>,
    endpoint: Option<string>,
    model: Option<string>,
    temperature: Option<Json.Float>,
    maxTokens: Option<int>,
    headers: Option<string>,
    apiKey: Option<string>)
  {
    /** `!empty($provider['enabled'])`. */
    predicate Enabled() {
      enabled == Some(true)
    }

    /** `!empty($provider['api_key'])`. */
    predicate HasApiKey() {
      TruthyOpt(apiKey)
    }
  }

  type Providers = Assoc<ProviderEntry>
  type QuickActions = Assoc<bool>

  datatype Doc = Doc(
    providers: Field<Providers>,
    defaultProvider: Field<string>,
    quickActions: Field<QuickActions>,
    updatedAt: Field<string>)
  {
    /** `$config['providers'] ?? []`. */
    function ProviderList(): Providers {
      providers.Or([])
    }

    /** `$config['providers'][$name]`, when set. */
    function Entry(name: string): Option<ProviderEntry> {
      Get(ProviderList(), name)
    }
  }

  /** What `json_decode($text, true)` gave for a stored document: an array,
      or anything else (a scalar, or `null` for text that is not JSON). */
  datatype Decoded = ArrayDoc(doc: Doc) | NotArray

  const OpenAI: string := "openai"
  const Anthropic: string := "anthropic"
  const Gemini: string := "gemini"
  const Custom: string := "custom"

  /** The four providers the module knows, in the order it lists them. */
  const KnownProviders: seq<string> := [OpenAI, Anthropic, Gemini, Custom]

  const DefaultTemperature: Json.Float := Json.Float("0.7")
  const DefaultMaxTokens: int := 2048

  /** The endpoint a provider gets when none is configured. */
  function DefaultEndpoint(name: string): string {
    if name == OpenAI then "https://api.openai.com/v1/chat/completions"
    else if name == Anthropic then "https://api.anthropic.com/v1/messages"
    else if name == Gemini then "https://generativelanguage.googleapis.com/v1beta/models"
    else ""
  }

  /** The model a provider gets when none is configured. */
  function DefaultModel(name: string): string {
    if name == OpenAI then "gpt-4o-mini"
    else if name == Anthropic then "claude-3-haiku-20240307"
    else if name == Gemini then "gemini-pro"
    else ""
  }

  /** The built-in entry for one provider: disabled, no key, and an empty
      extra-headers object for `custom` only. */
  function DefaultEntry(name: string): ProviderEntry {
    ProviderEntry(
      enabled := Some(false),
      endpoint := Some(DefaultEndpoint(name)),
      model := Some(DefaultModel(name)),
      temperature := Some(DefaultTemperature),
      maxTokens := Some(DefaultMaxTokens),
      headers := if name == Custom then Some("{}") else None,
      apiKey := Some(""))
  }

  /** No provider is listed twice. */
  lemma KnownProvidersDistinct()
    ensures Distinct(KnownProviders)
  {
    assert Distinct([Custom]);
    assert Distinct([Gemini, Custom]) by { assert [Gemini, Custom][1..] == [Custom]; }
    assert Distinct([Anthropic, Gemini, Custom]) by { assert [Anthropic, Gemini, Custom][1..] == [Gemini, Custom]; }
    assert KnownProviders[1..] == [Anthropic, Gemini, Custom];
  }

  /** The quick actions the module knows, in the order it lists them. */
  const QuickActionNames: seq<string> := ["problems", "triggers", "items", "hosts"]

  lemma QuickActionNamesDistinct()
    ensures Distinct(QuickActionNames)
  {
    assert Distinct(["hosts"]);
    assert Distinct(["items", "hosts"]) by { assert ["items", "hosts"][1..] == ["hosts"]; }
    assert Distinct(["triggers", "items", "hosts"]) by { assert ["triggers", "items", "hosts"][1..] == ["items", "hosts"]; }
    assert QuickActionNames[1..] == ["triggers", "items", "hosts"];
  }

  /** The four quick-action toggles, all on. */
  const DefaultQuickActions: QuickActions :=
    [("problems", true), ("triggers", true), ("items", true), ("hosts", true)]

  /** The built-in configuration: the four providers, all disabled and
      without keys, `openai` as default, every quick action on. */
  function Defaults(): (d: Doc)
    ensures d.providers.Present? && Keys(d.providers.value) == KnownProviders
    ensures forall name | name in KnownProviders ::
              d.Entry(name) == Some(DefaultEntry(name)) && !d.Entry(name).value.Enabled()
    ensures d.defaultProvider == Present(OpenAI)
    ensures d.quickActions == Present(DefaultQuickActions)
    ensures forall a | a in QuickActionNames :: Get(d.quickActions.value, a) == Some(true)
    ensures d.updatedAt == Absent
  {
    KnownProvidersDistinct();
    var ps := Tabulate(KnownProviders, DefaultEntry);
    Doc(Present(ps), Present(OpenAI), Present(DefaultQuickActions), Absent)
  }

  /** The JSON configuration file read by the settings pages and the
      provider listing. */
  datatype FileStore = NoFile | ConfigFile(decoded: Decoded)

  /** A document with an empty provider map and nothing else. */
  const EmptyDoc: Doc := Doc(Present([]), Absent, Absent, Absent)

  /** Reading the configuration file: a missing file or content that does
      not decode to an array both give an empty provider map. */
  function ReadConfigFile(f: FileStore): (d: Doc)
    ensures !(f.ConfigFile? && f.decoded.ArrayDoc?) ==> d == EmptyDoc
    ensures f.ConfigFile? && f.decoded.ArrayDoc? ==> d == f.decoded.doc
  {
    match f
    case NoFile => EmptyDoc
    case ConfigFile(ArrayDoc(doc)) => doc
    case ConfigFile(NotArray) => EmptyDoc
  }
}
