# AI Integration module: a verified model of its decision logic

The AI Integration module adds an AI assistant to the Zabbix web front end.
Users ask questions about their monitoring data. The server relays each
question to one of four AI providers: OpenAI, Anthropic, Gemini, or a custom
endpoint that speaks the chat-completion format. Settings are kept per
installation and per user. API keys are encrypted in the profile store; the
settings page's JSON file keeps them in plaintext.

This project models the pure logic inside the module's request handlers.
Each handler becomes a pure function. Storage, cryptography, JSON encoding,
the clock and HTTP enter as parameters or abstract stores.

- `wrappers.dfy` (`Wrappers`): `Option` and `Result`.
- `php.dfy` (`Php`): the PHP semantics the code relies on:
  - truthiness of strings (`!empty`), where "" and "0" are empty;
  - `trim` and `rtrim`;
  - integer-to-string conversion;
  - string-keyed arrays as ordered sequences with distinct keys (`Assoc`), with lookup, assignment and `array_merge`.
- `json.dfy` (`Json`): decoded JSON values. `Probe` models an `isset($v[a][0][b])` chain together with the value it finds.
- `config.dfy` (`Config`): the configuration document, the provider entry, the built-in defaults, and reading the JSON configuration file.
- `secrets.dfy` (`Secrets`): master-key derivation and the encryption and decryption of every `api_key`. The cipher is a pair of functions. `Ideal` states what the round-trip proofs assume of it.
- `config_manager.dfy` (`ConfigManager`): the profile store and the global and user configurations, their merge in `load`, and the two save operations.
- `gateway.dfy` (`Gateway`): the provider adapters of the query handler:
  - the system prompt;
  - one request builder per provider;
  - the classification of the HTTP outcome in `postJson`;
  - answer extraction, including the custom provider's three-path fallback;
  - dispatch by name.
- `query.dfy` (`Query`): the query handler itself:
  - reading the request body;
  - the ordered validation;
  - the choice of provider;
  - the JSON reply.
- `settings_save.dfy` (`SettingsSave`): the settings form handler. It turns the posted fields and the current file into a complete new configuration.
- `provider_listing.dfy` (`ProviderListing`): the provider listing the front end reads.
- `settings_view.dfy` (`SettingsView`): what the settings page derives before rendering. This includes the masked key field.

Two stores are kept apart because the code keeps them apart:

- The profile store (`ConfigManager.ProfileStore`) is what the query handler loads through `ConfigManager::load`.
- The JSON configuration file (`Config.FileStore`) is what the settings form writes and what the listing and the settings page read.

Nothing here assumes the two agree.

## Model

| member | source | states |
|---|---|---|
| Php.Trim | actions/AIIntegrationQuery.php:28-29 | The result is the slice of the input left after cutting only blanks (space, tab, LF, CR, NUL, VT) off both ends. It neither starts nor ends with a blank. |
| Php.TrimIdempotent | actions/AIIntegrationQuery.php:28-29 | Trimming a trimmed string changes nothing. |
| Php.TrimKeepsUnpadded | actions/AIIntegrationSettingsSave.php:84-86 | A string with no blank at either end, such as "" or the mask, is its own trim. |
| Php.TrimSlashes | actions/AIIntegrationQuery.php:110 | `rtrim($endpoint, '/')` removes only trailing slashes, and the result does not end in one. |
| Php.NatToDecimal | actions/AIIntegrationQuery.php:295 | The status code's text is a non-empty run of digits with no leading zero, and its decimal value is the number. |
| Php.IntToDecimal | actions/AIIntegrationQuery.php:295 | A non-negative integer is its plain digits. A negative one is "-" followed by the digits of its magnitude. |
| Php.IntToDecimalInjective | actions/AIIntegrationQuery.php:295 | Distinct integers give distinct texts, so the status code in an error message determines the code. |
| Php.GetMerge | actions/AIIntegrationProviders.php:82 | After `array_merge`, each key's value comes from the second array when it has the key, and from the first otherwise. |
| Php.MergeKeepsBaseOrder | actions/AIIntegrationProviders.php:82 | `array_merge` keeps the first array's keys first, in their order. |
| Json.Probe | actions/AIIntegrationQuery.php:131 | An empty chain finds the value itself, or nothing when it is null. A non-empty chain follows its first subscript and probes the rest; a missing subscript finds nothing. A found value is never null. |
| Config.Defaults | classes/ConfigManager.php:201-245 | The defaults hold exactly openai, anthropic, gemini and custom, in that order. Each is the built-in entry and is disabled. The default provider is openai, every quick action is on, and there is no save time. |
| Config.ReadConfigFile | actions/AIIntegrationProviders.php:57-68 | A missing file, or content that does not decode to an array, reads as a document with an empty provider map. Otherwise the decoded document is read. |
| ConfigManager.MergeTop | classes/ConfigManager.php:58 | The stored document replaces each default top-level key it has, wholesale. Keys it lacks keep the default. |
| ConfigManager.GetGlobalConfig | classes/ConfigManager.php:47-62 | Nothing usable stored gives exactly the defaults. Otherwise the stored default provider and quick actions win over the defaults (openai, all on), the save time is the stored one, and a stored provider map replaces the default map. Each stored entry comes back with every field as stored and its key opened, a key that fails to open kept as stored. |
| ConfigManager.DecryptDefaultsUnchanged | classes/ConfigManager.php:58-59 | Decrypting the defaults' provider map changes nothing, since every default key is "". |
| ConfigManager.GetUserConfig | classes/ConfigManager.php:67-81 | Nothing usable stored gives an empty provider map. Otherwise the stored document is used with the same top-level fields and the same providers, each entry with its key opened and every other field as stored. |
| ConfigManager.ApplyOverrides | classes/ConfigManager.php:22-35 | Applying the user's entries never adds or removes a provider, and keeps the global order. |
| ConfigManager.GetApplyOverrides | classes/ConfigManager.php:23-34 | Each global provider is overridden by the user's entry of the same name, if there is one. A name only the user has never appears. |
| ConfigManager.Load | classes/ConfigManager.php:15-42 | The user's default provider wins when set, otherwise the global one is kept. Quick actions, the save time and the set of providers are the global ones. |
| ConfigManager.OverrideEntry | classes/ConfigManager.php:25-31 | The key is the user's when it is non-empty and the global one otherwise, so the result has a key when either has one. The model is the user's when set and not "", and the global one otherwise. Every other field is the global one. |
| ConfigManager.LoadProviderEntry | classes/ConfigManager.php:22-34 | After `load`, a provider's key is the user's key exactly when the user has an entry with a non-empty key; otherwise it is the global key. The model is the user's exactly when the user's model is set and not "". Every other field is the global one. |
| ConfigManager.SaveGlobal | classes/ConfigManager.php:86-96 | A caller below super admin gets false and the store is unchanged. Otherwise the document is written with its keys encrypted, and no other profile entry changes. |
| ConfigManager.SaveUser | classes/ConfigManager.php:101-107 | The save always succeeds. The document is written, keys encrypted, under the user key, and nothing else changes. |
| ConfigManager.SaveGlobalThenRead | classes/ConfigManager.php:86-96 | Under an ideal cipher, reading back a saved global document gives it merged over the defaults, with plaintext keys. |
| ConfigManager.SaveUserThenRead | classes/ConfigManager.php:101-107 | Under an ideal cipher, reading back a saved user document gives exactly that document. |
| ConfigManager.DecryptIgnoresTopLevel | classes/ConfigManager.php:127-140 | The decrypted provider map depends only on the stored provider map. |
| Secrets.MasterKey | classes/ConfigManager.php:172-199 | A truthy environment variable decides the key. Otherwise the first macro value does, when the lookup found one. Otherwise the key is derived from the fallback salt and the database name and user, with their stand-ins. |
| Secrets.EnvironmentWins | classes/ConfigManager.php:174-177 | With a truthy environment variable, neither the macro API nor the database settings affect the key. |
| Secrets.MacroFailureIsAbsorbed | classes/ConfigManager.php:181-198 | A failing macro lookup gives the same key as one that finds nothing: the installation-derived key. |
| Secrets.SealKey | classes/ConfigManager.php:118-119 | "" and the mask are kept as they are. Any other key is sealed under the master key with the given initialisation vector. |
| Secrets.OpenKey | classes/ConfigManager.php:133-137 | "" and the mask are never decrypted. A blob that fails to open is kept as stored, not blanked. |
| Secrets.MapApiKeys | classes/ConfigManager.php:112-122 | Only `api_key` changes. Entries without a key keep none, and the set and order of providers stay the same. |
| Secrets.EncryptApiKeys | classes/ConfigManager.php:112-122 | Every key is replaced by its sealed form, except "", the mask, and a missing key. The default provider, quick actions, save time, a non-array provider field and every other entry field are unchanged. |
| Secrets.DecryptApiKeys | classes/ConfigManager.php:127-140 | Every key is replaced by its opened form, except "", the mask, and a missing key. The default provider, quick actions, save time, a non-array provider field and every other entry field are unchanged. |
| Secrets.DecryptUndoesEncrypt | classes/ConfigManager.php:145-167 | Under an ideal cipher and one master key, decrypting an encrypted document gives the original document back. |
| Gateway.SystemPrompt | actions/AIIntegrationQuery.php:265-273 | The prompt starts with the fixed sentence. It is exactly that sentence when the context is empty; otherwise `"\n\nContext: "` and the encoded context follow. |
| Gateway.SettingsFor | actions/AIIntegrationQuery.php:104-108 | Each setting is the configured value when set, and the provider's default otherwise. |
| Gateway.OpenAIRequest | actions/AIIntegrationQuery.php:171-197 | The request goes to the endpoint, with the JSON content type and a bearer token as its header lines. The body is the chat body for the entry's settings, the system prompt and the question. |
| Gateway.ChatPayloadFields | actions/AIIntegrationQuery.php:178-192 | The chat body carries the model, `max_tokens` and `temperature` from the settings, and the message list under `messages`. |
| Gateway.MessageFields | actions/AIIntegrationQuery.php:184-191 | A message carries its role under `role` and its text under `content`. |
| Gateway.ChatMessagesFields | actions/AIIntegrationQuery.php:183-192 | The chat message list has exactly two messages: the system prompt with role system, then the question with role user. |
| Gateway.AnthropicRequest | actions/AIIntegrationQuery.php:138-162 | The request goes to the endpoint, with the content type, the API version and `x-api-key` as its header lines. The body is the Anthropic body for the entry's settings, the system prompt and the question. |
| Gateway.AnthropicPayloadFields | actions/AIIntegrationQuery.php:145-156 | The Anthropic body carries the model, `max_tokens` and `temperature`, the system prompt under `system`, and the user message list under `messages`. |
| Gateway.UserMessagesFields | actions/AIIntegrationQuery.php:150-155 | The Anthropic message list has exactly one message: the question with role user. |
| Gateway.GeminiRequest | actions/AIIntegrationQuery.php:103-129 | The URL is the endpoint without trailing slashes, then `/`, the model, and `:generateContent?key=` with the key. The only header line is the content type. The body's `generationConfig` carries the temperature and the token limit, each the entry's own value or else 0.7 and 2048. |
| Gateway.GeminiPayloadFields | actions/AIIntegrationQuery.php:113-125 | The body's `generationConfig.temperature` is the settings' temperature and `generationConfig.maxOutputTokens` is the settings' token limit. |
| Gateway.GeminiSinglePart | actions/AIIntegrationQuery.php:113-125 | The body's `contents[0].parts[0].text` is the given text. |
| Gateway.ExtraHeaders | actions/AIIntegrationQuery.php:225-232 | A missing, "" or "0" headers setting adds no lines, and so does one that does not decode to an array. A decoded object adds one `name: value` line per member, and a decoded list one `index: value` line per item, in order. |
| Gateway.HeaderLines | actions/AIIntegrationQuery.php:227-231 | Each decoded custom header becomes one `name: value` line, in order. A non-array adds none. |
| Gateway.CustomBearerIffKey | actions/AIIntegrationQuery.php:217-232 | Among the custom provider's own lines, before the configured ones, an `Authorization` line is present exactly when the key is not "". The configured lines come last, unchanged and in order, for any content, including an `Authorization` line of their own. |
| Gateway.CustomRequest | actions/AIIntegrationQuery.php:206-250 | An empty or missing endpoint fails before any request. Otherwise the request goes to the endpoint with the custom header lines, and its body is the same chat body as OpenAI's, built from the custom entry's settings. |
| Gateway.PostJson | actions/AIIntegrationQuery.php:290-301 | A curl error fails the call whatever the status. Otherwise a status of 400 or more fails it with status and body. Otherwise the decoded body is the data. |
| Gateway.AsAnswer | actions/AIIntegrationQuery.php:199-200 | A found answer is returned only if it is a string. Any other value is a type error. |
| Gateway.AnswerAt | actions/AIIntegrationQuery.php:131-135 | A path that is not set gives the adapter's own error. A set string is the answer. A set value of any other type is a type error. |
| Gateway.GeminiAnswer | actions/AIIntegrationQuery.php:131-135 | The answer is the string at `candidates[0].content.parts[0].text`. Nothing there gives "Invalid response from Gemini API.". |
| Gateway.AnthropicAnswer | actions/AIIntegrationQuery.php:164-168 | The answer is the string at `content[0].text`. Nothing there gives "Invalid response from Anthropic API.". |
| Gateway.OpenAIAnswer | actions/AIIntegrationQuery.php:199-203 | The answer is the string at `choices[0].message.content`. Nothing there gives "Invalid response from OpenAI API.". |
| Gateway.AnswerFor | actions/AIIntegrationQuery.php:88-101 | Each known adapter reads its own path. Custom, and any other name, uses the custom extraction with its `response` and `text` fallbacks. OpenAI and custom both answer from a set `choices[0].message.content`. A failure other than a type error is the adapter's own error. |
| Gateway.FirstSet | actions/AIIntegrationQuery.php:252-262 | No path is found exactly when every path's `isset` chain fails. |
| Gateway.FirstSetIsFirst | actions/AIIntegrationQuery.php:252-262 | A found value is the one at some set path while every earlier path is not set: the search takes the first match, not any match. |
| Gateway.CustomAnswerIsFirstSet | actions/AIIntegrationQuery.php:252-262 | The custom adapter answers from `choices[0].message.content`, else `response`, else `text`. It fails with the parse error only when none is set. |
| Gateway.Exchange | actions/AIIntegrationQuery.php:250-262 | Exactly one request is sent. A failed `postJson` is the call's error; otherwise the adapter's extraction decides. |
| Gateway.RequestFor | actions/AIIntegrationQuery.php:88-101 | Only an unknown name fails with `UnknownProvider`. Each known name gets its own adapter's request; for custom that includes its own refusal of an empty endpoint. |
| Gateway.CallProvider | actions/AIIntegrationQuery.php:88-101 | A dispatch failure sends nothing. Otherwise exactly the adapter's request is sent. The result is the `postJson` error, or else the adapter's extraction from the decoded body. |
| Gateway.AnswerNeedsOneGoodResponse | actions/AIIntegrationQuery.php:290-301 | An answer exists only after exactly one request whose response passed the transport and status checks. An unknown provider sends nothing. |
| Query.Status | actions/AIIntegrationQuery.php:73-79 | An answered query is 200. A failed query is 500, set by the handler's `catch`. A fatal one is taken as 500, the runtime's status for an uncaught error when errors are not displayed. |
| Query.Member | actions/AIIntegrationQuery.php:26-30 | A body field is read only from a JSON object, and a null member counts as missing. |
| Query.TrimmedArg | actions/AIIntegrationQuery.php:28-29 | A missing field reads as "" and a string is trimmed. Any other value raises a type error. |
| Query.ContextArg | actions/AIIntegrationQuery.php:30-38 | The context is always an array. It is the submitted one when that is an array, else empty. |
| Query.Choose | actions/AIIntegrationQuery.php:46-48 | The provider is the requested one when it is not "". Otherwise it is the configured default, or openai when none is set. |
| Query.Validate | actions/AIIntegrationQuery.php:42-62 | Validation passes exactly when providers exist and the chosen one is configured, enabled, and has a key unless it is custom. Each failure is the first failing check, in the handler's order. |
| Query.CallReply | actions/AIIntegrationQuery.php:64-80 | An answer is relayed with the provider name and time. A non-string answer is fatal. Every other failure becomes its exception message. |
| Query.HandleQuery | actions/AIIntegrationQuery.php:21-82 | Nothing is sent without loading the configuration. An answer means exactly one request was sent, and it carries the current time. |
| Query.EmptyQuestionShortCircuits | actions/AIIntegrationQuery.php:28-34 | A question that is empty after trimming is refused before the configuration is loaded or any provider is contacted. |
| Query.NonStringFieldIsFatal | actions/AIIntegrationQuery.php:28-29 | A non-string question or provider field ends the request with a type error before anything else. |
| Query.RefusalIsFirstFailedCheck | actions/AIIntegrationQuery.php:42-62 | With a non-empty question, each refusal is the first failing check: no providers, unknown, disabled, then no key for a non-custom provider. A refused query sends nothing. |
| Query.ContactOnlyCallable | actions/AIIntegrationQuery.php:42-66 | An answered query names a configured, enabled provider that has a key unless it is custom. |
| Query.HandleValidQuery | actions/AIIntegrationQuery.php:40-71 | With a valid question, a validation failure becomes its message. Otherwise the reply is the call's outcome. |
| Query.FortyTwoExtracted | actions/AIIntegrationQuery.php:199-200 | The OpenAI adapter reads "42" out of `{"choices":[{"message":{"content":"42"}}]}`. |
| Query.OpenAIAnswerRelayed | actions/AIIntegrationQuery.php:64-71 | An enabled OpenAI provider with a key whose backend answers "42" makes the reply that answer, under the name openai. |
| Query.UnauthorizedCall | actions/AIIntegrationQuery.php:294-296 | A 401 from the backend fails any call that sent a request, with that status and body. |
| Query.Status401Message | actions/AIIntegrationQuery.php:295 | The message for status 401 is `HTTP error 401: ` followed by the body. |
| Query.UnauthorizedIsReported | actions/AIIntegrationQuery.php:73-79 | A 401 from the backend gives a handled failure whose message carries status and body, never an answer. |
| SettingsSave.Posted | actions/AIIntegrationSettingsSave.php:84 | A field is present exactly when it was submitted, and then carries the submitted text. |
| SettingsSave.IntField | actions/AIIntegrationSettingsSave.php:130-135 | A missing field gives the fallback (2048 at the call sites). An empty one gives 0. Anything else is cast. |
| SettingsSave.FloatField | actions/AIIntegrationSettingsSave.php:123-128 | A missing field gives 0.7, an empty one gives 0.0, and anything else is cast. |
| SettingsSave.TextField | actions/AIIntegrationSettingsSave.php:28-59 | A posted field is read trimmed; a missing one gives the trimmed default. The result neither starts nor ends with a blank. |
| SettingsSave.BuildApiKey | actions/AIIntegrationSettingsSave.php:83-92 | A posted key that is blank or the mask after trimming gives the existing key, or "" when there is none. Any other key is stored trimmed. |
| SettingsSave.BuildProviderConfig | actions/AIIntegrationSettingsSave.php:25-55 | A built entry sets every field. It is enabled exactly when its checkbox was ticked, carries headers exactly when it is custom, and its key is the one `BuildApiKey` chooses. |
| SettingsSave.BuildQuickActions | actions/AIIntegrationSettingsSave.php:60-65 | The four toggles are saved in order, each on exactly when its box is ticked. |
| SettingsSave.BuildConfig | actions/AIIntegrationSettingsSave.php:57-67 | The document holds exactly the four providers, each as built from the form. The default provider is the trimmed posted one, or openai when absent; the quick actions come from the form; the save time is included. |
| SettingsSave.SaveSettings | actions/AIIntegrationSettingsSave.php:69-76 | A successful write replaces the file with the new document. A failed one reports failure and leaves the file alone. |
| SettingsSave.SavedEntries | actions/AIIntegrationSettingsSave.php:25-55 | Exactly the four known providers are saved, each as `buildProviderConfig` builds it. |
| SettingsSave.EnabledIffTicked | actions/AIIntegrationSettingsSave.php:27-53 | A provider is saved enabled exactly when its checkbox was submitted non-empty. Only custom carries headers. |
| SettingsSave.FullOverwrite | actions/AIIntegrationSettingsSave.php:57-69 | Two existing files that agree on the four keys lead to the same saved document, so nothing else survives a save. |
| SettingsSave.SavedKey | actions/AIIntegrationSettingsSave.php:84-90 | The saved key is the existing one when the posted key is blank or masked, and the trimmed posted key otherwise. |
| SettingsSave.EmptyMaxTokensSavesZero | actions/AIIntegrationSettingsSave.php:31 | An empty max-tokens field saves 0. A missing one saves 2048. |
| SettingsSave.QuickActionIffTicked | actions/AIIntegrationSettingsSave.php:60-65 | Each quick action is saved on exactly when its box was submitted non-empty. |
| ProviderListing.Project | actions/AIIntegrationProviders.php:29-34 | A listed entry carries the name, the model and the endpoint (each "" when unset), and whether a non-empty key exists. |
| ProviderListing.ListEnabled | actions/AIIntegrationProviders.php:27-36 | Every listed entry is the projection of an enabled configured provider of that name. |
| ProviderListing.ListEnabledAppend | actions/AIIntegrationProviders.php:27-36 | Listing is a filter that keeps configuration order. |
| ProviderListing.EnabledAreListed | actions/AIIntegrationProviders.php:27-34 | Every enabled provider is listed. |
| ProviderListing.ListingHidesKeys | actions/AIIntegrationProviders.php:29-34 | Configurations that differ only in key contents, not in whether a key exists, give the same listing. |
| ProviderListing.ResolveQuickActions | actions/AIIntegrationProviders.php:74-83 | Stored toggles override the all-on defaults key by key, and extra stored keys are kept. The four defaults come first. |
| ProviderListing.QuickActionDefaults | actions/AIIntegrationProviders.php:74-83 | A known action not stored is on, a stored one has its stored value, and an unknown action not stored is absent. |
| ProviderListing.ListProviders | actions/AIIntegrationProviders.php:20-44 | The reply lists the enabled providers. The default provider falls back to openai, and the quick actions are resolved. The super-admin flag is true exactly for user type 3. |
| ProviderListing.NoFileListsNothing | actions/AIIntegrationProviders.php:57-68 | A missing file, or one whose content does not decode to an array, lists no provider, names openai as the default, and turns every quick action on. |
| SettingsView.ShownKey | views/aiintegration.settings.php:26-29 | The key field shows the mask exactly when the entry has a non-empty key, and nothing otherwise. |
| SettingsView.ViewOf | views/aiintegration.settings.php:16-29 | A missing entry is disabled and shows no key. An entry is enabled exactly when its flag is true. |
| SettingsView.DeriveView | views/aiintegration.settings.php:3-29 | The page derives the default provider (falling back to openai), the resolved quick actions, and one section per known provider. |
| SettingsView.ShownKeyHidesContents | views/aiintegration.settings.php:26-29 | The shown key depends on the stored key only through whether it is non-empty. |
| SettingsView.PlaceholderKeepsKey | actions/AIIntegrationSettingsSave.php:84-88 | Submitting "" or the mask keeps the existing key. |
| SettingsView.ShownKeyRoundTrip | views/aiintegration.settings.php:26-29 | Submitting the key field as the page shows it keeps the stored key. |
| SettingsView.SaveAsShownKeepsKeys | actions/AIIntegrationSettingsSave.php:83-91 | Saving the form as shown leaves each provider's saved key equal to the key in the file. |

## Behaviour worth noting

- Decryption failure: a key that fails to decrypt is kept as the stored text, not blanked (`Secrets.OpenKey`).
- Merging with the defaults: `array_merge` merges only the top level. A stored provider map replaces the default map; providers are not merged one by one (`ConfigManager.MergeTop`).
- Where the settings page saves: it writes the JSON configuration file, with plaintext keys. The query handler loads from the profile store. Neither writes to the other's store.
- The system prompt names Zabbix monitoring: "You are a helpful assistant integrated with Zabbix monitoring."

## Left out

- I/O is abstracted. The following become abstract stores or parameters:
  - `CProfile` reads and writes, including the framework's per-user scoping (the profile store is the current user's view);
  - the configuration file's `file_exists`, `file_get_contents`, `mkdir` and `file_put_contents` (a write outcome flag);
  - curl and its 30-second timeout (a transport function);
  - `header`, `http_response_code`, `echo` and `exit`;
  - `time()` and `date()` (given values).
- `json_encode` and `json_decode` of whole documents and payloads: stores hold decoded documents. The context's encoding and the custom headers' decoding are function parameters.
- AES-256-GCM (NIST SP 800-38D), base64, SHA-256 and the random IV. The cipher is a pair of functions; the round trips assume only `Ideal`. A key is named by the text it is the digest of, and IVs are a parameter.
- Floating point: temperatures are carried as JSON literal text. PHP's `(int)` and `(float)` casts of posted text are parameters (`SettingsSave.Casts`).
- Json.ToPhpString: a float is rendered by its JSON literal text, which can differ from PHP's own float-to-string conversion (for example 1.0 prints as "1").
- Stored fields of the wrong JSON type are outside the typed model, for example `enabled` stored as "1", a non-string `api_key` or `model`, or `providers` that is not an array.
- Posted form fields that are arrays instead of strings.
- `array_merge` renumbering of numeric-string keys, which affects quick actions only if they are stored with numeric names.
- String offsets in `isset` chains (a subscript on a string): the answer paths never end in an integer index, so such a chain never yields a set value.
- `checkPermissions` of each controller, apart from `saveGlobal`'s own check and the listing's super-admin flag. `Module.php`, the empty settings controller, the browser script, and the view's HTML beyond line 29 are presentation.
- The listing's `catch` branch: nothing in the modelled listing throws.
- A configuration file that exists but cannot be read: `file_get_contents` then returns `false`. Under strict types, the listing and the save handler pass that to `json_decode` and end in an uncaught `TypeError`. The view has no strict types and reads the file as empty. `Config.FileStore` has no unreadable state, so none of this is modelled.
- Query.Status: the status of a `Fatal` reply comes from the PHP runtime, not the handler. The model takes 500, which is what the runtime sends when errors are not displayed; with errors displayed it may differ.
- The type error's message text: a non-string answer or field ends the request (`Query.Fatal`), and no JSON reply is produced.
- Gateway.CallErrorMessage and Query.QueryErrorMessage have no contracts of their own. Their texts are the exception messages, and `Query.Status401Message` checks one of them.
