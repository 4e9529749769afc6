/** The settings form handler of `actions/AIIntegrationSettingsSave.php`:
    the posted fields and the configuration file's current content become a
    complete new configuration that replaces the file. Only the API keys can
    survive from the old content, and only when the form leaves them blank
    or masked. */
module SettingsSave {
  import opened Wrappers
  import opened Php
  import opened Config
  import Json

  /** The posted form: field name to submitted text. */
  type Form = map<string, string>

  /** `$_POST[k]`, when submitted. */
  function Posted(form: Form, k: string): (r: Option<string>)
    ensures r.Some? <==> k in form
    ensures k in form ==> r.value == form[k]
  {
    if k in form then Some(form[k]) else None
  }

  /** PHP's `(int)` and `(float)` casts of submitted text, which parse a
      numeric prefix; they are left to the caller. */
  datatype Casts = Casts(toInt: string -> int, toFloat: string -> Json.Float)

  /** `toInt($_POST[k] ?? absent)`: the literal fallback when the field is
      missing, 0 when it is submitted empty, the cast otherwise. */
  function IntField(v: Option<string>, absent: int, casts: Casts): (n: int)
    ensures v.None? ==> n == absent
    ensures v == Some("") ==> n == 0
    ensures v.Some? && v.value != "" ==> n == casts.toInt(v.value)
  {
    match v
    case None => absent
    case Some(s) => if s == "" then 0 else casts.toInt(s)
  }

  /** `toFloat($v)`'s own default, 0.0, as JSON writes it. */
  const ZeroFloat: Json.Float := Json.Float("0.0")

  /** `toFloat($_POST[k] ?? 0.7)`: 0.7 when missing, 0.0 when submitted
      empty, the cast otherwise. */
  function FloatField(v: Option<string>, casts: Casts): (f: Json.Float)
    ensures v.None? ==> f == DefaultTemperature
    ensures v == Some("") ==> f == ZeroFloat
    ensures v.Some? && v.value != "" ==> f == casts.toFloat(v.value)
  {
    match v
    case None => DefaultTemperature
    case Some(s) => if s == "" then ZeroFloat else casts.toFloat(s)
  }

  /** `trim($_POST[k] ?? default)`. */
  function TextField(form: Form, k: string, default: string): (t: string)
    ensures k in form ==> t == Trim(form[k])
    ensures k !in form ==> t == Trim(default)
    ensures t == [] || (!Blank(t[0]) && !Blank(t[|t| - 1]))
  {
    Trim(Posted(form, k).GetOr(default))
  }

  /** `!empty($_POST[k])`. */
  predicate Checked(form: Form, k: string) {
    k in form && Truthy(form[k])
  }

  /** The key an entry had in the configuration read before saving. */
  function ExistingKey(existing: Doc, name: string): string {
    match existing.Entry(name)
    case Some(e) => e.apiKey.GetOr("")
    case None => ""
  }

  /** The key saved for one provider: the trimmed posted key, unless it is
      blank or the mask, in which case the existing key is kept. */
  function BuildApiKey(form: Form, existing: Doc, name: string): (key: string)
    ensures Placeholder(TextField(form, name + "_api_key", "")) ==> key == ExistingKey(existing, name)
    ensures !Placeholder(TextField(form, name + "_api_key", "")) ==> key == TextField(form, name + "_api_key", "")
  {
    var posted := TextField(form, name + "_api_key", "");
    if Placeholder(posted) then ExistingKey(existing, name) else posted
  }

  /** `buildProviderConfig` with the handler's per-provider input: the
      enabled flag from the checkbox, trimmed endpoint and model with the
      provider's defaults, the numeric settings, headers for `custom` only,
      and the key. */
  function BuildProviderConfig(name: string, form: Form, existing: Doc, casts: Casts): (e: ProviderEntry)
    ensures e.Enabled() <==> Checked(form, name + "_enabled")
    ensures e.enabled.Some? && e.endpoint.Some? && e.model.Some? && e.temperature.Some? && e.maxTokens.Some?
    ensures e.headers.Some? <==> name == Custom
    ensures e.apiKey == Some(BuildApiKey(form, existing, name))
  {
    ProviderEntry(
      enabled := Some(Checked(form, name + "_enabled")),
      endpoint := Some(TextField(form, name + "_endpoint", DefaultEndpoint(name))),
      model := Some(TextField(form, name + "_model", DefaultModel(name))),
      temperature := Some(FloatField(Posted(form, name + "_temperature"), casts)),
      maxTokens := Some(IntField(Posted(form, name + "_max_tokens"), DefaultMaxTokens, casts)),
      headers := if name == Custom then Some(TextField(form, Custom + "_headers", "{}")) else None,
      apiKey := Some(BuildApiKey(form, existing, name)))
  }

  /** The quick-action toggles: each on exactly when its box was ticked. */
  function BuildQuickActions(form: Form): (qa: QuickActions)
    ensures Keys(qa) == QuickActionNames
    ensures forall i | 0 <= i < |QuickActionNames| :: qa[i] == (QuickActionNames[i], Checked(form, "qa_" + QuickActionNames[i]))
  {
    QuickActionNamesDistinct();
    Zip(QuickActionNames, seq(|QuickActionNames|, i requires 0 <= i < |QuickActionNames| => Checked(form, "qa_" + QuickActionNames[i])))
  }

  /** The handler's new configuration: the four providers, the trimmed
      default provider (`openai` only when the field is missing), the quick
      actions and the save time. */
  function BuildConfig(form: Form, existing: Doc, casts: Casts, now: string): (d: Doc)
    ensures d.providers.Present? && Keys(d.providers.value) == KnownProviders
    ensures forall name :: d.Entry(name) ==
              if name in KnownProviders then Some(BuildProviderConfig(name, form, existing, casts)) else None
    ensures d.defaultProvider == Present(TextField(form, "default_provider", OpenAI))
    ensures d.quickActions == Present(BuildQuickActions(form))
    ensures d.updatedAt == Present(now)
  {
    KnownProvidersDistinct();
    Doc(Present(Tabulate(KnownProviders, name => BuildProviderConfig(name, form, existing, casts))),
        Present(TextField(form, "default_provider", OpenAI)),
        Present(BuildQuickActions(form)),
        Present(now))
  }

  /** `doAction`: read the file, build the new configuration and write it.
      A failed write reports failure and leaves the file as it was. */
  function SaveSettings(file: FileStore, form: Form, casts: Casts, now: string, writeOk: bool): (r: (bool, FileStore))
    ensures r.0 <==> writeOk
    ensures writeOk ==> r.1 == ConfigFile(ArrayDoc(BuildConfig(form, ReadConfigFile(file), casts, now)))
    ensures !writeOk ==> r.1 == file
  {
    if writeOk then (true, ConfigFile(ArrayDoc(BuildConfig(form, ReadConfigFile(file), casts, now))))
    else (false, file)
  }

  // ---------------------------------------------------------------------------
  // Properties
  // ---------------------------------------------------------------------------

  /** Each of the four providers is saved as `buildProviderConfig` builds it,
      and no other provider is saved. */
  lemma SavedEntries(form: Form, existing: Doc, casts: Casts, now: string, name: string)
    ensures var d := BuildConfig(form, existing, casts, now);
            && (d.Entry(name).Some? <==> name in KnownProviders)
            && (name in KnownProviders ==> d.Entry(name) == Some(BuildProviderConfig(name, form, existing, casts)))
  {
  }

  /** A provider is saved enabled exactly when its box was ticked, and
      only `custom` carries extra headers. */
  lemma EnabledIffTicked(form: Form, existing: Doc, casts: Casts, now: string, name: string)
    requires name in KnownProviders
    ensures var e := BuildConfig(form, existing, casts, now).Entry(name).value;
            && (e.Enabled() <==> name + "_enabled" in form && Truthy(form[name + "_enabled"]))
            && (e.headers.Some? <==> name == Custom)
  {
    SavedEntries(form, existing, casts, now, name);
  }

  /** The save overwrites everything: two configurations that agree on the
      four providers' keys lead to the same saved document, whatever else
      they held. */
  lemma FullOverwrite(form: Form, a: Doc, b: Doc, casts: Casts, now: string)
    requires forall name | name in KnownProviders :: ExistingKey(a, name) == ExistingKey(b, name)
    ensures BuildConfig(form, a, casts, now) == BuildConfig(form, b, casts, now)
  {
    var da := BuildConfig(form, a, casts, now);
    var db := BuildConfig(form, b, casts, now);
    forall name ensures Get(da.providers.value, name) == Get(db.providers.value, name) {
      SavedEntries(form, a, casts, now, name);
      SavedEntries(form, b, casts, now, name);
    }
    AssocExtensional(da.providers.value, db.providers.value);
  }

  /** A key field left blank or masked keeps the key the file held ("" when
      there was none); any other submitted key replaces it, trimmed. */
  lemma SavedKey(form: Form, existing: Doc, casts: Casts, now: string, name: string)
    requires name in KnownProviders
    ensures var saved := BuildConfig(form, existing, casts, now).Entry(name).value.apiKey.value;
            var posted := TextField(form, name + "_api_key", "");
            && (Placeholder(posted) ==> saved == ExistingKey(existing, name))
            && (!Placeholder(posted) ==> saved == posted)
  {
    SavedEntries(form, existing, casts, now, name);
  }

  /** A max-tokens field submitted empty saves 0, while a missing one saves
      the default 2048. */
  lemma EmptyMaxTokensSavesZero(form: Form, existing: Doc, casts: Casts, now: string, name: string)
    requires name in KnownProviders
    ensures var e := BuildConfig(form, existing, casts, now).Entry(name).value;
            && (Posted(form, name + "_max_tokens") == Some("") ==> e.maxTokens == Some(0))
            && (name + "_max_tokens" !in form ==> e.maxTokens == Some(2048))
  {
    SavedEntries(form, existing, casts, now, name);
  }

  /** Each quick action is saved on exactly when its box was ticked. */
  lemma QuickActionIffTicked(form: Form, existing: Doc, casts: Casts, now: string, action: string)
    requires action in QuickActionNames
    ensures var qa := BuildConfig(form, existing, casts, now).quickActions.value;
            Get(qa, action) == Some("qa_" + action in form && Truthy(form["qa_" + action]))
  {
    var qa := BuildQuickActions(form);
    var i :| 0 <= i < |QuickActionNames| && QuickActionNames[i] == action;
    GetAt(qa, i);
  }
}
