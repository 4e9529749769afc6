/** What the settings page derives from the configuration file before it
    renders the form (`views/aiintegration.settings.php`): the default
    provider, the quick-action toggles, and for each of the four providers
    its enabled flag and the text shown in its key field. A stored key is
    never shown; the field holds the mask when a key exists. */
module SettingsView {
  import opened Wrappers
  import opened Php
  import opened Config
  import opened ProviderListing
  import opened SettingsSave

  /** The derived state of one provider's form section. */
  datatype ProviderView = ProviderView(enabled: bool, shownKey: string)

  datatype SettingsPage = SettingsPage(
    defaultProvider: string,
    quickActions: QuickActions,
    providers: Assoc<ProviderView>)

  /** The key field's text: the mask when the entry has a non-empty key,
      otherwise nothing. */
  function ShownKey(e: Option<ProviderEntry>): (s: string)
    ensures s == Mask <==> e.Some? && e.value.HasApiKey()
    ensures s != Mask ==> s == ""
  {
    if e.Some? && e.value.HasApiKey() then Mask else ""
  }

  /** One provider's section: a missing entry counts as an empty one, so it
      is disabled and shows no key. */
  function ViewOf(e: Option<ProviderEntry>): (v: ProviderView)
    ensures v.enabled <==> e.Some? && e.value.Enabled()
    ensures v.shownKey == ShownKey(e)
  {
    ProviderView(e.Some? && e.value.Enabled(), ShownKey(e))
  }

  /** The derivation at the top of the view. */
  function DeriveView(file: FileStore): (p: SettingsPage)
    ensures p.defaultProvider == ReadConfigFile(file).defaultProvider.Or(OpenAI)
    ensures p.quickActions == ResolveQuickActions(ReadConfigFile(file).quickActions.Or([]))
    ensures Keys(p.providers) == KnownProviders
    ensures forall name :: Get(p.providers, name) ==
              if name in KnownProviders then Some(ViewOf(ReadConfigFile(file).Entry(name))) else None
  {
    var d := ReadConfigFile(file);
    KnownProvidersDistinct();
    SettingsPage(d.defaultProvider.Or(OpenAI), ResolveQuickActions(d.quickActions.Or([])),
                 Tabulate(KnownProviders, name => ViewOf(d.Entry(name))))
  }

  /** The shown key depends on the stored key only through whether it is
      non-empty. */
  lemma ShownKeyHidesContents(a: ProviderEntry, b: ProviderEntry)
    requires a.HasApiKey() <==> b.HasApiKey()
    ensures ShownKey(Some(a)) == ShownKey(Some(b))
  {
  }

  /** A key field holding "" or the mask keeps the existing key. */
  lemma PlaceholderKeepsKey(form: Form, existing: Doc, name: string)
    requires name + "_api_key" in form && Placeholder(form[name + "_api_key"])
    ensures BuildApiKey(form, existing, name) == ExistingKey(existing, name)
  {
    TrimKeepsUnpadded(form[name + "_api_key"]);
  }

  /** Submitting the form with the key field as shown (the text `DeriveView`
      puts in that provider's section) keeps every stored key: the mask and
      "" both fall back to the key already in the file. */
  lemma ShownKeyRoundTrip(file: FileStore, form: Form, name: string)
    requires name in KnownProviders
    requires name + "_api_key" in form
    requires form[name + "_api_key"] == ShownKey(ReadConfigFile(file).Entry(name))
    ensures BuildApiKey(form, ReadConfigFile(file), name) == ExistingKey(ReadConfigFile(file), name)
  {
    PlaceholderKeepsKey(form, ReadConfigFile(file), name);
  }

  /** Saving the form exactly as the page shows it leaves every provider's
      key as it was in the file. */
  lemma SaveAsShownKeepsKeys(file: FileStore, form: Form, casts: Casts, now: string, name: string)
    requires name in KnownProviders
    requires name + "_api_key" in form
    requires form[name + "_api_key"] == ShownKey(ReadConfigFile(file).Entry(name))
    ensures SaveSettings(file, form, casts, now, true).1.decoded.doc.Entry(name).value.apiKey
            == Some(ExistingKey(ReadConfigFile(file), name))
  {
    ShownKeyRoundTrip(file, form, name);
    SavedKey(form, ReadConfigFile(file), casts, now, name);
  }
}
