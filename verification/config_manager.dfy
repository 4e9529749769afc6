/** The profile-backed configuration of `classes/ConfigManager.php`: the
    global and per-user documents, their merge into the configuration a
    query runs with, and the privileged and unprivileged saves. The profile
    store is a map from profile key to what `CProfile::get` returns, and a
    saved document is kept in decoded form (the `json_encode`/`json_decode`
    round trip of a whole document is taken for granted). */
module ConfigManager {
  import opened Wrappers
  import opened Php
  import opened Config
  import opened Secrets

  const GlobalProfileKey: string := "modules.aiintegration.global"
  const UserProfileKey: string := "modules.aiintegration.user"

  /** `USER_TYPE_SUPER_ADMIN`; user types are ordered by privilege. */
  const SuperAdmin: int := 3

  /** A stored profile value: the empty string, or JSON text and what it
      decodes to. A key missing from the store reads as `null`. */
  datatype ProfileValue = EmptyText | JsonText(decoded: Decoded)

  type ProfileStore = map<string, ProfileValue>

  /** The decoded array stored under `k`, if there is a usable one. */
  function StoredDoc(store: ProfileStore, k: string): Option<Doc> {
    if k in store && store[k].JsonText? && store[k].decoded.ArrayDoc? then Some(store[k].decoded.doc)
    else None
  }

  /** `array_merge($base, $over)` on the top-level keys of two documents:
      each key set in `over`, even to `null`, replaces the one in `base`. */
  function MergeTop(base: Doc, over: Doc): (r: Doc)
    ensures r.providers == (if over.providers.Absent? then base.providers else over.providers)
    ensures r.defaultProvider == (if over.defaultProvider.Absent? then base.defaultProvider else over.defaultProvider)
    ensures r.quickActions == (if over.quickActions.Absent? then base.quickActions else over.quickActions)
    ensures r.updatedAt == (if over.updatedAt.Absent? then base.updatedAt else over.updatedAt)
  {
    Doc(
      if over.providers.Absent? then base.providers else over.providers,
      if over.defaultProvider.Absent? then base.defaultProvider else over.defaultProvider,
      if over.quickActions.Absent? then base.quickActions else over.quickActions,
      if over.updatedAt.Absent? then base.updatedAt else over.updatedAt)
  }

  /** `getGlobalConfig`: the built-in defaults when nothing usable is
      stored (no value, "", or JSON that is not an array); otherwise the
      stored document merged over the defaults at top level, so a stored
      provider map replaces the default one wholesale, with keys decrypted. */
  function GetGlobalConfig(store: ProfileStore, c: Cipher, key: Key): (d: Doc)
    ensures StoredDoc(store, GlobalProfileKey).None? ==> d == Defaults()
    ensures StoredDoc(store, GlobalProfileKey).Some? ==>
              var s := StoredDoc(store, GlobalProfileKey).value;
              && d.defaultProvider == (if s.defaultProvider.Absent? then Present(OpenAI) else s.defaultProvider)
              && d.updatedAt == s.updatedAt
              && d.quickActions == (if s.quickActions.Absent? then Present(DefaultQuickActions) else s.quickActions)
              && (s.providers.Absent? ==> d.providers == Defaults().providers)
              && (!s.providers.Absent? ==>
                    && (d.providers.Present? <==> s.providers.Present?)
                    && (forall name :: d.Entry(name).Some? <==> s.Entry(name).Some?)
                    && KeysOpened(d, s, c, key))
  {
    match StoredDoc(store, GlobalProfileKey)
    case None => Defaults()
    case Some(s) =>
      var merged := MergeTop(Defaults(), s);
      DecryptDefaultsUnchanged(c, key);
      DecryptApiKeys(merged, c, key)
  }

  /** The defaults hold no key to decrypt. */
  lemma DecryptDefaultsUnchanged(c: Cipher, key: Key)
    ensures DecryptApiKeys(Defaults(), c, key).providers == Defaults().providers
  {
    var d := Defaults();
    var r := DecryptApiKeys(d, c, key);
    forall name ensures r.Entry(name) == d.Entry(name) {
      if d.Entry(name).Some? {
        assert name in KnownProviders;
      }
    }
    AssocExtensional(r.providers.value, d.providers.value);
  }

  /** `getUserConfig`: an empty provider map when nothing usable is stored,
      otherwise the stored document as is, with keys decrypted. */
  function GetUserConfig(store: ProfileStore, c: Cipher, key: Key): (d: Doc)
    ensures StoredDoc(store, UserProfileKey).None? ==> d == EmptyDoc
    ensures StoredDoc(store, UserProfileKey).Some? ==>
              var s := StoredDoc(store, UserProfileKey).value;
              && d.defaultProvider == s.defaultProvider
              && d.quickActions == s.quickActions && d.updatedAt == s.updatedAt
              && (d.providers.Present? <==> s.providers.Present?)
              && (forall name :: d.Entry(name).Some? <==> s.Entry(name).Some?)
              && KeysOpened(d, s, c, key)
  {
    match StoredDoc(store, UserProfileKey)
    case None => EmptyDoc
    case Some(s) => DecryptApiKeys(s, c, key)
  }

  /** The part of a user's provider entry that overrides the global one: a
      non-empty key, and a model that is set and not "". */
  function OverrideEntry(g: ProviderEntry, u: ProviderEntry): (r: ProviderEntry)
    ensures r.apiKey == (if u.HasApiKey() then u.apiKey else g.apiKey)
    ensures r.HasApiKey() <==> u.HasApiKey() || g.HasApiKey()
    ensures r.model == (if u.model.Some? && u.model.value != "" then u.model else g.model)
    ensures r.(apiKey := g.apiKey, model := g.model) == g
  {
    g.(apiKey := if u.HasApiKey() then u.apiKey else g.apiKey,
       model := if u.model.Some? && u.model.value != "" then u.model else g.model)
  }

  /** The user's provider entries applied one by one; an entry whose name
      the global map does not have is skipped. */
  function ApplyOverrides(ps: Providers, us: Providers): (r: Providers)
    ensures Keys(r) == Keys(ps)
    decreases |us|
  {
    if |us| == 0 then ps
    else
      var t: Providers := us[1..];
      var next :=
        match Get(ps, us[0].0)
        case None => ps
        case Some(g) => Set(ps, us[0].0, OverrideEntry(g, us[0].1));
      ApplyOverrides(next, t)
  }

  /** Each provider ends up overridden by the user's entry of the same
      name, if any; a name only the user has never appears. */
  lemma {:induction false} GetApplyOverrides(ps: Providers, us: Providers, name: string)
    ensures Get(ApplyOverrides(ps, us), name) ==
      match Get(ps, name)
      case None => None
      case Some(g) => Some(match Get(us, name) case None => g case Some(u) => OverrideEntry(g, u))
    decreases |us|
  {
    if |us| > 0 {
      var t: Providers := us[1..];
      var next :=
        match Get(ps, us[0].0)
        case None => ps
        case Some(g) => Set(ps, us[0].0, OverrideEntry(g, us[0].1));
      GetApplyOverrides(next, t, name);
      assert us == [us[0]] + t;
      GetCons(us[0], t, name);
      if Get(ps, us[0].0).Some? {
        GetSet(ps, us[0].0, OverrideEntry(Get(ps, us[0].0).value, us[0].1), name);
      }
      if name == us[0].0 {
        assert name !in Keys(t);
      }
    }
  }

  /** `load`: the global configuration with the user's overrides applied
      to the providers both have, and the user's default provider when set. */
  function Load(store: ProfileStore, c: Cipher, key: Key): (d: Doc)
    ensures var g := GetGlobalConfig(store, c, key);
            var u := GetUserConfig(store, c, key);
            && d.defaultProvider == (if u.defaultProvider.Present? then u.defaultProvider else g.defaultProvider)
            && d.quickActions == g.quickActions
            && d.updatedAt == g.updatedAt
            && (d.providers.Present? <==> g.providers.Present?)
            && (g.providers.Present? ==> Keys(d.providers.value) == Keys(g.providers.value))
  {
    var g := GetGlobalConfig(store, c, key);
    var u := GetUserConfig(store, c, key);
    var ps :=
      if g.providers.Present? && u.providers.Present? then Present(ApplyOverrides(g.providers.value, u.providers.value))
      else g.providers;
    g.(providers := ps,
       defaultProvider := if u.defaultProvider.Present? then u.defaultProvider else g.defaultProvider)
  }

  /** After `load`, a provider exists exactly when the global configuration
      has it. Its key is the user's key when the user has an entry for it
      with a non-empty key, and the global key otherwise; its model is the
      user's when set and not "", and the global one otherwise; every other
      field is the global one. */
  lemma LoadProviderEntry(store: ProfileStore, c: Cipher, key: Key, name: string)
    ensures var g := GetGlobalConfig(store, c, key);
            var u := GetUserConfig(store, c, key);
            var d := Load(store, c, key);
            && (d.Entry(name).Some? <==> g.Entry(name).Some?)
            && (g.Entry(name).Some? ==>
                  var ge := g.Entry(name).value;
                  var de := d.Entry(name).value;
                  var ue := u.Entry(name);
                  && de.apiKey == (if ue.Some? && ue.value.HasApiKey() then ue.value.apiKey else ge.apiKey)
                  && de.model == (if ue.Some? && ue.value.model.Some? && ue.value.model.value != "" then ue.value.model else ge.model)
                  && de.(apiKey := None, model := None) == ge.(apiKey := None, model := None))
  {
    var g := GetGlobalConfig(store, c, key);
    var u := GetUserConfig(store, c, key);
    if g.providers.Present? && u.providers.Present? {
      GetApplyOverrides(g.providers.value, u.providers.value, name);
    }
  }

  /** `saveGlobal`: refused, with nothing written, for a caller below super
      admin; otherwise the document is written, keys encrypted, under the
      global profile key and nothing else in the store changes. */
  function SaveGlobal(store: ProfileStore, callerType: int, cfg: Doc, c: Cipher, key: Key, ivs: string -> string)
    : (r: (bool, ProfileStore))
    ensures r.0 <==> callerType >= SuperAdmin
    ensures !r.0 ==> r.1 == store
    ensures r.0 ==> r.1.Keys == store.Keys + {GlobalProfileKey}
                    && (forall k | k in store && k != GlobalProfileKey :: r.1[k] == store[k])
                    && StoredDoc(r.1, GlobalProfileKey) == Some(EncryptApiKeys(cfg, c, key, ivs))
  {
    if callerType < SuperAdmin then (false, store)
    else (true, store[GlobalProfileKey := JsonText(ArrayDoc(EncryptApiKeys(cfg, c, key, ivs)))])
  }

  /** `saveUser`: always written, keys encrypted, under the user profile key. */
  function SaveUser(store: ProfileStore, cfg: Doc, c: Cipher, key: Key, ivs: string -> string): (r: (bool, ProfileStore))
    ensures r.0
    ensures r.1.Keys == store.Keys + {UserProfileKey}
    ensures forall k | k in store && k != UserProfileKey :: r.1[k] == store[k]
    ensures StoredDoc(r.1, UserProfileKey) == Some(EncryptApiKeys(cfg, c, key, ivs))
  {
    (true, store[UserProfileKey := JsonText(ArrayDoc(EncryptApiKeys(cfg, c, key, ivs)))])
  }

  /** Under an ideal cipher and an unchanged master key, reading back a
      global configuration that a super admin saved gives the saved document
      merged over the defaults, with every key in plaintext again. */
  lemma SaveGlobalThenRead(store: ProfileStore, callerType: int, cfg: Doc, c: Cipher, key: Key, ivs: string -> string)
    requires Ideal(c)
    requires callerType >= SuperAdmin
    ensures GetGlobalConfig(SaveGlobal(store, callerType, cfg, c, key, ivs).1, c, key) == MergeTop(Defaults(), cfg)
  {
    var e := EncryptApiKeys(cfg, c, key, ivs);
    DecryptUndoesEncrypt(cfg, c, key, ivs);
    DecryptDefaultsUnchanged(c, key);
    var merged := MergeTop(Defaults(), e);
    if cfg.providers.Absent? {
      assert merged.providers == Defaults().providers;
      assert DecryptApiKeys(merged, c, key).providers == Defaults().providers by {
        assert merged == Defaults().(defaultProvider := merged.defaultProvider,
                                     quickActions := merged.quickActions,
                                     updatedAt := merged.updatedAt);
        DecryptIgnoresTopLevel(Defaults(), merged, c, key);
      }
    } else {
      assert merged.providers == e.providers;
      DecryptIgnoresTopLevel(e, merged, c, key);
    }
  }

  /** Decryption of the provider map does not look at the other top-level keys. */
  lemma DecryptIgnoresTopLevel(a: Doc, b: Doc, c: Cipher, key: Key)
    requires a.providers == b.providers
    ensures DecryptApiKeys(a, c, key).providers == DecryptApiKeys(b, c, key).providers
  {
  }

  /** Under an ideal cipher and an unchanged master key, reading back a
      saved user configuration gives the saved document, keys in plaintext. */
  lemma SaveUserThenRead(store: ProfileStore, cfg: Doc, c: Cipher, key: Key, ivs: string -> string)
    requires Ideal(c)
    ensures GetUserConfig(SaveUser(store, cfg, c, key, ivs).1, c, key) == cfg
  {
    DecryptUndoesEncrypt(cfg, c, key, ivs);
  }
}
