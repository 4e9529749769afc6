/** API-key protection at rest: master-key derivation and the encryption
    and decryption of every provider's `api_key` in a configuration document.
    AES-256-GCM (NIST SP 800-38D) itself is not modelled; it enters as a
    pair of functions that the round-trip lemma assumes to be an ideal
    authenticated cipher. */
module Secrets {
  import opened Wrappers
  import opened Php
  import opened Config

  /** A 256-bit key, identified by the text it is the SHA-256 digest of. */
  datatype Key = Sha256(input: string)

  /** `seal(key, iv, plaintext)` is `base64(iv . tag . ciphertext)`;
      `open(key, blob)` is the plaintext, or `None` when `openssl_decrypt`
      returns `false` (malformed blob, wrong key, tag mismatch). */
  datatype Cipher = Cipher(seal: (Key, string, string) -> string, open: (Key, string) -> Option<string>)

  /** An ideal cipher: opening with the sealing key restores the plaintext,
      and a sealed blob is never "" nor the mask (base64 of at least
      12 + 16 bytes is non-empty and has no `*`). */
  ghost predicate Ideal(c: Cipher) {
    forall k, iv, p :: c.open(k, c.seal(k, iv, p)) == Some(p) && c.seal(k, iv, p) != "" && c.seal(k, iv, p) != Mask
  }

  // ---------------------------------------------------------------------------
  // Master key
  // ---------------------------------------------------------------------------

  /** The outcome of asking the platform's macro API for `{$AI_MASTER_KEY}`. */
  datatype MacroLookup = MacroApiFailed | MacroRows(values: seq<string>)

  /** Everything the master key can be derived from: the environment
      variable (`None` when `getenv` returns `false`), the macro lookup, and
      the database name and user of the installation. */
  datatype KeySources = KeySources(
    env: Option<string>,
    macros: MacroLookup,
    dbName: Option<string>,
    dbUser: Option<string>)

  const EnvVariable: string := "ZBX_AI_MASTER_KEY"
  const FallbackSalt: string := "zbx_ai_integration_fallback"

  /** The seed of the last-resort key: database name and user, with fixed
      stand-ins for either one when it is not set. */
  function InstallSeed(src: KeySources): string {
    src.dbName.GetOr("zbx_default") + src.dbUser.GetOr("zbx_user")
  }

  /** The master key: the digest of a truthy environment variable; otherwise
      of the first macro row, when the lookup succeeded with at least one;
      otherwise of the salt followed by the installation seed. A failed
      macro lookup is absorbed and never aborts the derivation. */
  function MasterKey(src: KeySources): (k: Key)
    ensures TruthyOpt(src.env) ==> k == Sha256(src.env.value)
    ensures !TruthyOpt(src.env) && src.macros.MacroRows? && |src.macros.values| > 0 ==>
              k == Sha256(src.macros.values[0])
    ensures !TruthyOpt(src.env) && !(src.macros.MacroRows? && |src.macros.values| > 0) ==>
              k == Sha256(FallbackSalt + InstallSeed(src))
  {
    if TruthyOpt(src.env) then Sha256(src.env.value)
    else if src.macros.MacroRows? && |src.macros.values| > 0 then Sha256(src.macros.values[0])
    else Sha256(FallbackSalt + InstallSeed(src))
  }

  /** A truthy environment variable decides the key alone: the macro API
      and the database settings are then irrelevant. */
  lemma EnvironmentWins(src: KeySources, macros: MacroLookup, dbName: Option<string>, dbUser: Option<string>)
    requires TruthyOpt(src.env)
    ensures MasterKey(KeySources(src.env, macros, dbName, dbUser)) == MasterKey(src)
  {
  }

  /** A macro API that throws is indistinguishable from one that finds no
      macro: both fall through to the installation-derived key. */
  lemma MacroFailureIsAbsorbed(src: KeySources)
    ensures MasterKey(src.(macros := MacroApiFailed)) == MasterKey(src.(macros := MacroRows([])))
    ensures !TruthyOpt(src.env) ==> MasterKey(src.(macros := MacroApiFailed)) == Sha256(FallbackSalt + InstallSeed(src))
  {
  }

  // ---------------------------------------------------------------------------
  // Encrypting and decrypting the keys of a document
  // ---------------------------------------------------------------------------

  /** One provider's key on the way to storage. */
  function SealKey(c: Cipher, key: Key, iv: string, s: string): (r: string)
    ensures Placeholder(s) ==> r == s
    ensures !Placeholder(s) ==> r == c.seal(key, iv, s)
  {
    if Placeholder(s) then s else c.seal(key, iv, s)
  }

  /** One provider's key on the way from storage: a blob that fails to open
      is kept as stored, not blanked. */
  function OpenKey(c: Cipher, key: Key, s: string): (r: string)
    ensures Placeholder(s) ==> r == s
    ensures !Placeholder(s) && c.open(key, s).None? ==> r == s
    ensures !Placeholder(s) && c.open(key, s).Some? ==> r == c.open(key, s).value
  {
    if Placeholder(s) then s
    else
      match c.open(key, s)
      case Some(p) => p
      case None => s
  }

  /** Applies a key transformation to the `api_key` of every entry, leaving
      entries without a key alone. */
  function MapApiKeys(d: Doc, f: (string, string) -> string): (r: Doc)
    ensures r.defaultProvider == d.defaultProvider && r.quickActions == d.quickActions && r.updatedAt == d.updatedAt
    ensures r.providers.Present? <==> d.providers.Present?
    ensures !d.providers.Present? ==> r.providers == d.providers
    ensures d.providers.Present? ==> Keys(r.providers.value) == Keys(d.providers.value)
    ensures forall name :: r.Entry(name) ==
              match d.Entry(name)
              case None => None
              case Some(e) => Some(e.(apiKey := if e.apiKey.Some? then Some(f(name, e.apiKey.value)) else None))
  {
    match d.providers
    case Present(ps) =>
      var g := (name: string, e: ProviderEntry) =>
                 e.(apiKey := if e.apiKey.Some? then Some(f(name, e.apiKey.value)) else None);
      d.(providers := Present(MapValues(ps, g)))
    case _ => d
  }

  /** `encryptApiKeys`: every key that is neither "" nor the mask is sealed
      under the master key, with the initialisation vector drawn for that
      provider. Nothing but `api_key` changes, and "", the mask and a
      missing key stay as they were. */
  function EncryptApiKeys(d: Doc, c: Cipher, key: Key, ivs: string -> string): (r: Doc)
    ensures r.defaultProvider == d.defaultProvider && r.quickActions == d.quickActions && r.updatedAt == d.updatedAt
    ensures r.providers.Present? <==> d.providers.Present?
    ensures !d.providers.Present? ==> r.providers == d.providers
    ensures forall name | d.Entry(name).None? :: r.Entry(name).None?
    ensures forall name | d.Entry(name).Some? ::
              && r.Entry(name).Some?
              && r.Entry(name).value.(apiKey := None) == d.Entry(name).value.(apiKey := None)
              && (d.Entry(name).value.apiKey.None? ==> r.Entry(name).value.apiKey.None?)
              && (d.Entry(name).value.apiKey.Some? ==>
                    r.Entry(name).value.apiKey == Some(SealKey(c, key, ivs(name), d.Entry(name).value.apiKey.value)))
  {
    MapApiKeys(d, (name, s) => SealKey(c, key, ivs(name), s))
  }

  /** `decryptApiKeys`: every key that is neither "" nor the mask is opened
      under the master key. Nothing but `api_key` changes, and "", the mask,
      a missing key and a blob that fails to open stay as they were. */
  function DecryptApiKeys(d: Doc, c: Cipher, key: Key): (r: Doc)
    ensures r.defaultProvider == d.defaultProvider && r.quickActions == d.quickActions && r.updatedAt == d.updatedAt
    ensures r.providers.Present? <==> d.providers.Present?
    ensures !d.providers.Present? ==> r.providers == d.providers
    ensures forall name | d.Entry(name).None? :: r.Entry(name).None?
    ensures forall name | d.Entry(name).Some? ::
              && r.Entry(name).Some?
              && r.Entry(name).value.(apiKey := None) == d.Entry(name).value.(apiKey := None)
              && (d.Entry(name).value.apiKey.None? ==> r.Entry(name).value.apiKey.None?)
              && (d.Entry(name).value.apiKey.Some? ==>
                    r.Entry(name).value.apiKey == Some(OpenKey(c, key, d.Entry(name).value.apiKey.value)))
    ensures KeysOpened(r, d, c, key)
  {
    MapApiKeys(d, (name, s) => OpenKey(c, key, s))
  }

  /** `r` holds the entries of `d`, each with its key opened and every
      other field as stored. */
  ghost predicate KeysOpened(r: Doc, d: Doc, c: Cipher, key: Key) {
    forall name :: r.Entry(name) ==
      match d.Entry(name)
      case None => None
      case Some(e) => Some(e.(apiKey := if e.apiKey.Some? then Some(OpenKey(c, key, e.apiKey.value)) else None))
  }

  /** Under an ideal cipher and one master key, decrypting an encrypted
      document gives back every key of the original, and so the original. */
  lemma DecryptUndoesEncrypt(d: Doc, c: Cipher, key: Key, ivs: string -> string)
    requires Ideal(c)
    ensures DecryptApiKeys(EncryptApiKeys(d, c, key, ivs), c, key) == d
  {
    var e := EncryptApiKeys(d, c, key, ivs);
    var r := DecryptApiKeys(e, c, key);
    match d.providers
    case Present(ps) =>
      var rs := r.providers.value;
      assert Keys(rs) == Keys(ps);
      forall name ensures Get(rs, name) == Get(ps, name) {
        assert r.Entry(name) == Get(rs, name);
        assert d.Entry(name) == Get(ps, name);
        if d.Entry(name).Some? && d.Entry(name).value.apiKey.Some? {
          var s := d.Entry(name).value.apiKey.value;
          if !Placeholder(s) {
            assert c.open(key, c.seal(key, ivs(name), s)) == Some(s);
          }
        }
      }
      AssocExtensional(rs, ps);
    case _ =>
  }
}
