/** The API-key gate (app/auth.py): a decision over the configured keys
    and the `X-API-Key` header, which arrives as `None` when absent. */
module Auth {
  import opened Wrappers
  import opened Config
  import Text

  /** The identity given to every caller when no key is configured. */
  const DevModeIdentity: string := "dev-mode"
  const MissingKeyDetail: string := "Missing API key. Provide X-API-Key header."
  const InvalidKeyDetail: string := "Invalid API key."
  const Unauthorized: int := 401

  datatype AuthOutcome = Authorized(identity: string) | MissingApiKey | InvalidApiKey
  {
    /** The HTTP status of the rejection raised for this outcome. */
    function StatusCode(): (code: int)
      requires !Authorized?
      ensures code == Unauthorized
    {
      Unauthorized
    }

    /** The `detail` of the rejection raised for this outcome. */
    function Detail(): (detail: string)
      requires !Authorized?
      ensures MissingApiKey? ==> detail == MissingKeyDetail
      ensures InvalidApiKey? ==> detail == InvalidKeyDetail
    {
      if MissingApiKey? then MissingKeyDetail else InvalidKeyDetail
    }
  }

  /** The guard chain over the list the checks read: an empty list lets
      everyone in; otherwise a missing or empty key is refused first, then a
      key not in the list, and a listed key is its own identity. */
  function Decide(keys: seq<string>, apiKey: Option<string>): (r: AuthOutcome)
    ensures r.Authorized? <==> keys == [] || (apiKey.Some? && apiKey.value != [] && apiKey.value in keys)
    ensures r.MissingApiKey? <==> keys != [] && (apiKey.None? || apiKey.value == [])
    ensures r.InvalidApiKey? <==> keys != [] && apiKey.Some? && apiKey.value != [] && apiKey.value !in keys
    ensures r.Authorized? ==> r.identity == if keys == [] then DevModeIdentity else apiKey.value
  {
    if keys == [] then Authorized(DevModeIdentity)
    else if apiKey.None? || apiKey.value == [] then MissingApiKey
    else if apiKey.value !in keys then InvalidApiKey
    else Authorized(apiKey.value)
  }

  /** `verify_api_key`. The property `api_keys_list` builds a new list on
      every access, so the `"dev-mode"` appended to one copy is never seen by
      the checks, which read the property afresh: the append has no effect
      and is not repeated here (`DevModeNotABackdoor` states what it would
      have changed). */
  function VerifyApiKey(settings: Settings, apiKey: Option<string>): (r: AuthOutcome)
    ensures r.Authorized? <==>
      settings.ApiKeysList() == [] || (apiKey.Some? && apiKey.value in settings.ApiKeysList())
    ensures r.MissingApiKey? <==> settings.ApiKeysList() != [] && (apiKey.None? || apiKey.value == [])
    ensures r.InvalidApiKey? <==>
      settings.ApiKeysList() != [] && apiKey.Some? && apiKey.value != [] && apiKey.value !in settings.ApiKeysList()
    ensures r.Authorized? && settings.ApiKeysList() != [] ==> apiKey == Some(r.identity)
    ensures settings.ApiKeysList() == [] ==> r == Authorized(DevModeIdentity)
  {
    Decide(settings.ApiKeysList(), apiKey)
  }

  /** `"dev-mode"` opens the gate only when it is configured (or when no key
      is), although every call appends it to a copy of the list; were the
      append visible to the checks, the outcome would differ. */
  lemma DevModeNotABackdoor(settings: Settings)
    requires settings.ApiKeysList() != []
    requires DevModeIdentity !in settings.ApiKeysList()
    ensures VerifyApiKey(settings, Some(DevModeIdentity)) == InvalidApiKey
    ensures Decide(settings.ApiKeysList() + [DevModeIdentity], Some(DevModeIdentity)) == Authorized(DevModeIdentity)
  {
  }

  /** An empty header is reported as missing, never as invalid, whatever the list holds. */
  lemma EmptyHeaderIsMissing(settings: Settings)
    requires settings.ApiKeysList() != []
    ensures VerifyApiKey(settings, Some([])) == MissingApiKey
    ensures VerifyApiKey(settings, None) == MissingApiKey
  {
  }

  /** Every non-blank comma piece of the `API_KEYS` setting, stripped
      (`"k1, k2"` configures `"k2"`), opens the gate with itself as identity. */
  lemma PieceAccepted(settings: Settings, j: nat)
    requires j < |Text.SplitOnComma(settings.apiKeys)|
    requires Text.Strip(Text.SplitOnComma(settings.apiKeys)[j]) != []
    ensures VerifyApiKey(settings, Some(Text.Strip(Text.SplitOnComma(settings.apiKeys)[j])))
              == Authorized(Text.Strip(Text.SplitOnComma(settings.apiKeys)[j]))
  {
    var pieces := Text.SplitOnComma(settings.apiKeys);
    var key := Text.Strip(pieces[j]);
    ApiKeysGuardRedundant(settings);
    KeptPieceListed(pieces, j);
    assert key in settings.ApiKeysList();
  }

  /** A written key list that is the plain comma-join of clean keys
      configures exactly those keys, each of which opens the gate. */
  lemma ConfiguredKeyAccepted(settings: Settings, keys: seq<string>, i: nat)
    requires |keys| >= 1 && i < |keys|
    requires forall k :: 0 <= k < |keys| ==> keys[k] != [] && Text.IsStripped(keys[k]) && ',' !in keys[k]
    requires settings.apiKeys == Text.JoinWithComma(keys)
    ensures VerifyApiKey(settings, Some(keys[i])) == Authorized(keys[i])
  {
    ApiKeysGuardRedundant(settings);
    ParseJoinRoundTrip(keys);
  }
}
