/** The extension's settings kept in the browser's synchronised key-value
    store (extension/dist/background.js:1-30, bundled from src/storage.ts). */
module ConfigStore {

  /** A stored value: the store keeps four strings and one number. */
  datatype Value = Text(text: string) | Number(n: int)

  const ApiBaseUrlKey := "apiBaseUrl"
  const ClerkFrontendApiUrlKey := "clerkFrontendApiUrl"
  const ClerkTokenKey := "clerkToken"
  const ClerkUserIdKey := "clerkUserId"
  const ClerkTokenExpiresAtKey := "clerkTokenExpiresAt"

  /** The three keys `clearAuthData` removes. */
  const AuthKeys: set<string> := {ClerkTokenKey, ClerkUserIdKey, ClerkTokenExpiresAtKey}

  const DefaultApiBaseUrl := "https://quicklinks-hftb.onrender.com"

  /** The settings as the rest of the extension sees them. The expiry is in
      milliseconds since the epoch, 0 meaning "none". */
  datatype Config = Config(
    apiBaseUrl: string,
    clerkFrontendApiUrl: string,
    clerkToken: string,
    clerkUserId: string,
    clerkTokenExpiresAt: int)

  /** `DEFAULT_CONFIG`. */
  const DefaultConfig := Config(DefaultApiBaseUrl, "", "", "", 0)

  /** The string keys hold strings and the expiry key holds a number: every
      write in the extension keeps this. */
  ghost predicate WellTyped(items: map<string, Value>) {
    && (ApiBaseUrlKey in items ==> items[ApiBaseUrlKey].Text?)
    && (ClerkFrontendApiUrlKey in items ==> items[ClerkFrontendApiUrlKey].Text?)
    && (ClerkTokenKey in items ==> items[ClerkTokenKey].Text?)
    && (ClerkUserIdKey in items ==> items[ClerkUserIdKey].Text?)
    && (ClerkTokenExpiresAtKey in items ==> items[ClerkTokenExpiresAtKey].Number?)
  }

  /** JavaScript falsiness of a stored value. */
  predicate Falsy(v: Value) {
    v == Text("") || v == Number(0)
  }

  /** `key in store` with a truthy value. */
  predicate Truthy(items: map<string, Value>, key: string) {
    key in items && !Falsy(items[key])
  }

  function TextOr(items: map<string, Value>, key: string, default: string): string
    requires key in items ==> items[key].Text?
  {
    if Truthy(items, key) then items[key].text else default
  }

  function NumberOr(items: map<string, Value>, key: string, default: int): int
    requires key in items ==> items[key].Number?
  {
    if Truthy(items, key) then items[key].n else default
  }

  /** `getConfig`: every field is the stored value when that is truthy and
      the field's default otherwise (`result.x || DEFAULT_CONFIG.x`). */
  function ConfigOf(items: map<string, Value>): (c: Config)
    requires WellTyped(items)
    ensures c.apiBaseUrl != ""
    ensures Truthy(items, ApiBaseUrlKey) ==> items[ApiBaseUrlKey] == Text(c.apiBaseUrl)
    ensures !Truthy(items, ApiBaseUrlKey) ==> c.apiBaseUrl == DefaultApiBaseUrl
    ensures c.clerkFrontendApiUrl != "" <==> Truthy(items, ClerkFrontendApiUrlKey)
    ensures c.clerkFrontendApiUrl != "" ==> items[ClerkFrontendApiUrlKey] == Text(c.clerkFrontendApiUrl)
    ensures c.clerkToken != "" <==> Truthy(items, ClerkTokenKey)
    ensures c.clerkToken != "" ==> items[ClerkTokenKey] == Text(c.clerkToken)
    ensures c.clerkUserId != "" <==> Truthy(items, ClerkUserIdKey)
    ensures c.clerkUserId != "" ==> items[ClerkUserIdKey] == Text(c.clerkUserId)
    ensures c.clerkTokenExpiresAt != 0 <==> Truthy(items, ClerkTokenExpiresAtKey)
    ensures c.clerkTokenExpiresAt != 0 ==> items[ClerkTokenExpiresAtKey] == Number(c.clerkTokenExpiresAt)
  {
    Config(
      TextOr(items, ApiBaseUrlKey, DefaultConfig.apiBaseUrl),
      TextOr(items, ClerkFrontendApiUrlKey, DefaultConfig.clerkFrontendApiUrl),
      TextOr(items, ClerkTokenKey, DefaultConfig.clerkToken),
      TextOr(items, ClerkUserIdKey, DefaultConfig.clerkUserId),
      NumberOr(items, ClerkTokenExpiresAtKey, DefaultConfig.clerkTokenExpiresAt))
  }

  /** An empty store reads as the defaults. */
  lemma EmptyStoreIsDefault()
    ensures ConfigOf(map[]) == DefaultConfig
  {
  }

  /** After `clearAuthData` the three auth fields read as their defaults and
      the two URL fields are unchanged. */
  lemma ClearedConfig(items: map<string, Value>)
    requires WellTyped(items)
    ensures WellTyped(items - AuthKeys)
    ensures ConfigOf(items - AuthKeys)
         == ConfigOf(items).(clerkToken := "", clerkUserId := "", clerkTokenExpiresAt := 0)
  {
  }

  /** The `chrome.storage.sync` area holding the settings. */
  class SyncStore {
    var items: map<string, Value>

    ghost predicate Valid()
      reads this
    {
      WellTyped(items)
    }

    constructor (initial: map<string, Value>)
      requires WellTyped(initial)
      ensures Valid() && items == initial
    {
      items := initial;
    }

    /** `saveConfig`: one merged write; keys not in `updates` keep their values. */
    method SaveConfig(updates: map<string, Value>)
      requires Valid() && WellTyped(updates)
      modifies this
      ensures Valid()
      ensures items == old(items) + updates
      ensures forall k :: k in old(items) && k !in updates ==> k in items && items[k] == old(items)[k]
    {
      items := items + updates;
    }

    /** `clearAuthData`: removes exactly the three auth keys. */
    method ClearAuthData()
      requires Valid()
      modifies this
      ensures Valid()
      ensures items == old(items) - AuthKeys
      ensures items.Keys == old(items).Keys - AuthKeys
      ensures forall k :: k in items ==> items[k] == old(items)[k]
    {
      items := items - AuthKeys;
    }
  }
}
