/**
 * The credential store: one entry, under the key `auth_tokens`, of the
 * browser's key-value storage holds the access/refresh token pair.
 * The storage itself is a class whose map the three operations update.
 */
module TokenService {
  import opened Wrappers

  const AUTH_KEY: string := "auth_tokens"

  /** The pair as `getTokens` hands it out. A missing field is the (falsy) empty string. */
  datatype TokenPair = TokenPair(access: string, refresh: string)

  /**
   * What a storage entry holds: the JSON object `saveTokens` writes, or any
   * other text, which `getTokens` cannot read back as a token pair.
   */
  datatype Entry = TokensJson(pair: TokenPair) | OtherText(text: string)

  /** The pair stored under `auth_tokens`, if the entry is there and parses. */
  function StoredTokens(items: map<string, Entry>): (r: Option<TokenPair>)
    ensures r.Some? <==> AUTH_KEY in items && items[AUTH_KEY].TokensJson?
    ensures r.Some? ==> items[AUTH_KEY] == TokensJson(r.value)
  {
    if AUTH_KEY in items && items[AUTH_KEY].TokensJson? then Some(items[AUTH_KEY].pair) else None
  }

  /** The storage after `saveTokens(access, refresh)`. */
  function Saved(items: map<string, Entry>, access: string, refresh: string): map<string, Entry> {
    items[AUTH_KEY := TokensJson(TokenPair(access, refresh))]
  }

  /** The storage after `removeTokens()`. */
  function Removed(items: map<string, Entry>): map<string, Entry> {
    items - {AUTH_KEY}
  }

  /** The browser's `localStorage`. */
  class LocalStorage {
    var items: map<string, Entry>

    constructor (initial: map<string, Entry>)
      ensures items == initial
    {
      items := initial;
    }
  }

  /** `saveTokens`: overwrite the whole pair under the one key. */
  method SaveTokens(storage: LocalStorage, access: string, refresh: string)
    modifies storage
    ensures storage.items == Saved(old(storage.items), access, refresh)
  {
    storage.items := storage.items[AUTH_KEY := TokensJson(TokenPair(access, refresh))];
  }

  /** `getTokens`: the stored pair, or `null` when the key is absent or does not parse. Never throws. */
  method GetTokens(storage: LocalStorage) returns (tokens: Option<TokenPair>)
    ensures tokens.Some? <==> AUTH_KEY in storage.items && storage.items[AUTH_KEY].TokensJson?
    ensures tokens.Some? ==> storage.items[AUTH_KEY] == TokensJson(tokens.value)
  {
    if AUTH_KEY in storage.items {
      match storage.items[AUTH_KEY]
      case TokensJson(pair) => tokens := Some(pair);
      case OtherText(_) => tokens := None;
    } else {
      tokens := None;
    }
  }

  /** `removeTokens`: delete the one key. */
  method RemoveTokens(storage: LocalStorage)
    modifies storage
    ensures storage.items == Removed(old(storage.items))
  {
    storage.items := storage.items - {AUTH_KEY};
  }

  /** After `saveTokens(a, r)`, `getTokens` returns exactly `{a, r}`. */
  lemma SaveThenGet(items: map<string, Entry>, access: string, refresh: string)
    ensures StoredTokens(Saved(items, access, refresh)) == Some(TokenPair(access, refresh))
  {
  }

  /** A second save replaces the whole pair: nothing of the first pair survives. */
  lemma SaveOverwrites(items: map<string, Entry>, a1: string, r1: string, a2: string, r2: string)
    ensures Saved(Saved(items, a1, r1), a2, r2) == Saved(items, a2, r2)
  {
  }

  /** After `removeTokens`, `getTokens` returns `null`. */
  lemma RemoveThenGet(items: map<string, Entry>)
    ensures StoredTokens(Removed(items)) == None
  {
  }

  /** The store touches only its own key: every other storage entry is left as it was. */
  lemma OnlyAuthKeyTouched(items: map<string, Entry>, access: string, refresh: string, k: string)
    requires k != AUTH_KEY
    ensures k in Saved(items, access, refresh) <==> k in items
    ensures k in Removed(items) <==> k in items
    ensures k in items ==> Saved(items, access, refresh)[k] == items[k] && Removed(items)[k] == items[k]
  {
  }
}
