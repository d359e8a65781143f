/** MemoryTokenStore of src/tele2-ats2-client/token-store.memory.impl.js: both
    tokens held in fields that `saveTokens` overwrites. */
module MemoryTokenStores {
  import opened Js
  import opened TokenTypes

  class MemoryTokenStore {
    var accessToken: Option<string>
    var refreshToken: Option<string>

    /** `props.accessToken ?? null`: an absent access token is null. */
    constructor(refreshToken: Option<string>, accessToken: Option<string>)
      ensures this.accessToken == accessToken && this.refreshToken == refreshToken
    {
      this.accessToken := accessToken;
      this.refreshToken := refreshToken;
    }

    /** Reads the field and changes nothing. */
    method LoadAccessToken() returns (r: Option<string>)
      ensures r == accessToken
    {
      r := accessToken;
    }

    /** Reads the field and changes nothing. */
    method LoadRefreshToken() returns (r: Option<string>)
      ensures r == refreshToken
    {
      r := refreshToken;
    }

    method SaveTokens(pair: TokenPair)
      modifies this
      ensures accessToken == Some(pair.accessToken) && refreshToken == Some(pair.refreshToken)
    {
      accessToken := Some(pair.accessToken);
      refreshToken := Some(pair.refreshToken);
    }
  }

  /** A store built without an access token has none to load. */
  method FreshStoreHasNoAccessToken(refreshToken: Option<string>) returns (access: Option<string>, refresh: Option<string>)
    ensures access.None? && refresh == refreshToken
  {
    var store := new MemoryTokenStore(refreshToken, None);
    access := store.LoadAccessToken();
    refresh := store.LoadRefreshToken();
  }

  /** Saving then loading gives back the saved pair, whatever was held before. */
  method SaveThenLoad(store: MemoryTokenStore, pair: TokenPair) returns (access: Option<string>, refresh: Option<string>)
    modifies store
    ensures access == Some(pair.accessToken) && refresh == Some(pair.refreshToken)
  {
    store.SaveTokens(pair);
    access := store.LoadAccessToken();
    refresh := store.LoadRefreshToken();
  }
}
