/** FileTokenStore of src/tele2-ats2-client/token-store.file.impl.js: the
    tokens kept in a JSON file, arbitrated against the refresh token the
    store was constructed with. The file is the store's `file` field; reading
    and writing it are the only effects. */
module FileTokenStores {
  import opened Js
  import opened Errors
  import opened TokenTypes

  const DefaultFilename: string := ".tele2ats2.token.json"

  /** The parsed file: `{ accessToken, refreshToken, startRefreshToken }`,
      where startRefreshToken is the constructor token the file was written
      under. */
  datatype TokenFile = TokenFile(accessToken: Option<string>, refreshToken: Option<string>, startRefreshToken: Option<string>)

  /** What reading the file gives: no file (ENOENT), another read or parse
      failure, or its content. */
  datatype FileState = Missing | Unreadable(error: Thrown) | Holds(content: TokenFile)

  /** The error `fs.readFile` rejects with for a missing file. */
  function NotFound(filename: string): Thrown {
    OtherError("Error", "ENOENT: no such file or directory, open '" + filename + "'")
  }

  /** The file was written under another constructor token than this one. */
  predicate Stale(content: TokenFile, ctorToken: Option<string>) {
    Truthy(ctorToken) && content.startRefreshToken != ctorToken
  }

  /** `loadAccessToken()`'s outcome: a read failure, missing file included,
      propagates; a stale file gives null. */
  function AccessTokenOf(file: FileState, filename: string, ctorToken: Option<string>): (r: Outcome<Option<string>>)
    // only a readable file gives an answer; a missing one fails with ENOENT
    ensures r.Resolved? <==> file.Holds?
    ensures file.Missing? ==> r == Rejected(NotFound(filename))
    // a stale file has no access token for this store
    ensures file.Holds? && Stale(file.content, ctorToken) ==> r == Resolved(None)
    ensures file.Holds? && !Stale(file.content, ctorToken) ==> r == Resolved(file.content.accessToken)
  {
    match file
    case Missing => Rejected(NotFound(filename))
    case Unreadable(e) => Rejected(e)
    case Holds(content) => if Stale(content, ctorToken) then Resolved(None) else Resolved(content.accessToken)
  }

  /** `loadRefreshToken()`'s outcome: a missing file falls back to the
      constructor token, a stale file gives the constructor token. */
  function RefreshTokenOf(file: FileState, ctorToken: Option<string>): (r: Outcome<Option<string>>)
    // it fails only on a read failure, or on a missing file with no constructor token
    ensures r.Rejected? <==> file.Unreadable? || (file.Missing? && !Truthy(ctorToken))
    // the token given is the constructor's or the file's own
    ensures r.Resolved? ==> r.value == ctorToken || (file.Holds? && r.value == file.content.refreshToken)
    // the constructor token wins over a missing or stale file
    ensures Truthy(ctorToken) && (file.Missing? || (file.Holds? && Stale(file.content, ctorToken))) ==> r == Resolved(ctorToken)
  {
    match file
    case Missing =>
      if Truthy(ctorToken) then Resolved(ctorToken) else Rejected(OtherError("Error", "No refresh token provided"))
    case Unreadable(e) => Rejected(e)
    case Holds(content) => if Stale(content, ctorToken) then Resolved(ctorToken) else Resolved(content.refreshToken)
  }

  /** The file `saveTokens` writes. */
  function Saved(pair: TokenPair, ctorToken: Option<string>): (r: TokenFile)
    // the pair is stored, under this store's own constructor token
    ensures r.accessToken == Some(pair.accessToken) && r.refreshToken == Some(pair.refreshToken)
    ensures !Stale(r, ctorToken)
  {
    TokenFile(Some(pair.accessToken), Some(pair.refreshToken), ctorToken)
  }

  class FileTokenStore {
    const filename: string
    const refreshToken: Option<string>
    var file: FileState

    /** `props?.filename ?? DEFAULT_FILENAME`, `props?.refreshToken ?? null`;
        `file` is what the path holds at construction. */
    constructor(filename: Option<string>, refreshToken: Option<string>, file: FileState)
      ensures this.filename == (if filename.Some? then filename.value else DefaultFilename)
      ensures this.refreshToken == refreshToken && this.file == file
    {
      this.filename := if filename.Some? then filename.value else DefaultFilename;
      this.refreshToken := refreshToken;
      this.file := file;
    }

    method LoadAccessToken() returns (r: Outcome<Option<string>>)
      ensures r == AccessTokenOf(file, filename, refreshToken)
    {
      r := AccessTokenOf(file, filename, refreshToken);
    }

    method LoadRefreshToken() returns (r: Outcome<Option<string>>)
      ensures r == RefreshTokenOf(file, refreshToken)
    {
      r := RefreshTokenOf(file, refreshToken);
    }

    method SaveTokens(pair: TokenPair)
      modifies this`file
      ensures file == Holds(Saved(pair, refreshToken))
    {
      file := Holds(Saved(pair, refreshToken));
    }
  }

  /** After a save both loads give back the saved pair: the file now carries
      this store's own constructor token, so it is never stale. */
  lemma SaveLoadRoundTrip(pair: TokenPair, filename: string, ctorToken: Option<string>)
    ensures AccessTokenOf(Holds(Saved(pair, ctorToken)), filename, ctorToken) == Resolved(Some(pair.accessToken))
    ensures RefreshTokenOf(Holds(Saved(pair, ctorToken)), ctorToken) == Resolved(Some(pair.refreshToken))
  {
  }

  /** A store given a different non-empty refresh token than the file was
      written under ignores the file's tokens: no access token, and its own
      refresh token. */
  lemma ConstructorTokenWins(content: TokenFile, filename: string, ctorToken: string)
    requires ctorToken != "" && content.startRefreshToken != Some(ctorToken)
    ensures AccessTokenOf(Holds(content), filename, Some(ctorToken)) == Resolved(None)
    ensures RefreshTokenOf(Holds(content), Some(ctorToken)) == Resolved(Some(ctorToken))
  {
  }

  /** Without a constructor token the file's tokens are used whatever
      startRefreshToken it records. */
  lemma NoConstructorTokenTrustsFile(content: TokenFile, filename: string, ctorToken: Option<string>)
    requires !Truthy(ctorToken)
    ensures AccessTokenOf(Holds(content), filename, ctorToken) == Resolved(content.accessToken)
    ensures RefreshTokenOf(Holds(content), ctorToken) == Resolved(content.refreshToken)
  {
  }

  /** A missing file: the access-token load fails with the read error, the
      refresh-token load falls back to the constructor token or fails with
      "No refresh token provided". */
  lemma MissingFile(filename: string, ctorToken: Option<string>)
    ensures AccessTokenOf(Missing, filename, ctorToken).Rejected?
    ensures RefreshTokenOf(Missing, ctorToken).Resolved? <==> Truthy(ctorToken)
    ensures RefreshTokenOf(Missing, ctorToken).Resolved? ==> RefreshTokenOf(Missing, ctorToken).value == ctorToken
  {
  }

  /** Saving through the class and loading back, as one sequence of calls. */
  method SaveThenLoad(store: FileTokenStore, pair: TokenPair) returns (access: Outcome<Option<string>>, refresh: Outcome<Option<string>>)
    modifies store
    ensures access == Resolved(Some(pair.accessToken)) && refresh == Resolved(Some(pair.refreshToken))
  {
    store.SaveTokens(pair);
    SaveLoadRoundTrip(pair, store.filename, store.refreshToken);
    access := store.LoadAccessToken();
    refresh := store.LoadRefreshToken();
  }
}
