/** The token pair the refresh endpoint returns and the token stores save. */
module TokenTypes {
  datatype TokenPair = TokenPair(accessToken: string, refreshToken: string)
}
