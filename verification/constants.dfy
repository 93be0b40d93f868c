/** Values the core imports from the package's constants module.
    That module is not part of this model: the strings below stand in for
    the real ones, and no property depends on their text beyond the token
    names being distinct. */
module Constants {

  /** Default signing-service endpoint (`IMINK_URL`). */
  const IMINK_URL: string := "https://api.imink.app/f"

  /** Default HTTP user agent (`DEFAULT_USER_AGENT`). */
  const DEFAULT_USER_AGENT: string := "SplatNet3_Scraper"

  /** Token names (`TOKENS.SESSION_TOKEN`, `TOKENS.GTOKEN`). */
  const SESSION_TOKEN: string := "session_token"
  const GTOKEN: string := "gtoken"
}
