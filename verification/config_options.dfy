/** The option tables of the scraper's `Config` class. */
module ConfigOptions {
  import Constants

  /** Options the configuration understands (`ACCEPTED_OPTIONS`). */
  const ACCEPTED_OPTIONS: seq<string> := [
    "user_agent",
    "log_level",
    "log_file",
    "export_path",
    "language",
    "lang",
    "country",
    "stat.ink_api_key",
    "stat_ink_api_key",
    "statink_api_key",
    "f_token_url"
  ]

  /** Old option names and the option that replaced each (`DEPRECATED_OPTIONS`). */
  const DEPRECATED_OPTIONS: map<string, string> := map[
    "api_key" := "stat.ink_api_key",
    "f_gen" := "f_token_url"
  ]

  /** Values used when an option is not set (`DEFAULT_OPTIONS`). */
  const DEFAULT_OPTIONS: map<string, string> := map[
    "user_agent" := Constants.DEFAULT_USER_AGENT,
    "f_gen" := Constants.IMINK_URL,
    "export_path" := ""
  ]

  predicate IsAccepted(k: string) {
    k in ACCEPTED_OPTIONS
  }

  predicate IsDeprecated(k: string) {
    k in DEPRECATED_OPTIONS
  }

  /** Membership in `ACCEPTED_OPTIONS + list(DEPRECATED_OPTIONS.keys())`. */
  predicate IsKnown(k: string) {
    IsAccepted(k) || IsDeprecated(k)
  }

  /** The tables fit together: every deprecated name is retired (not accepted)
      and is replaced by an accepted, non-deprecated option, and no two
      deprecated names share a replacement. */
  lemma TablesConsistent()
    ensures forall d :: d in DEPRECATED_OPTIONS ==>
      && !IsAccepted(d)
      && IsAccepted(DEPRECATED_OPTIONS[d])
      && !IsDeprecated(DEPRECATED_OPTIONS[d])
    ensures forall d1, d2 :: d1 in DEPRECATED_OPTIONS && d2 in DEPRECATED_OPTIONS && d1 != d2 ==>
      DEPRECATED_OPTIONS[d1] != DEPRECATED_OPTIONS[d2]
  {
  }
}
