# SplatNet3_Scraper configuration and token bookkeeping, in Dafny

This project models two small, sequential pieces of the SplatNet 3 scraper:

1. **The scraper `Config` class** (`splatnet3_scraper/scraper/config.py`). Its INI file is a map from
   section name to a map of option names to values (`Sections.Sections`). The model covers:
   - `manage_options`, as a left fold (`ScraperConfig.ManageOptions`) over the snapshot of option
     names taken before the loop. Options that are neither accepted nor deprecated move to
     `"unknown"`. Deprecated options are archived in `"deprecated"` and renamed to their
     replacement.
   - `get`, which answers in this order: the configured value, then the static default, then one
     redirection from a deprecated name to its replacement, then a `KeyError`.
   - The pure part of `save`: which path it writes to, and whether it drops the `"tokens"` section.
   - The three option tables (`ConfigOptions`).
2. **`TokenManager` bookkeeping** (`src/splatnet3_scraper/auth/tokens/manager.py`). The model covers:
   - The constructor's normalisation of `f_token_url` into a URL list, and its default origin.
   - `flag_origin`.
   - `add_token`: insertion into the keychain, then synchronisation of the NSO client's cached
     gtoken or session token.

The manager is an immutable record (`TokenManagement.TokenManager`). Every operation is a pure
function. Python exceptions become `Failure` values of a `Result`. The `KeyError`s of `Config`
are told apart by cause in `ScraperConfig.ConfigError`; in Python they are all `KeyError`.

Behaviour worth knowing, all proved:
- **Order does not matter, with values taken as raw strings.** The loop of `manage_options`
  then gives the same result for every order of a snapshot of distinct present names
  (`ConfigProperties.ManageOptionsOrderIndependent`). This holds even when a deprecated option
  and its replacement are both set: with raw string values, the deprecated value always wins.
  Under ConfigParser's interpolation this can fail (see "## Left out"). The reason is that processing an accepted option changes nothing, and every
  replacement is an accepted option that is not itself deprecated.
- **The `"f_gen"` default is unreachable.** `DEFAULT_OPTIONS` lists a default for `"f_gen"`, but
  `get("f_gen")` is redirected to `"f_token_url"`, which has no default. So when `"f_token_url"`
  is unset, `get("f_gen")` raises (`ConfigProperties.FGenDefaultUnreachable`). The model keeps
  this behaviour as the code has it.
- **`manage_options` cannot be repeated.** Its snapshot `self.options` is taken once and never
  refreshed. A second call walks the same names again and raises a `KeyError` on the first name
  the first call moved out of "options" (`ConfigProperties.ManageOptionsSecondPassFails`).
- **An empty URL list is kept.** A list passed as `f_token_url` is stored as given, even when it
  is empty, so the endpoint list is non-empty except in exactly that case
  (`TokenManagement.NormaliseUrls`).

Some inputs come from outside the code modelled here, so they are parameters:
- The clock: `now`, used when a bare token is added without a timestamp.
- The NSO client `NSO.new_instance()` would create.
- The origin string that `save` reads from its token manager. `config.py` imports the token
  manager of `splatnet3_scraper.base.tokens` and reads its `_origin["origin"]` entry. That class
  is not part of this model, and it is a different class from the `TokenManager` of
  `manager.py`, whose origin is the `ManagerOrigin` record `TokenManagement.OriginKind` models.
  So `ScraperConfig.Save` takes the origin as a plain string, and the two halves of the model
  are not connected.
- The option-name snapshot ConfigParser reports.

The lemmas that describe a successful loop assume a `WellFormedSnapshot`: distinct names, each
present in `"options"`. `InitialiseNormalises` states its own condition instead: distinct names,
exactly those of `"options"`. That is what `ConfigParser.options("options")` returns at
`config.py:72-76`, except that it also lists names inherited from the `DEFAULT` section. That
inheritance is not modelled (see "## Left out"). Outside that case, `ScraperConfig.ManageOptions` still
models the `KeyError` raised when an option is missing.

## Model

| member | source | states |
|---|---|---|
| ConfigOptions.TablesConsistent | splatnet3_scraper/scraper/config.py:160-177 | Every deprecated name is not accepted. Each deprecated name is replaced by an accepted, non-deprecated option, and no two deprecated names share a replacement. |
| ScraperConfig.ManageOptions | splatnet3_scraper/scraper/config.py:130-158 | The loop over the snapshot changes no section other than "options", "unknown" and "deprecated", creates no other section, and keeps the "options" section. |
| ScraperConfig.MoveUnknown | splatnet3_scraper/scraper/config.py:138-144 | First half of one iteration. Known options are left alone. An unknown option raises a KeyError exactly when it is not in "options"; otherwise it is copied to "unknown" (creating that section if needed) and removed from "options". StepUnknown states the same against the closed form. |
| ScraperConfig.RenameDeprecated | splatnet3_scraper/scraper/config.py:145-158 | Second half of one iteration. Other options are left alone. A deprecated option raises a KeyError exactly when it is not in "options"; otherwise it is archived in "deprecated", its value is written under the replacement, and the old name is removed. StepDeprecated states the same against the closed form. |
| ScraperConfig.ManageOption | splatnet3_scraper/scraper/config.py:137-158 | One iteration raises exactly when the option is unknown or deprecated and missing from "options". An accepted, non-deprecated option leaves the configuration unchanged. |
| ScraperConfig.Initialise | splatnet3_scraper/scraper/config.py:69-76 | After a missing "options" section is created and the options are managed, "options" exists. All other sections are kept, and an empty snapshot leaves "options" as read. InitialiseNormalises states what the managed section holds. |
| ScraperConfig.FromTokenManager | splatnet3_scraper/scraper/config.py:37-46 | Built around a given token manager, the configuration keeps the path as given (possibly absent) and holds exactly one section, an empty "options" section. |
| ConfigProperties.FromTokenManagerReadsDefaults | splatnet3_scraper/scraper/config.py:37-46 | On such a configuration, `get` succeeds exactly for the accepted options that have a default. |
| ScraperConfig.InitialPath | splatnet3_scraper/scraper/config.py:64-68 | `__post_init__` uses the given path, or ".splatnet3_scraper" when none is given. |
| ScraperConfig.Get | splatnet3_scraper/scraper/config.py:185-209 | For an accepted key: the configured value if set, else the default if one exists, else a KeyError. A deprecated key gets the same answer as its replacement. Any other key raises an "invalid option" KeyError. |
| ScraperConfig.Save | splatnet3_scraper/scraper/config.py:102-125 | "tokens" survives exactly when it existed, the origin is not "env" and tokens are included. Every other section is unchanged. The path is the argument, else the constructor's path, else ".splatnet3_scraper". |
| ManageOptionsSpec.RenamerOf | splatnet3_scraper/scraper/config.py:174-177 | Each replacement option is renamed from exactly one deprecated name: the one that maps to it. |
| ManageOptionsSpec.StepUnknown | splatnet3_scraper/scraper/config.py:138-144 | One iteration on an option that is neither accepted nor deprecated copies it to "unknown" (creating that section if needed) and removes it from "options". |
| ManageOptionsSpec.StepDeprecated | splatnet3_scraper/scraper/config.py:145-158 | One iteration on a deprecated option archives it in "deprecated", writes its value under the replacement name, and removes the old name. |
| ManageOptionsSpec.StepAccepted | splatnet3_scraper/scraper/config.py:137-158 | One iteration on an accepted, non-deprecated option changes nothing. |
| ManageOptionsSpec.ManageOptionManages | splatnet3_scraper/scraper/config.py:137-158 | With values taken as raw strings, one iteration on a present option never raises, and its result matches the order-free description of the loop's result. |
| ManageOptionsSpec.ManageOptionsMeetsClosedForm | splatnet3_scraper/scraper/config.py:137-158 | With values taken as raw strings, the loop never raises on a snapshot of distinct present names. Its result matches the order-free description, option by option, in every section. |
| ConfigProperties.ManageOptionsLeavesOnlyAccepted | splatnet3_scraper/scraper/config.py:137-177 | After processing every option, every key left in "options" is an accepted option. |
| ConfigProperties.ManageOptionsMovesUnknown | splatnet3_scraper/scraper/config.py:138-144 | An unknown option ends up in "unknown" under the same name with its original value, and is gone from "options". |
| ConfigProperties.ManageOptionsRenamesDeprecated | splatnet3_scraper/scraper/config.py:145-158 | A deprecated option ends up in "deprecated" with its original value. Its replacement in "options" holds that value, and the old name is gone from "options". |
| ConfigProperties.ManageOptionsKeepsAccepted | splatnet3_scraper/scraper/config.py:137-158 | An accepted option that no processed deprecated option is renamed to keeps its value, or stays unset. |
| ConfigProperties.ManageOptionsOrderIndependent | splatnet3_scraper/scraper/config.py:137-158 | With values taken as raw strings, two snapshots listing the same names in different orders give the same result. |
| ConfigProperties.InitialiseNormalises | splatnet3_scraper/scraper/config.py:69-76 | With values taken as raw strings, creating a missing "options" section and then managing the options never raises. Afterwards "options" exists and holds only accepted options. |
| ConfigProperties.ManageOptionsFailsOnMissing | splatnet3_scraper/scraper/config.py:137-158 | The loop raises a KeyError when it reaches an unknown or deprecated name that is missing from "options", because earlier iterations only add replacement options. |
| ConfigProperties.ManageOptionsSecondPassFails | splatnet3_scraper/scraper/config.py:72-158 | Running the loop a second time over the same snapshot raises, whenever the snapshot names an unknown or deprecated option. |
| ConfigProperties.GetAfterManageRenamed | splatnet3_scraper/scraper/config.py:145-158 | After the loop, `get` of a processed deprecated name returns the value set under that old name, and so does `get` of its replacement. |
| ConfigProperties.GetAfterManageOthers | splatnet3_scraper/scraper/config.py:137-158 | For any name other than a processed deprecated name or its replacement, the loop does not change what `get` returns, errors included. |
| ConfigProperties.GetDeprecatedOneStep | splatnet3_scraper/scraper/config.py:206-207 | A deprecated name redirects once, to an accepted option, and gives the same answer as that option, errors included. |
| ConfigProperties.FGenDefaultUnreachable | splatnet3_scraper/scraper/config.py:179-207 | "f_gen" has a listed default, but when "f_token_url" is unset, `get("f_gen")` raises the "no default" KeyError for "f_token_url". |
| ConfigProperties.SaveKeepsGet | splatnet3_scraper/scraper/config.py:118-121 | Dropping the tokens section never changes what `get` returns for any name. |
| ConfigProperties.SaveIdempotent | splatnet3_scraper/scraper/config.py:118-125 | Saving the saved sections again with the same arguments gives the same sections and path. |
| TokenManagement.NormaliseUrls | src/splatnet3_scraper/auth/tokens/manager.py:83-88 | No argument gives exactly [IMINK_URL]. One string gives the one-element list of that string. A list is kept as given, in order. The result is empty only for an empty list. |
| TokenManagement.NormaliseUrlsIdempotent | src/splatnet3_scraper/auth/tokens/manager.py:66-88 | Passing an already normalised list back in gives the same list. |
| TokenManagement.New | src/splatnet3_scraper/auth/tokens/manager.py:81-92 | A new manager has: the given NSO client, or a new instance when none is given; the normalised URL list; an empty keychain; and the given origin and data. Its NSO cache agrees with its keychain. |
| TokenManagement.NewWithDefaults | src/splatnet3_scraper/auth/tokens/manager.py:49-92 | With the default arguments, the origin is "memory" with no data, and with no URL the list is [IMINK_URL]. |
| TokenManagement.FlagOrigin | src/splatnet3_scraper/auth/tokens/manager.py:94-112 | The origin record becomes the given kind and data. The NSO client, keychain and URL list are unchanged. |
| TokenManagement.FlagOriginLastWins | src/splatnet3_scraper/auth/tokens/manager.py:100-112 | Flagging twice equals flagging once with the second arguments: the earlier origin is not retained. |
| TokenManagement.KeychainAdd | src/splatnet3_scraper/auth/tokens/manager.py:131-138 | A bare value without a name is a ValueError, and no other input fails. A full token is stored as given. A bare value is stamped with the given time, else `now`. The token replaces any token of the same name. |
| TokenManagement.AddToken | src/splatnet3_scraper/auth/tokens/manager.py:114-144 | Fails exactly for a bare value without a name, with no state change. Otherwise the keychain gains the token. The cached gtoken is set only for a gtoken, and the cached session token only for a session token. Origin and URLs are unchanged. |
| TokenManagement.AddGtokenSyncsNso | src/splatnet3_scraper/auth/tokens/manager.py:141-142 | Adding a gtoken sets the NSO client's cached gtoken to the new value and leaves its cached session token. |
| TokenManagement.AddSessionTokenSyncsNso | src/splatnet3_scraper/auth/tokens/manager.py:143-144 | Adding a session token sets the NSO client's cached session token and leaves its cached gtoken. |
| TokenManagement.AddOtherTokenKeepsNso | src/splatnet3_scraper/auth/tokens/manager.py:140-144 | Adding a token of any other name leaves the NSO client untouched. |
| TokenManagement.AddTokenReplaces | src/splatnet3_scraper/auth/tokens/manager.py:135-136 | After adding, the keychain has exactly one token under the new name, and it is the new token. Every other entry is unchanged. |
| TokenManagement.AddTokenPreservesValid | src/splatnet3_scraper/auth/tokens/manager.py:135-144 | `add_token` keeps every token filed under its own name, and keeps the NSO client's cached gtoken and session token equal to the keychain's. |

## Left out

- Reading and writing files is not modelled:
  - The `open`/`write` calls in `__post_init__` and `save`.
  - ConfigParser's parsing and writing.
  - ConfigParser's lower-casing of option names.
  - ConfigParser's `DEFAULT`-section inheritance.

  Sections are plain maps, and the option snapshot is a parameter.
- Constructors that obtain a token manager from disk or the environment are left out. The
  loaders they call are not part of this model:
  - `Config.from_env` and `Config.from_s3s_config`.
  - `TokenManager.load`, `from_config_file`, `from_env` and `from_text_file`.

  `Config.__init__` with a given token manager reads nothing and is modelled by `ScraperConfig.FromTokenManager`.
- Values are raw strings. ConfigParser's default interpolation (`%(name)s`, `%%`) is not modelled, and neither are its errors. A value with a lone `%` makes a Python read raise, so on such values the Python loop can raise where the model does not. With `%(name)s` references,
  the Python result can also depend on the snapshot order, while the model's result does not.
  For example, take `"options"` = {`f_gen`: `A`, `f_token_url`: `B`, `y`: `%(f_token_url)s`}, with
  `y` unknown:
  - In order `[f_gen, y, f_token_url]`, the rename writes `A` to `f_token_url` before `y` is read,
    so Python leaves `unknown["y"] = A`.
  - In order `[y, f_gen, f_token_url]`, Python leaves `B`.
  - The model leaves the raw string `%(f_token_url)s` in both orders.
- `Config.get_data` and `Config.get_token` only forward to token-manager state that is not part of this model.
- The following are not part of this model:
  - Token regeneration and NSO network calls.
  - Signing-service retry and failover.
  - The environment-variables manager.
  - Logging.
- The query-layer `Config` (`src/splatnet3_scraper/query/configuration/config.py`) wraps `TokenManager.regenerate_tokens` and an option handler, and neither is part of this model.
- The keychain class is not part of this model. `TokenManagement.KeychainAdd` assumes this behaviour:
  - A map from name to token.
  - Replacement on insert.
  - A ValueError for a bare value without a name.
  - A full token stored unchanged.
  - A timestamp that defaults to the current time.
- The package's constants module is not part of this model. `IMINK_URL`, `DEFAULT_USER_AGENT` and the token names are stand-in strings. No property depends on their text, only on the token names being distinct.
- ScraperConfig.ManageOptions: partial updates are not modelled. In Python an exception in the middle of the loop leaves the earlier iterations' changes in place. The model returns only the error. A second call over the same snapshot is one way to reach such an error (see ManageOptionsSecondPassFails). Interpolation errors are another, and they are not modelled.
- Object sharing is not modelled. The manager keeps the caller's NSO client object and URL list
  object themselves (`manager.py:82`, `manager.py:88`), not copies:
  - The cache writes made by `add_token` are visible to every holder of that client.
  - A caller that later edits its list changes the manager's endpoint order.

  The model's immutable records have neither effect, and nothing modelled here depends on it.
- Timestamps are real numbers, not floating point, and no arithmetic is done on them.
