/** The scraper's `Config` class: normalising the "options" section,
    looking options up, and the pure decisions made when saving. */
module ScraperConfig {
  import opened Wrappers
  import opened Sections
  import opened ConfigOptions

  /** The `KeyError`s the class can raise, told apart by their cause. */
  datatype ConfigError =
    | NoSuchSection(section: string)
    | NoSuchOption(section: string, key: string)
    | NotSetNoDefault(key: string)
    | InvalidOption(key: string)

  const OPTIONS: string := "options"
  const UNKNOWN: string := "unknown"
  const DEPRECATED: string := "deprecated"
  const TOKENS_SECTION: string := "tokens"

  /** Path used when neither the caller nor the constructor named one. */
  const DEFAULT_CONFIG_PATH: string := ".splatnet3_scraper"

  /** The sections `manage_options` may write to. */
  predicate IsManaged(n: string) {
    n == OPTIONS || n == UNKNOWN || n == DEPRECATED
  }

  /** Processing an option takes it out of "options": it is unknown, or it is deprecated. */
  predicate LeavesOptions(k: string) {
    !IsKnown(k) || IsDeprecated(k)
  }

  /** The value `config["options"][option]` reads, or the `KeyError` it raises. */
  function ReadOption(c: Sections, option: string): Result<string, ConfigError>
  {
    if OPTIONS !in c then Failure(NoSuchSection(OPTIONS))
    else if option !in c[OPTIONS] then Failure(NoSuchOption(OPTIONS, option))
    else Success(c[OPTIONS][option])
  }

  /** First half of one loop iteration: an option that is neither accepted nor
      deprecated is moved to the "unknown" section. */
  function MoveUnknown(c: Sections, option: string): (r: Result<Sections, ConfigError>)
    ensures IsKnown(option) ==> r == Success(c)
    ensures !IsKnown(option) ==> (r.Success? <==> option in Section(c, OPTIONS))
    ensures r.Success? && !IsKnown(option) ==>
      && UNKNOWN in r.value && r.value[UNKNOWN] == Section(c, UNKNOWN)[option := c[OPTIONS][option]]
      && OPTIONS in r.value && r.value[OPTIONS] == c[OPTIONS] - {option}
  {
    if IsKnown(option) then Success(c)
    else
      var v :- ReadOption(c, option);
      Success(RemoveOption(Put(c, UNKNOWN, option, v), OPTIONS, option))
  }

  /** Second half of one loop iteration: a deprecated option is archived in the
      "deprecated" section and renamed to its replacement. */
  function RenameDeprecated(c: Sections, option: string): (r: Result<Sections, ConfigError>)
    ensures !IsDeprecated(option) ==> r == Success(c)
    ensures IsDeprecated(option) ==> (r.Success? <==> option in Section(c, OPTIONS))
    ensures r.Success? && IsDeprecated(option) ==>
      && DEPRECATED in r.value && r.value[DEPRECATED] == Section(c, DEPRECATED)[option := c[OPTIONS][option]]
      && OPTIONS in r.value
      && r.value[OPTIONS] == c[OPTIONS][DEPRECATED_OPTIONS[option] := c[OPTIONS][option]] - {option}
  {
    if !IsDeprecated(option) then Success(c)
    else
      var v :- ReadOption(c, option);
      var archived := Put(c, DEPRECATED, option, v);
      var renamed := Put(archived, OPTIONS, DEPRECATED_OPTIONS[option], v);
      Success(RemoveOption(renamed, OPTIONS, option))
  }

  /** One iteration of the loop of `manage_options`: it raises exactly when the
      option would leave "options" but is not there to be read. */
  function ManageOption(c: Sections, option: string): (r: Result<Sections, ConfigError>)
    ensures r.Success? <==> !LeavesOptions(option) || option in Section(c, OPTIONS)
    ensures !LeavesOptions(option) ==> r == Success(c)
  {
    var moved :- MoveUnknown(c, option);
    RenameDeprecated(moved, option)
  }

  /** `manage_options`: the loop over the snapshot `snapshot` of the option
      names, taken before the loop starts. Only the "options", "unknown" and
      "deprecated" sections can change. */
  function ManageOptions(c: Sections, snapshot: seq<string>): (r: Result<Sections, ConfigError>)
    ensures r.Success? ==> forall n :: n in c && !IsManaged(n) ==> n in r.value && r.value[n] == c[n]
    ensures r.Success? ==> forall n :: n in r.value && !IsManaged(n) ==> n in c
    ensures r.Success? && OPTIONS in c ==> OPTIONS in r.value
    decreases |snapshot|
  {
    if snapshot == [] then Success(c)
    else
      var next :- ManageOption(c, snapshot[0]);
      ManageOptions(next, snapshot[1..])
  }

  /** The setup of `__post_init__` after the file has been read: create the
      "options" section when the file had none, then normalise the options.
      `snapshot` is the list of option names ConfigParser reports. */
  function Initialise(read: Sections, snapshot: seq<string>): (r: Result<Sections, ConfigError>)
    ensures r.Success? ==> OPTIONS in r.value
    ensures r.Success? ==> forall n :: n in read && !IsManaged(n) ==> n in r.value && r.value[n] == read[n]
    ensures snapshot == [] ==> r.Success? && r.value[OPTIONS] == Section(read, OPTIONS)
  {
    var c := if OPTIONS in read then read else read[OPTIONS := map[]];
    ManageOptions(c, snapshot)
  }

  /** `__init__` given a token manager: nothing is read; the path is kept as
      given, possibly absent, and the configuration holds one empty "options"
      section. `manage_options` is not run. */
  function FromTokenManager(configPath: Option<string>): (r: (Option<string>, Sections))
    ensures r.0 == configPath
    ensures r.1.Keys == {OPTIONS} && r.1[OPTIONS] == map[]
  {
    (configPath, map[OPTIONS := map[]])
  }

  /** The path `__post_init__` reads from and writes back to. */
  function InitialPath(configPath: Option<string>): (p: string)
    ensures configPath.Some? ==> p == configPath.value
    ensures configPath.None? ==> p == DEFAULT_CONFIG_PATH
  {
    configPath.GetOr(DEFAULT_CONFIG_PATH)
  }

  /** `get`: the configured value of an accepted option, else its default; a
      deprecated name is answered by the option that replaced it; any other
      name is invalid. */
  function Get(c: Sections, key: string): (r: Result<string, ConfigError>)
    ensures IsAccepted(key) && OPTIONS in c && key in c[OPTIONS] ==>
      r == Success(c[OPTIONS][key])
    ensures IsAccepted(key) && OPTIONS in c && key !in c[OPTIONS] && key in DEFAULT_OPTIONS ==>
      r == Success(DEFAULT_OPTIONS[key])
    ensures IsAccepted(key) && OPTIONS in c && key !in c[OPTIONS] && key !in DEFAULT_OPTIONS ==>
      r == Failure(NotSetNoDefault(key))
    ensures !IsAccepted(key) && IsDeprecated(key) ==> r == Get(c, DEPRECATED_OPTIONS[key])
    ensures !IsKnown(key) ==> r == Failure(InvalidOption(key))
    decreases if IsAccepted(key) then 0 else 1
  {
    if IsAccepted(key) then
      if OPTIONS !in c then Failure(NoSuchSection(OPTIONS))
      else if key in c[OPTIONS] then Success(c[OPTIONS][key])
      else if key in DEFAULT_OPTIONS then Success(DEFAULT_OPTIONS[key])
      else Failure(NotSetNoDefault(key))
    else if IsDeprecated(key) then
      TablesConsistent();
      Get(c, DEPRECATED_OPTIONS[key])
    else
      Failure(InvalidOption(key))
  }

  /** What `save` writes, and where. */
  datatype SavePlan = SavePlan(path: string, sections: Sections)

  /** The decisions of `save`: drop the "tokens" section when the token manager
      came from the environment or the caller excludes tokens, and choose the
      path — the argument, else the constructor's path, else the default. */
  function Save(c: Sections, configPath: Option<string>, origin: string,
                path: Option<string>, includeTokens: bool): (p: SavePlan)
    ensures TOKENS_SECTION in p.sections <==> TOKENS_SECTION in c && origin != "env" && includeTokens
    ensures forall n :: n != TOKENS_SECTION ==> (n in p.sections <==> n in c)
    ensures forall n :: n in p.sections ==> n in c && p.sections[n] == c[n]
    ensures path.Some? ==> p.path == path.value
    ensures path.None? && configPath.Some? ==> p.path == configPath.value
    ensures path.None? && configPath.None? ==> p.path == DEFAULT_CONFIG_PATH
  {
    var kept := if origin == "env" || !includeTokens then RemoveSection(c, TOKENS_SECTION) else c;
    var target :=
      if path.None? && configPath.Some? then configPath.value
      else if path.None? then DEFAULT_CONFIG_PATH
      else path.value;
    SavePlan(target, kept)
  }
}
