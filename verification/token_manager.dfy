/** The bookkeeping of `TokenManager`: its endpoint list, its origin record,
    its keychain, and the cached tokens of its NSO client. */
module TokenManagement {
  import opened Wrappers
  import Constants

  /** Where the manager's tokens came from (`ORIGIN`). */
  datatype OriginKind = Memory | Env | File

  /** `ManagerOrigin`: the origin and its extra data, such as a file path. */
  datatype ManagerOrigin = ManagerOrigin(origin: OriginKind, data: Option<string>)

  /** A token record (name, value, creation time in seconds). */
  datatype Token = Token(name: string, value: string, timestamp: real)

  /** The keychain: at most one token per name. */
  type Keychain = map<string, Token>

  /** The two tokens the NSO client caches for its own requests. */
  datatype Nso = Nso(gtoken: Option<string>, sessionToken: Option<string>)

  /** The `f_token_url` argument: absent, one URL, or a list of URLs. */
  datatype UrlArg = NoUrl | OneUrl(url: string) | UrlList(urls: seq<string>)

  /** The `token` argument of `add_token`: a bare value or a full token. */
  datatype TokenArg = Bare(value: string) | Full(token: Token)

  datatype ManagerError = ValueError

  datatype TokenManager = TokenManager(
    nso: Nso,
    fTokenUrl: seq<string>,
    keychain: Keychain,
    origin: ManagerOrigin)

  /** Every token is filed under its own name. */
  predicate KeychainWellFormed(k: Keychain) {
    forall n :: n in k ==> k[n].name == n
  }

  /** The NSO client's cached gtoken and session token are the keychain's. */
  predicate NsoSynced(m: TokenManager) {
    && (Constants.GTOKEN in m.keychain ==> m.nso.gtoken == Some(m.keychain[Constants.GTOKEN].value))
    && (Constants.SESSION_TOKEN in m.keychain ==>
          m.nso.sessionToken == Some(m.keychain[Constants.SESSION_TOKEN].value))
  }

  predicate Valid(m: TokenManager) {
    KeychainWellFormed(m.keychain) && NsoSynced(m)
  }

  /** The endpoint list the constructor stores: the default endpoint, the one
      URL given, or the list given, in its order. */
  function NormaliseUrls(u: UrlArg): (urls: seq<string>)
    ensures u.NoUrl? ==> urls == [Constants.IMINK_URL]
    ensures u.OneUrl? ==> urls == [u.url]
    ensures u.UrlList? ==> urls == u.urls
    ensures |urls| == 0 <==> u == UrlList([])
  {
    match u
    case NoUrl => [Constants.IMINK_URL]
    case OneUrl(url) => [url]
    case UrlList(urls) => urls
  }

  /** Normalising an already normalised list changes nothing. */
  lemma NormaliseUrlsIdempotent(u: UrlArg)
    ensures NormaliseUrls(UrlList(NormaliseUrls(u))) == NormaliseUrls(u)
  {
  }

  /** `TokenManager.__init__`. `newInstance` is the client `NSO.new_instance()` would
      make; it is used only when no client is given. */
  function New(nso: Option<Nso>, newInstance: Nso, fTokenUrl: UrlArg,
               origin: OriginKind, originData: Option<string>): (m: TokenManager)
    ensures m.keychain == map[]
    ensures m.origin == ManagerOrigin(origin, originData)
    ensures m.nso == (if nso.Some? then nso.value else newInstance)
    ensures m.fTokenUrl == NormaliseUrls(fTokenUrl)
    ensures Valid(m)
  {
    TokenManager(nso.GetOr(newInstance), NormaliseUrls(fTokenUrl), map[], ManagerOrigin(origin, originData))
  }

  /** `TokenManager.__init__` with the default origin arguments. */
  function NewWithDefaults(nso: Option<Nso>, newInstance: Nso, fTokenUrl: UrlArg): (m: TokenManager)
    ensures m.origin == ManagerOrigin(Memory, None)
    ensures m.keychain == map[]
    ensures fTokenUrl == NoUrl ==> m.fTokenUrl == [Constants.IMINK_URL]
    ensures Valid(m)
  {
    New(nso, newInstance, fTokenUrl, Memory, None)
  }

  /** `flag_origin`: replaces the origin record and nothing else. */
  function FlagOrigin(m: TokenManager, origin: OriginKind, data: Option<string>): (m': TokenManager)
    ensures m'.origin == ManagerOrigin(origin, data)
    ensures m'.nso == m.nso && m'.keychain == m.keychain && m'.fTokenUrl == m.fTokenUrl
    ensures Valid(m) ==> Valid(m')
  {
    m.(origin := ManagerOrigin(origin, data))
  }

  /** The previous origin is not retained: the last flag wins. */
  lemma FlagOriginLastWins(m: TokenManager, o1: OriginKind, d1: Option<string>,
                           o2: OriginKind, d2: Option<string>)
    ensures FlagOrigin(FlagOrigin(m, o1, d1), o2, d2) == FlagOrigin(m, o2, d2)
  {
  }

  /** The keychain's `add_token`: a bare value needs a name and is stamped with
      the given time, else `now`; a full token is stored as it is. The new
      token replaces any token of the same name. */
  function KeychainAdd(k: Keychain, token: TokenArg, name: Option<string>,
                       timestamp: Option<real>, now: real): (r: Result<(Keychain, Token), ManagerError>)
    ensures r.Failure? <==> token.Bare? && name.None?
    ensures r.Success? && token.Full? ==> r.value.1 == token.token
    ensures r.Success? && token.Bare? ==>
      r.value.1 == Token(name.value, token.value, timestamp.GetOr(now))
    ensures r.Success? ==> r.value.0 == k[r.value.1.name := r.value.1]
  {
    match token
    case Full(t) => Success((k[t.name := t], t))
    case Bare(v) =>
      if name.None? then Failure(ValueError)
      else
        var t := Token(name.value, v, timestamp.GetOr(now));
        Success((k[t.name := t], t))
  }

  /** The token `add_token` stores for these arguments. */
  function Added(token: TokenArg, name: Option<string>, timestamp: Option<real>, now: real): Token
    requires token.Full? || name.Some?
  {
    if token.Full? then token.token else Token(name.value, token.value, timestamp.GetOr(now))
  }

  /** `add_token`: insert into the keychain, then point the NSO client's cached
      gtoken or session token at the new value. */
  function AddToken(m: TokenManager, token: TokenArg, name: Option<string>,
                    timestamp: Option<real>, now: real): (r: Result<TokenManager, ManagerError>)
    ensures r.Failure? <==> token.Bare? && name.None?
    ensures r.Success? ==> r.value.origin == m.origin && r.value.fTokenUrl == m.fTokenUrl
    ensures r.Success? ==> var t := Added(token, name, timestamp, now);
      && r.value.keychain == m.keychain[t.name := t]
      && r.value.nso.gtoken == (if t.name == Constants.GTOKEN then Some(t.value) else m.nso.gtoken)
      && r.value.nso.sessionToken ==
           (if t.name == Constants.SESSION_TOKEN then Some(t.value) else m.nso.sessionToken)
  {
    var (keychain, t) :- KeychainAdd(m.keychain, token, name, timestamp, now);
    var nso :=
      if t.name == Constants.GTOKEN then m.nso.(gtoken := Some(t.value))
      else if t.name == Constants.SESSION_TOKEN then m.nso.(sessionToken := Some(t.value))
      else m.nso;
    Success(m.(keychain := keychain, nso := nso))
  }

  /** Adding a gtoken updates the cached gtoken and leaves the cached session token. */
  lemma AddGtokenSyncsNso(m: TokenManager, token: TokenArg, name: Option<string>,
                          timestamp: Option<real>, now: real)
    requires token.Full? || name.Some?
    requires Added(token, name, timestamp, now).name == Constants.GTOKEN
    ensures AddToken(m, token, name, timestamp, now).Success?
    ensures var m' := AddToken(m, token, name, timestamp, now).value;
      && m'.nso.gtoken == Some(Added(token, name, timestamp, now).value)
      && m'.nso.sessionToken == m.nso.sessionToken
  {
  }

  /** Adding a session token updates the cached session token and leaves the cached gtoken. */
  lemma AddSessionTokenSyncsNso(m: TokenManager, token: TokenArg, name: Option<string>,
                                timestamp: Option<real>, now: real)
    requires token.Full? || name.Some?
    requires Added(token, name, timestamp, now).name == Constants.SESSION_TOKEN
    ensures AddToken(m, token, name, timestamp, now).Success?
    ensures var m' := AddToken(m, token, name, timestamp, now).value;
      && m'.nso.sessionToken == Some(Added(token, name, timestamp, now).value)
      && m'.nso.gtoken == m.nso.gtoken
  {
  }

  /** Adding any other token leaves the NSO client alone. */
  lemma AddOtherTokenKeepsNso(m: TokenManager, token: TokenArg, name: Option<string>,
                              timestamp: Option<real>, now: real)
    requires token.Full? || name.Some?
    requires Added(token, name, timestamp, now).name != Constants.GTOKEN
    requires Added(token, name, timestamp, now).name != Constants.SESSION_TOKEN
    ensures AddToken(m, token, name, timestamp, now).Success?
    ensures AddToken(m, token, name, timestamp, now).value.nso == m.nso
  {
  }

  /** The keychain holds exactly one token under the new name, the new one,
      and every other entry is unchanged. */
  lemma AddTokenReplaces(m: TokenManager, token: TokenArg, name: Option<string>,
                         timestamp: Option<real>, now: real)
    requires token.Full? || name.Some?
    ensures AddToken(m, token, name, timestamp, now).Success?
    ensures var t := Added(token, name, timestamp, now);
      var k := AddToken(m, token, name, timestamp, now).value.keychain;
      && k.Keys == m.keychain.Keys + {t.name}
      && k[t.name] == t
      && forall n :: n in m.keychain && n != t.name ==> k[n] == m.keychain[n]
  {
  }

  /** `add_token` keeps the keychain well formed and the NSO client in step
      with it. */
  lemma AddTokenPreservesValid(m: TokenManager, token: TokenArg, name: Option<string>,
                               timestamp: Option<real>, now: real)
    requires Valid(m)
    ensures AddToken(m, token, name, timestamp, now).Success? ==>
      Valid(AddToken(m, token, name, timestamp, now).value)
  {
  }
}
