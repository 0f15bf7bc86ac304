/** `buildBOSHClient`: how the exporter authenticates to the BOSH director.
    It asks the director, without credentials, which authentication it uses.
    A director not on UAA gets the static username and password as client and
    client secret. A UAA director gets a token source: the OAuth 2.0 client
    credentials grant (section 4.4 of RFC 6749) when a UAA client id and secret
    are both configured, otherwise the resource owner password credentials grant
    (section 4.3 of RFC 6749) with the public client "bosh_cli", whose refresh
    token is wrapped in a renewable session.

    The BOSH director and UAA client libraries are not part of this model: what
    their calls return is an input (`Library`), and the model states what the
    exporter does with each outcome. */
module BoshClient {
  import opened Wrappers

  /** A value of the director's advertised auth options, as decoded from JSON
      into Go's `interface{}`. */
  datatype Value =
    | StringValue(s: string)
    | NumberValue(n: int)
    | BoolValue(b: bool)
    | NullValue
    | ListValue(items: seq<Value>)

  /** The `Auth` part of the director's info response. */
  datatype AuthInfo = AuthInfo(authType: string, options: map<string, Value>)

  /** The exporter's BOSH credential flags. */
  datatype Credentials = Credentials(
    username: string,
    password: string,
    uaaClientID: string,
    uaaClientSecret: string)

  /** One answer to a UAA login prompt. */
  datatype PromptAnswer = PromptAnswer(key: string, value: string)

  const UaaAuthType := "uaa"
  const UaaUrlOption := "url"
  /** The UAA client used when no client id and secret are configured. */
  const DefaultUaaClient := "bosh_cli"

  /** How the exporter will authenticate, as decided from the director's info. */
  datatype Plan =
    | Direct(client: string, clientSecret: string)
    | UaaClientCredentials(url: string, client: string, clientSecret: string, caCert: string)
    | UaaPassword(url: string, client: string, answers: seq<PromptAnswer>, caCert: string)

  datatype BuildError =
    /** The "url" auth option is not a string: `found` is what was there, `None`
        when Go's map lookup gives nil (the option is missing or JSON null). */
    | UaaUrlNotString(found: Option<Value>)
    /** An error returned by a library call, passed on unchanged. */
    | LibraryError(message: string)

  /** `Options["url"]` as Go sees it: a missing key and a JSON null are both nil. */
  function UrlOption(options: map<string, Value>): Option<Value>
  {
    if UaaUrlOption in options && options[UaaUrlOption] != NullValue then Some(options[UaaUrlOption])
    else None
  }

  /** The UAA URL advertised by the director, which must be a string. */
  function UaaUrl(options: map<string, Value>): (r: Result<string, BuildError>)
    ensures r.Success? <==> UaaUrlOption in options && options[UaaUrlOption].StringValue?
    ensures r.Success? ==> r.value == options[UaaUrlOption].s
    ensures r.Failure? ==> r.error.UaaUrlNotString?
    ensures r.Failure? && UaaUrlOption in options && options[UaaUrlOption] != NullValue ==>
      r.error.found == Some(options[UaaUrlOption])
    ensures r.Failure? && (UaaUrlOption !in options || options[UaaUrlOption] == NullValue) ==>
      r.error.found == None
  {
    if UaaUrlOption in options && options[UaaUrlOption].StringValue? then
      Success(options[UaaUrlOption].s)
    else
      Failure(UaaUrlNotString(UrlOption(options)))
  }

  /** Both halves of the UAA client configuration are set. */
  predicate HasUaaClient(creds: Credentials)
  {
    creds.uaaClientID != "" && creds.uaaClientSecret != ""
  }

  /** The answers to the UAA login prompts for the password grant. */
  function PasswordAnswers(creds: Credentials): seq<PromptAnswer>
  {
    [PromptAnswer("username", creds.username), PromptAnswer("password", creds.password)]
  }

  /** The authentication decision of `buildBOSHClient`: which plan is chosen is
      decided by the auth type, the URL option and whether a full UAA client is
      configured; the only failure is a missing or non-string URL. */
  function SelectPlan(info: AuthInfo, creds: Credentials, caCert: string): (r: Result<Plan, BuildError>)
    ensures r.Success? && r.value.Direct? <==> info.authType != UaaAuthType
    ensures r.Success? && r.value.UaaClientCredentials? <==>
      info.authType == UaaAuthType && UaaUrl(info.options).Success? && HasUaaClient(creds)
    ensures r.Success? && r.value.UaaPassword? <==>
      info.authType == UaaAuthType && UaaUrl(info.options).Success? && !HasUaaClient(creds)
    ensures r.Failure? ==> r == Failure(UaaUrl(info.options).error)
  {
    if info.authType != UaaAuthType then
      Success(Direct(creds.username, creds.password))
    else
      var url :- UaaUrl(info.options);
      if HasUaaClient(creds) then
        Success(UaaClientCredentials(url, creds.uaaClientID, creds.uaaClientSecret, caCert))
      else
        Success(UaaPassword(url, DefaultUaaClient, PasswordAnswers(creds), caCert))
  }

  /** A director not on UAA is always given the static username and password,
      whatever its options and whatever UAA client and CA certificate are
      configured. */
  lemma DirectWhenNotUaa(info: AuthInfo, creds: Credentials, caCert: string)
    requires info.authType != UaaAuthType
    ensures SelectPlan(info, creds, caCert) == Success(Direct(creds.username, creds.password))
    ensures forall id, secret, ca ::
      SelectPlan(info, creds.(uaaClientID := id, uaaClientSecret := secret), ca)
        == SelectPlan(info, creds, caCert)
  {
  }

  /** A UAA director fails the decision exactly when its "url" option is missing
      or not a string; when it does not, the plan uses that URL and the CA
      certificate that was set on the director configuration. */
  lemma UaaUrlDecides(info: AuthInfo, creds: Credentials, caCert: string)
    requires info.authType == UaaAuthType
    ensures SelectPlan(info, creds, caCert).Failure?
      <==> !(UaaUrlOption in info.options && info.options[UaaUrlOption].StringValue?)
    ensures SelectPlan(info, creds, caCert).Failure? ==>
      SelectPlan(info, creds, caCert).error
        == UaaUrlNotString(UrlOption(info.options))
    ensures SelectPlan(info, creds, caCert).Success? ==>
      var plan := SelectPlan(info, creds, caCert).value;
      !plan.Direct? && plan.url == info.options[UaaUrlOption].s && plan.caCert == caCert
  {
  }

  /** With a UAA client id and secret both configured, the plan is the client
      credentials grant with exactly those, and the static username and password
      play no part. */
  lemma ClientCredentialsWhenConfigured(info: AuthInfo, creds: Credentials, caCert: string)
    requires info.authType == UaaAuthType
    requires UaaUrlOption in info.options && info.options[UaaUrlOption].StringValue?
    requires HasUaaClient(creds)
    ensures SelectPlan(info, creds, caCert) == Success(UaaClientCredentials(
      info.options[UaaUrlOption].s, creds.uaaClientID, creds.uaaClientSecret, caCert))
    ensures forall username, password ::
      SelectPlan(info, creds.(username := username, password := password), caCert)
        == SelectPlan(info, creds, caCert)
  {
  }

  /** With either half of the UAA client missing, the configured half is ignored:
      the plan is the password grant for client "bosh_cli", answering the prompt
      "username" and then "password" with the static credentials. */
  lemma PasswordGrantOtherwise(info: AuthInfo, creds: Credentials, caCert: string)
    requires info.authType == UaaAuthType
    requires UaaUrlOption in info.options && info.options[UaaUrlOption].StringValue?
    requires !HasUaaClient(creds)
    ensures SelectPlan(info, creds, caCert).Success?
    ensures var plan := SelectPlan(info, creds, caCert).value;
      && plan.UaaPassword?
      && plan.client == DefaultUaaClient
      && |plan.answers| == 2
      && plan.answers[0] == PromptAnswer("username", creds.username)
      && plan.answers[1] == PromptAnswer("password", creds.password)
    ensures forall id, secret :: id == "" || secret == "" ==>
      SelectPlan(info, creds.(uaaClientID := id, uaaClientSecret := secret), caCert)
        == SelectPlan(info, creds, caCert)
  {
  }

  // ---------------------------------------------------------------------------
  // Filling in the director configuration

  /** `uaa.Config` as the exporter fills it in. */
  datatype UaaConfig = UaaConfig(url: string, caCert: string, client: string, clientSecret: string)

  /** The `TokenFunc` set on the director configuration. */
  datatype TokenSource =
    | NoTokenFunc
    /** `uaa.NewClientTokenSession`: client credentials tokens from this UAA client. */
    | ClientTokenSession(uaa: UaaConfig)
    /** `uaa.NewAccessTokenSession` over a stale access token built from the
        refresh token of the password grant. */
    | AccessTokenSession(uaa: UaaConfig, refreshToken: string)

  /** `director.Config` as the exporter fills it in. */
  datatype DirectorConfig = DirectorConfig(
    url: string,
    caCert: string,
    client: string,
    clientSecret: string,
    tokenFunc: TokenSource)

  datatype Status = Ok | Err(message: string)

  /** What the library calls made by `buildBOSHClient` return. A call whose
      outcome depends on its arguments is a function of them. */
  datatype Library = Library(
    /** `logger.Levelify` on the log level flag. */
    logLevel: Status,
    /** `director.NewConfigFromURL`. */
    directorUrl: string -> Status,
    /** The contents of the CA certificate file, or the error reading it. */
    caCertFile: Result<string, string>,
    /** Creating the director client without credentials. */
    anonymousDirector: DirectorConfig -> Status,
    /** The anonymous director's `Info()`. */
    info: Result<AuthInfo, string>,
    /** `uaa.NewConfigFromURL`. */
    uaaUrl: string -> Status,
    /** Creating the UAA client from its configuration. */
    uaaClient: UaaConfig -> Status,
    /** `OwnerPasswordCredentialsGrant`: the refresh token, or an error. */
    passwordGrant: (UaaConfig, seq<PromptAnswer>) -> Result<string, string>,
    /** Creating the authenticated director client. */
    director: DirectorConfig -> Status)

  /** `readCACert`: no file configured means no CA certificate. */
  function ReadCACert(path: string, file: Result<string, string>): (r: Result<string, string>)
    ensures path == "" ==> r == Success("")
    ensures path != "" ==> r == file
  {
    if path == "" then Success("") else file
  }

  /** The outcome of the part of `buildBOSHClient` from line 191 on, once the
      director's info is known: the decided plan carried out on the director
      configuration, with the UAA library calls it needs. */
  function AuthOutcome(config: DirectorConfig, info: AuthInfo, creds: Credentials, lib: Library)
    : (r: Result<DirectorConfig, BuildError>)
    ensures info.authType != UaaAuthType ==> r.Success?
    ensures r.Success? ==> r.value.url == config.url && r.value.caCert == config.caCert
    ensures r.Failure? && r.error.UaaUrlNotString? ==>
      info.authType == UaaAuthType && UaaUrl(info.options).Failure?
    ensures info.authType == UaaAuthType && UaaUrl(info.options).Failure? ==>
      r == Failure(UaaUrlNotString(UrlOption(info.options)))
  {
    match SelectPlan(info, creds, config.caCert)
    case Failure(e) => Failure(e)
    case Success(Direct(client, secret)) =>
      Success(config.(client := client, clientSecret := secret))
    case Success(UaaClientCredentials(url, client, secret, caCert)) =>
      var uaa := UaaConfig(url, caCert, client, secret);
      if lib.uaaUrl(url).Err? then Failure(LibraryError(lib.uaaUrl(url).message))
      else if lib.uaaClient(uaa).Err? then Failure(LibraryError(lib.uaaClient(uaa).message))
      else Success(config.(tokenFunc := ClientTokenSession(uaa)))
    case Success(UaaPassword(url, client, answers, caCert)) =>
      var uaa := UaaConfig(url, caCert, client, "");
      if lib.uaaUrl(url).Err? then Failure(LibraryError(lib.uaaUrl(url).message))
      else if lib.uaaClient(uaa).Err? then Failure(LibraryError(lib.uaaClient(uaa).message))
      else match lib.passwordGrant(uaa, answers)
        case Failure(m) => Failure(LibraryError(m))
        case Success(token) => Success(config.(tokenFunc := AccessTokenSession(uaa, token)))
  }

  /** Lines 191-241 of `buildBOSHClient`: the director configuration is filled in
      field by field, with an early return on every error. */
  method ConfigureAuth(config: DirectorConfig, info: AuthInfo, creds: Credentials, lib: Library)
    returns (r: Result<DirectorConfig, BuildError>)
    ensures r == AuthOutcome(config, info, creds, lib)
  {
    var directorConfig := config;
    if info.authType != UaaAuthType {
      directorConfig := directorConfig.(client := creds.username);
      directorConfig := directorConfig.(clientSecret := creds.password);
      return Success(directorConfig);
    }
    if UaaUrlOption !in info.options || !info.options[UaaUrlOption].StringValue? {
      return Failure(UaaUrlNotString(UrlOption(info.options)));
    }
    var uaaUrl := info.options[UaaUrlOption].s;
    var status := lib.uaaUrl(uaaUrl);
    if status.Err? {
      return Failure(LibraryError(status.message));
    }
    var uaaConfig := UaaConfig(uaaUrl, "", "", "");
    uaaConfig := uaaConfig.(caCert := directorConfig.caCert);
    if creds.uaaClientID != "" && creds.uaaClientSecret != "" {
      uaaConfig := uaaConfig.(client := creds.uaaClientID);
      uaaConfig := uaaConfig.(clientSecret := creds.uaaClientSecret);
    } else {
      uaaConfig := uaaConfig.(client := DefaultUaaClient);
    }
    status := lib.uaaClient(uaaConfig);
    if status.Err? {
      return Failure(LibraryError(status.message));
    }
    if creds.uaaClientID != "" && creds.uaaClientSecret != "" {
      directorConfig := directorConfig.(tokenFunc := ClientTokenSession(uaaConfig));
    } else {
      var answers := [PromptAnswer("username", creds.username), PromptAnswer("password", creds.password)];
      var grant := lib.passwordGrant(uaaConfig, answers);
      if grant.Failure? {
        return Failure(LibraryError(grant.error));
      }
      directorConfig := directorConfig.(tokenFunc := AccessTokenSession(uaaConfig, grant.value));
    }
    return Success(directorConfig);
  }

  /** Carrying out the plan never changes the director URL or CA certificate, and
      any UAA configuration it builds carries that same CA certificate. A director
      not on UAA gets the static credentials and nothing else changes; a UAA director
      keeps its client and secret and gets a token source. */
  lemma AuthOutcomeShape(config: DirectorConfig, info: AuthInfo, creds: Credentials, lib: Library)
    ensures var r := AuthOutcome(config, info, creds, lib);
      r.Success? ==>
        && r.value.url == config.url
        && r.value.caCert == config.caCert
        && (info.authType != UaaAuthType ==>
              r.value == config.(client := creds.username, clientSecret := creds.password))
        && (info.authType == UaaAuthType ==>
              && r.value.client == config.client
              && r.value.clientSecret == config.clientSecret
              && !r.value.tokenFunc.NoTokenFunc?
              && r.value.tokenFunc.uaa.caCert == config.caCert
              && r.value.tokenFunc.uaa.url == info.options[UaaUrlOption].s)
  {
  }

  /** A director not on UAA makes the exporter call no UAA library function: the
      outcome is the same whatever those calls would return. */
  lemma DirectCallsNoUaa(config: DirectorConfig, info: AuthInfo, creds: Credentials, lib: Library, other: Library)
    requires info.authType != UaaAuthType
    ensures AuthOutcome(config, info, creds, lib) == AuthOutcome(config, info, creds, other)
    ensures AuthOutcome(config, info, creds, lib).Success?
  {
  }

  /** The client credentials grant never asks for the password grant, and never
      uses the static username and password. */
  lemma ClientCredentialsNeverUsesPassword(config: DirectorConfig, info: AuthInfo, creds: Credentials,
                                           lib: Library, grant: (UaaConfig, seq<PromptAnswer>) -> Result<string, string>,
                                           username: string, password: string)
    requires info.authType == UaaAuthType
    requires HasUaaClient(creds)
    ensures AuthOutcome(config, info, creds, lib)
      == AuthOutcome(config, info, creds.(username := username, password := password), lib.(passwordGrant := grant))
    ensures AuthOutcome(config, info, creds, lib).Success? ==>
      AuthOutcome(config, info, creds, lib).value.tokenFunc == ClientTokenSession(UaaConfig(
        info.options[UaaUrlOption].s, config.caCert, creds.uaaClientID, creds.uaaClientSecret))
  {
  }

  /** Without a complete UAA client, the password grant is asked of the client
      "bosh_cli" with no secret, with exactly the answers "username" and then
      "password" carrying the static credentials, and its refresh token is what the
      session renews from. */
  lemma PasswordGrantAnswers(config: DirectorConfig, info: AuthInfo, creds: Credentials, lib: Library)
    requires info.authType == UaaAuthType
    requires !HasUaaClient(creds)
    ensures var r := AuthOutcome(config, info, creds, lib);
      r.Success? ==>
        var uaa := UaaConfig(info.options[UaaUrlOption].s, config.caCert, DefaultUaaClient, "");
        var answers := [PromptAnswer("username", creds.username), PromptAnswer("password", creds.password)];
        && lib.passwordGrant(uaa, answers).Success?
        && r.value.tokenFunc == AccessTokenSession(uaa, lib.passwordGrant(uaa, answers).value)
  {
  }

  /** `buildBOSHClient`: every library error is returned as it is, in the order
      the calls are made; otherwise the configuration that was authenticated. */
  method BuildBoshClient(boshUrl: string, caCertFile: string, creds: Credentials, lib: Library)
    returns (r: Result<DirectorConfig, BuildError>)
    ensures r == (
      if lib.logLevel.Err? then Failure(LibraryError(lib.logLevel.message))
      else if lib.directorUrl(boshUrl).Err? then Failure(LibraryError(lib.directorUrl(boshUrl).message))
      else if ReadCACert(caCertFile, lib.caCertFile).Failure? then
        Failure(LibraryError(ReadCACert(caCertFile, lib.caCertFile).error))
      else
        var anonymous := DirectorConfig(boshUrl, ReadCACert(caCertFile, lib.caCertFile).value, "", "", NoTokenFunc);
        if lib.anonymousDirector(anonymous).Err? then Failure(LibraryError(lib.anonymousDirector(anonymous).message))
        else if lib.info.Failure? then Failure(LibraryError(lib.info.error))
        else match AuthOutcome(anonymous, lib.info.value, creds, lib)
          case Failure(e) => Failure(e)
          case Success(config) =>
            if lib.director(config).Err? then Failure(LibraryError(lib.director(config).message))
            else Success(config))
    ensures r.Success? ==>
      && r.value.caCert == ReadCACert(caCertFile, lib.caCertFile).value
      && (!r.value.tokenFunc.NoTokenFunc? ==> r.value.tokenFunc.uaa.caCert == r.value.caCert)
  {
    if lib.logLevel.Err? {
      return Failure(LibraryError(lib.logLevel.message));
    }
    var status := lib.directorUrl(boshUrl);
    if status.Err? {
      return Failure(LibraryError(status.message));
    }
    var directorConfig := DirectorConfig(boshUrl, "", "", "", NoTokenFunc);
    var caCert := ReadCACert(caCertFile, lib.caCertFile);
    if caCert.Failure? {
      return Failure(LibraryError(caCert.error));
    }
    directorConfig := directorConfig.(caCert := caCert.value);
    status := lib.anonymousDirector(directorConfig);
    if status.Err? {
      return Failure(LibraryError(status.message));
    }
    if lib.info.Failure? {
      return Failure(LibraryError(lib.info.error));
    }
    r := ConfigureAuth(directorConfig, lib.info.value, creds, lib);
    AuthOutcomeShape(directorConfig, lib.info.value, creds, lib);
    if r.Failure? {
      return r;
    }
    status := lib.director(r.value);
    if status.Err? {
      return Failure(LibraryError(status.message));
    }
  }
}
