/** The API client manager (src/analytics.ts): the three Google Analytics
    clients are created lazily, on the first request, over one
    authenticated client chosen by trying OAuth2 and falling back to
    Application Default Credentials; later requests reuse them and only
    refresh the OAuth2 token. Token storage, the OAuth2 flow and Google's
    credential discovery are not modelled: what they yield is a parameter. */
module AnalyticsClients {
  import opened Common
  import opened Json
  import opened Mcp

  datatype AuthMethod = OAuth2 | Adc

  /** An authenticated client, as getOAuth2Client() or GoogleAuth's
      getClient() hands it out; only its identity matters here. */
  datatype AuthClient = AuthClient(id: nat)

  /** A googleapis client: the API, its version, and the authenticated
      client its requests are signed with. */
  datatype ApiClient = ApiClient(api: string, version: string, auth: AuthClient)

  /** How an awaited call that returns nothing of interest settles. */
  datatype Status = Succeeded | Threw(message: string)

  /** What the outside world answers during one initialisation or refresh:
      the two environment variables, ensureValidToken(), getOAuth2Client()
      and GoogleAuth's getClient(). */
  datatype Environment = Environment(
    clientId: Option<string>,
    clientSecret: Option<string>,
    tokenCheck: Status,
    oauthClient: Result<AuthClient>,
    adcClient: Result<AuthClient>)

  /** The three clients ensureAnalyticsClients returns. */
  datatype Clients = Clients(data: ApiClient, admin: ApiClient, adminAlpha: ApiClient)

  const AllMethodsFailed: string :=
    "All authentication methods failed. Please configure either:\n"
    + "1. OAuth2: Set GOOGLE_CLIENT_ID and GOOGLE_CLIENT_SECRET, then run 'mcp-google-analytics auth'\n"
    + "2. ADC: Run 'gcloud auth application-default login --scopes=https://www.googleapis.com/auth/analytics.readonly,https://www.googleapis.com/auth/analytics.edit'"

  const DataNotInitialized := "Analytics Data client not initialized. Call initializeAnalyticsClients() first."
  const AdminNotInitialized := "Analytics Admin client not initialized. Call initializeAnalyticsClients() first."
  const AdminAlphaNotInitialized := "Analytics Admin Alpha client not initialized. Call initializeAnalyticsClients() first."
  const NoAuthClient := "Authentication client not available"

  function DataClientOver(auth: AuthClient): ApiClient { ApiClient("analyticsdata", "v1beta", auth) }
  function AdminClientOver(auth: AuthClient): ApiClient { ApiClient("analyticsadmin", "v1beta", auth) }
  function AdminAlphaClientOver(auth: AuthClient): ApiClient { ApiClient("analyticsadmin", "v1alpha", auth) }

  /** `clientId && clientSecret`: OAuth2 is tried only when both are set
      and non-empty. */
  predicate OAuthConfigured(env: Environment) {
    NonEmpty(env.clientId) && NonEmpty(env.clientSecret)
  }

  /** The method initialisation settles on, with its client: OAuth2 when it
      is configured and both the token check and getOAuth2Client succeed;
      otherwise ADC when it yields a client; otherwise none. */
  function Authenticate(env: Environment): Option<(AuthMethod, AuthClient)> {
    if OAuthConfigured(env) && env.tokenCheck.Succeeded? && env.oauthClient.Ok? then Some((OAuth2, env.oauthClient.value))
    else if env.adcClient.Ok? then Some((Adc, env.adcClient.value))
    else None
  }

  /** The module state of src/analytics.ts. */
  class ClientManager {
    var dataClient: Option<ApiClient>
    var adminClient: Option<ApiClient>
    var adminAlphaClient: Option<ApiClient>
    var authMethod: AuthMethod
    var currentAuthClient: Option<AuthClient>

    /** Either no client exists, or all three exist over the current
        authenticated client. */
    predicate Valid()
      reads this
    {
      (dataClient.None? && adminClient.None? && adminAlphaClient.None?)
      || (currentAuthClient.Some?
          && dataClient == Some(DataClientOver(currentAuthClient.value))
          && adminClient == Some(AdminClientOver(currentAuthClient.value))
          && adminAlphaClient == Some(AdminAlphaClientOver(currentAuthClient.value)))
    }

    /** The initial values of the module variables. */
    constructor()
      ensures Valid() && !IsInitialized()
      ensures authMethod == OAuth2 && currentAuthClient.None?
    {
      dataClient := None;
      adminClient := None;
      adminAlphaClient := None;
      authMethod := OAuth2;
      currentAuthClient := None;
    }

    /** isAnalyticsClientsInitialized */
    predicate IsInitialized()
      reads this
    {
      dataClient.Some? && adminClient.Some? && adminAlphaClient.Some?
    }

    /** getAnalyticsDataClient */
    function GetDataClient(): (r: Result<ApiClient>)
      reads this
      ensures r.Ok? <==> dataClient.Some?
      ensures r.Ok? ==> r.value == dataClient.value
      ensures r.Err? ==> r.message == DataNotInitialized
    {
      if dataClient.None? then Err(DataNotInitialized) else Ok(dataClient.value)
    }

    /** getAnalyticsAdminClient */
    function GetAdminClient(): (r: Result<ApiClient>)
      reads this
      ensures r.Ok? <==> adminClient.Some?
      ensures r.Ok? ==> r.value == adminClient.value
      ensures r.Err? ==> r.message == AdminNotInitialized
    {
      if adminClient.None? then Err(AdminNotInitialized) else Ok(adminClient.value)
    }

    /** getAnalyticsAdminAlphaClient */
    function GetAdminAlphaClient(): (r: Result<ApiClient>)
      reads this
      ensures r.Ok? <==> adminAlphaClient.Some?
      ensures r.Ok? ==> r.value == adminAlphaClient.value
      ensures r.Err? ==> r.message == AdminAlphaNotInitialized
    {
      if adminAlphaClient.None? then Err(AdminAlphaNotInitialized) else Ok(adminAlphaClient.value)
    }

    /** The object ensureAnalyticsClients returns, built by calling the
        three getters in order; the first that throws decides the error. */
    function ClientsOf(): (r: Result<Clients>)
      reads this
      ensures r.Ok? <==> IsInitialized()
      ensures r.Ok? ==> r.value == Clients(dataClient.value, adminClient.value, adminAlphaClient.value)
      ensures dataClient.None? ==> r == Err(DataNotInitialized)
    {
      match GetDataClient()
      case Err(m) => Err(m)
      case Ok(data) =>
        match GetAdminClient()
        case Err(m) => Err(m)
        case Ok(admin) =>
          match GetAdminAlphaClient()
          case Err(m) => Err(m)
          case Ok(adminAlpha) => Ok(Clients(data, admin, adminAlpha))
    }

    /** The `if (!currentAuthClient) throw` test of getAuthenticatedHttpClient. */
    function AuthClientOf(): (r: Result<AuthClient>)
      reads this
      ensures r.Ok? <==> currentAuthClient.Some?
      ensures r.Ok? ==> r.value == currentAuthClient.value
      ensures r.Err? ==> r.message == NoAuthClient
    {
      if currentAuthClient.None? then Err(NoAuthClient) else Ok(currentAuthClient.value)
    }

    /** initializeAnalyticsClients: on success all three clients are
        (re)created over the client of the method that worked, and that
        method is recorded; when every method fails nothing changes and the
        call throws. */
    method Initialize(env: Environment) returns (r: Status)
      requires Valid()
      modifies this
      ensures Valid()
      ensures r.Succeeded? <==> Authenticate(env).Some?
      ensures r.Threw? ==> r.message == AllMethodsFailed && unchanged(this)
      ensures r.Succeeded? ==>
        authMethod == Authenticate(env).value.0 &&
        currentAuthClient == Some(Authenticate(env).value.1) &&
        IsInitialized() && dataClient.value.auth == Authenticate(env).value.1
    {
      var auth: Option<AuthClient> := None;
      if env.clientId.Some? && env.clientId.value != "" && env.clientSecret.Some? && env.clientSecret.value != "" {
        if env.tokenCheck.Succeeded? && env.oauthClient.Ok? {
          auth := Some(env.oauthClient.value);
          authMethod := OAuth2;
          currentAuthClient := auth;
        }
      }
      if auth.None? {
        if env.adcClient.Err? {
          return Threw(AllMethodsFailed);
        }
        auth := Some(env.adcClient.value);
        authMethod := Adc;
        currentAuthClient := auth;
      }
      dataClient := Some(DataClientOver(auth.value));
      adminClient := Some(AdminClientOver(auth.value));
      adminAlphaClient := Some(AdminAlphaClientOver(auth.value));
      r := Succeeded;
    }

    /** ensureAnalyticsClients: initialise when any client is missing;
        otherwise never re-initialise, and refresh the token only when the
        recorded method is OAuth2 (a refresh failure is thrown, with no ADC
        fallback). */
    method EnsureClients(env: Environment) returns (r: Result<Clients>)
      requires Valid()
      modifies this
      ensures Valid()
      ensures old(IsInitialized()) ==> unchanged(this)
      ensures old(IsInitialized()) && old(authMethod) == OAuth2 && env.tokenCheck.Threw? ==>
        r == Err(env.tokenCheck.message)
      ensures old(IsInitialized()) && (old(authMethod) == Adc || env.tokenCheck.Succeeded?) ==>
        r == Ok(Clients(old(dataClient).value, old(adminClient).value, old(adminAlphaClient).value))
      ensures !old(IsInitialized()) && Authenticate(env).None? ==>
        r == Err(AllMethodsFailed) && unchanged(this)
      ensures !old(IsInitialized()) && Authenticate(env).Some? ==>
        r == Ok(Clients(DataClientOver(Authenticate(env).value.1), AdminClientOver(Authenticate(env).value.1),
                        AdminAlphaClientOver(Authenticate(env).value.1)))
        && authMethod == Authenticate(env).value.0
        && currentAuthClient == Some(Authenticate(env).value.1)
        && IsInitialized()
    {
      if !(dataClient.Some? && adminClient.Some? && adminAlphaClient.Some?) {
        var status := Initialize(env);
        if status.Threw? {
          return Err(status.message);
        }
      } else if authMethod == OAuth2 {
        if env.tokenCheck.Threw? {
          return Err(env.tokenCheck.message);
        }
      }
      r := ClientsOf();
    }

    /** __resetForTesting: the clients and the authenticated client are
        dropped; the recorded method is kept. */
    method ResetForTesting()
      requires Valid()
      modifies this
      ensures Valid() && !IsInitialized()
      ensures currentAuthClient.None?
      ensures authMethod == old(authMethod)
    {
      dataClient := None;
      adminClient := None;
      adminAlphaClient := None;
      currentAuthClient := None;
    }

    /** getAuthenticatedHttpClient: initialise when needed, then hand out
        the authenticated client; with the clients in place it is always
        there, so the call fails only when initialisation does. */
    method GetAuthenticatedHttpClient(env: Environment) returns (r: Result<AuthClient>)
      requires Valid()
      modifies this
      ensures Valid()
      ensures old(IsInitialized()) ==> unchanged(this) && r == Ok(old(currentAuthClient).value)
      ensures !old(IsInitialized()) ==> (r.Ok? <==> Authenticate(env).Some?)
      ensures !old(IsInitialized()) && Authenticate(env).Some? ==>
        r == Ok(Authenticate(env).value.1)
        && authMethod == Authenticate(env).value.0
        && currentAuthClient == Some(Authenticate(env).value.1)
        && IsInitialized()
      ensures !old(IsInitialized()) && Authenticate(env).None? ==> r == Err(AllMethodsFailed) && unchanged(this)
    {
      if !(dataClient.Some? && adminClient.Some? && adminAlphaClient.Some?) {
        var status := Initialize(env);
        if status.Threw? {
          return Err(status.message);
        }
      }
      r := AuthClientOf();
    }
  }

  /** What a tool handler sees of ensureAnalyticsClients: ready, or the
      message of what it threw. */
  function ReadinessOf(r: Result<Clients>): (ready: Readiness)
    ensures ready.Ready? <==> r.Ok?
    ensures r.Err? ==> ready.message == r.message
  {
    if r.Ok? then Ready else NotReady(r.message)
  }

  // ---------------------------------------------------------------------
  // Properties of the choice of method

  /** Without both environment variables OAuth2 is never used: the outcome
      is ADC's. */
  lemma OAuthNeedsBothVariables(env: Environment)
    requires !OAuthConfigured(env)
    ensures Authenticate(env).Some? <==> env.adcClient.Ok?
    ensures Authenticate(env).Some? ==> Authenticate(env).value == (Adc, env.adcClient.value)
  {
  }

  /** A failed OAuth2 attempt does not abort initialisation: ADC is tried
      next and decides the outcome. */
  lemma OAuthFailureFallsBack(env: Environment)
    requires OAuthConfigured(env)
    requires env.tokenCheck.Threw? || env.oauthClient.Err?
    ensures Authenticate(env) == if env.adcClient.Ok? then Some((Adc, env.adcClient.value)) else None
  {
  }

  /** Initialisation throws exactly when both methods fail. */
  lemma AllMethodsFailOnlyTogether(env: Environment)
    ensures Authenticate(env).None? <==>
      env.adcClient.Err? && !(OAuthConfigured(env) && env.tokenCheck.Succeeded? && env.oauthClient.Ok?)
  {
  }
}
