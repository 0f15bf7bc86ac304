/** The exporter's HTTP gating: the basic-auth wrapper around the metrics
    handler, when that wrapper is installed, and whether the listener serves
    TLS. Only the credential comparison is modelled; the `Authorization` header
    is taken as already decoded (section 2 of RFC 7617). */
module Web {

  /** What `Request.BasicAuth()` yields: no usable basic-auth header, or the
      decoded user-id and password. */
  datatype RequestAuth = NoBasicAuth | BasicAuth(username: string, password: string)

  datatype Response =
    /** The request was passed to the Prometheus metrics handler. */
    | Served
    /** The request was refused; the inner handler was not invoked. */
    | Refused(status: int, wwwAuthenticate: string, body: string)

  const StatusUnauthorized := 401
  const Challenge := "Basic realm=\"metrics\""
  /** `http.Error` writes the message followed by a newline. */
  const RefusalBody := "Invalid username or password\n"

  /** The handler registered at the metrics path. */
  datatype Handler =
    | Metrics
    | BasicAuthHandler(username: string, password: string)

  /** `basicAuthHandler.ServeHTTP`: a request is passed on only with basic-auth
      credentials equal to the configured ones. */
  function ServeBasicAuth(username: string, password: string, req: RequestAuth): (resp: Response)
    ensures resp.Served? <==> req == BasicAuth(username, password)
    ensures resp.Refused? ==>
      resp == Refused(StatusUnauthorized, Challenge, RefusalBody)
  {
    if !req.BasicAuth? || req.username != username || req.password != password then
      Refused(StatusUnauthorized, Challenge, RefusalBody)
    else
      Served
  }

  /** `prometheusHandler`: the basic-auth wrapper is installed only when both a
      username and a password are configured, and then with exactly those. */
  function PrometheusHandler(authUsername: string, authPassword: string): (h: Handler)
    ensures h.BasicAuthHandler? <==> authUsername != "" && authPassword != ""
    ensures h.BasicAuthHandler? ==> h.username == authUsername && h.password == authPassword
  {
    if authUsername != "" && authPassword != "" then BasicAuthHandler(authUsername, authPassword)
    else Metrics
  }

  /** A request at the metrics path, through the installed handler. */
  function Serve(h: Handler, req: RequestAuth): Response
  {
    match h
    case Metrics => Served
    case BasicAuthHandler(username, password) => ServeBasicAuth(username, password, req)
  }

  /** Without both halves of the web credentials, every request reaches the
      metrics; with both, exactly the request carrying them does, so a request
      with no credentials or an empty user-id or password never gets through. */
  lemma MetricsGate(authUsername: string, authPassword: string, req: RequestAuth)
    ensures var resp := Serve(PrometheusHandler(authUsername, authPassword), req);
      && (authUsername == "" || authPassword == "" ==> resp == Served)
      && (authUsername != "" && authPassword != "" ==>
            (resp == Served <==> req == BasicAuth(authUsername, authPassword)))
      && (authUsername != "" && authPassword != "" && resp == Served ==>
            req.BasicAuth? && req.username != "" && req.password != "")
  {
  }

  /** How the exporter listens. */
  datatype Listener =
    | ListenTLS(address: string, certFile: string, keyFile: string)
    | ListenPlain(address: string)

  /** TLS is served only when both a certificate file and a key file are given. */
  function SelectListener(address: string, certFile: string, keyFile: string): (l: Listener)
    ensures l.address == address
    ensures l.ListenTLS? <==> certFile != "" && keyFile != ""
    ensures l.ListenTLS? ==> l.certFile == certFile && l.keyFile == keyFile
  {
    if certFile != "" && keyFile != "" then ListenTLS(address, certFile, keyFile)
    else ListenPlain(address)
  }
}
