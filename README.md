# bosh_exporter: authentication, filter flags and HTTP gating

A Dafny model of the decision logic in `bosh_exporter.go`, the entry point of a
Prometheus exporter for a BOSH director:

- **Authenticating to the director** (`buildBOSHClient`). The exporter asks the
  director, without credentials, which authentication it uses. A director whose
  auth type is not `"uaa"` gets the static username and password as client and
  client secret. A UAA director must advertise its UAA URL as a string in the
  `url` auth option. The UAA configuration gets the same CA certificate as the
  director configuration. With both a UAA client id and client secret
  configured, the exporter uses the OAuth 2.0 client credentials grant (section
  4.4 of RFC 6749). Otherwise it uses the resource owner password credentials
  grant (section 4.3 of RFC 6749) as the public client `bosh_cli`, answering the
  `username` and `password` prompts with the static credentials, and it renews
  from the refresh token. `BoshClient.SelectPlan` states this decision as a pure
  function. `BoshClient.ConfigureAuth` and `BoshClient.BuildBoshClient` fill in
  the director configuration step by step, as the Go code does, with an early
  return on each error. Both are proved against the plan.
- **Filter flags** (`main`). The deployments, AZs and collectors flags are
  comma-separated. An empty flag gives no filter entries. Any other flag gives
  Go's `strings.Split(flag, ",")`, and empty fields are kept. The
  service-discovery processes flag is one regular expression and is never split.
  `Strings.Split` and `Strings.Join` are proved inverse to each other.
- **HTTP gating**. The basic-auth check of `basicAuthHandler.ServeHTTP`. The
  rule that `prometheusHandler` wraps the metrics handler only when both a web
  username and a web password are configured. The choice between TLS and
  plaintext listening.

Library calls (the BOSH director and UAA clients, the logger, reading the CA
certificate file) are not modelled. What they return is an input: the
`BoshClient.Library` record. A call whose outcome depends on its arguments is a
function field, so the model can say which arguments each call receives.

Modules: `Wrappers` (Option, Result), `Strings`, `Flags`, `BoshClient`, `Web`.

## Model

| member | source | states |
|---|---|---|
| `Strings.Split` | bosh_exporter.go:277 | `strings.Split` on a one-character separator gives one more field than the string has separators, and no field holds the separator |
| `Strings.JoinSplit` | bosh_exporter.go:275-291 | joining the fields of a flag with the separator gives the flag back exactly |
| `Strings.SplitJoin` | bosh_exporter.go:275-291 | splitting the join of a non-empty list of separator-free parts gives that list back |
| `Strings.SplitKeepsEmptyFields` | bosh_exporter.go:277 | empty fields are kept: `"a,,b"` gives `["a","","b"]`, `","` gives two empty fields, `""` gives one |
| `Flags.FilterList` | bosh_exporter.go:275-291 | the list is empty iff the flag is empty; no entry holds a comma; joining the entries with commas gives the flag; a non-empty flag gives one entry more than it has commas |
| `Flags.FilterListInjective` | bosh_exporter.go:275-291 | different flags never give the same filter list |
| `Flags.ProcessPatterns` | bosh_exporter.go:298-301 | at most one pattern; none iff the flag is empty; the pattern is the whole flag |
| `Flags.ProcessPatternsNotSplit` | bosh_exporter.go:298-301 | a regular expression holding a comma stays one pattern, where a list flag with the same text gives at least two entries |
| `Flags.FiltersFromFlags` | bosh_exporter.go:275-301 | the deployments, AZs and collectors lists are the split lists of their flags and the processes list is the single-pattern list of its flag, so each list flag is recovered by joining its list and the processes list has at most one pattern, none iff its flag is empty |
| `BoshClient.UaaUrl` | bosh_exporter.go:195-199 | succeeds iff the `url` option is present and a string, giving that string; otherwise the error carries the value found, or none when Go would see nil (the option missing or JSON null) |
| `BoshClient.SelectPlan` | bosh_exporter.go:191-213 | the plan is Direct iff the auth type is not `"uaa"`; client credentials iff UAA with a string URL and both client halves; password grant iff UAA with a string URL and a missing half; the only failure is the URL error. The four lemmas below state the plan's contents case by case |
| `BoshClient.DirectWhenNotUaa` | bosh_exporter.go:191-193 | any auth type other than `"uaa"` gives Direct with the static username and password, whatever UAA client and CA certificate are configured |
| `BoshClient.UaaUrlDecides` | bosh_exporter.go:195-206 | in UAA mode the decision fails iff `url` is missing or not a string, with that error; otherwise the plan uses that URL and the director's CA certificate |
| `BoshClient.ClientCredentialsWhenConfigured` | bosh_exporter.go:208-210 | with both UAA client id and secret set, the plan is the client credentials grant with exactly those, and the static username and password do not affect it |
| `BoshClient.PasswordGrantOtherwise` | bosh_exporter.go:208-213 | with either UAA half empty, the plan is the password grant for `bosh_cli`, with exactly two answers, `username` then `password`, carrying the static credentials; the configured half is ignored |
| `BoshClient.AuthOutcome` | bosh_exporter.go:191-241 | carrying out the plan never changes the director URL or CA certificate; outside UAA mode it always succeeds; a URL error arises exactly in UAA mode with a bad `url` option, carrying what Go sees there. `ConfigureAuth` is proved equal to it, and `BuildBoshClient`'s contract uses it for the authentication step; the four lemmas after `ConfigureAuth` state its contents per plan |
| `BoshClient.ConfigureAuth` | bosh_exporter.go:191-241 | filling in the director configuration field by field gives exactly the outcome of carrying out the decided plan, with each UAA library error returned unchanged |
| `BoshClient.AuthOutcomeShape` | bosh_exporter.go:179-241 | the director URL and CA certificate never change; non-UAA sets the static client and secret and changes nothing else; UAA sets a token source whose UAA configuration has the director's CA certificate and the advertised URL |
| `BoshClient.DirectCallsNoUaa` | bosh_exporter.go:191-193 | outside UAA mode the outcome does not depend on any UAA library call, and it always succeeds |
| `BoshClient.ClientCredentialsNeverUsesPassword` | bosh_exporter.go:208-222 | with a full UAA client, the outcome does not depend on the password grant or on the static credentials, and the token source is a client-token session for exactly that client |
| `BoshClient.PasswordGrantAnswers` | bosh_exporter.go:211-240 | without a full UAA client, success means the password grant succeeded for `bosh_cli` with no secret and the two answers, and the session holds that grant's refresh token |
| `BoshClient.BuildBoshClient` | bosh_exporter.go:162-251 | library errors come back unchanged, in call order; otherwise the result is the authenticated configuration from the plan, which the final client creation accepted; on success the director configuration holds the CA certificate read from the file, and so does any UAA configuration in its token source |
| `Web.ServeBasicAuth` | bosh_exporter.go:116-126 | a request is served iff it carries basic-auth credentials equal to the configured ones; otherwise it gets 401 with the `Basic realm="metrics"` challenge, and the inner handler is not invoked |
| `Web.PrometheusHandler` | bosh_exporter.go:128-140 | the basic-auth wrapper is installed iff both username and password are non-empty, and then with exactly those |
| `Web.MetricsGate` | bosh_exporter.go:116-140 | without both web credentials every request is served; with both, exactly the request carrying them is served, so none with empty credentials gets through |
| `Web.SelectListener` | bosh_exporter.go:332-338 | TLS iff both certificate and key files are given, using exactly those; the listen address is kept either way |

## Left out

- Flag and environment parsing with kingpin (bosh_exporter.go:24-104, 254-257): the flag values are plain string inputs.
- The BOSH director and UAA client libraries (`director.NewFactory`, `Info`, `uaa.NewFactory`, `NewConfigFromURL`, `OwnerPasswordCredentialsGrant`, the token sessions): they are not part of this model. Their results are inputs in `BoshClient.Library`, and the token sessions are only recorded as which session was built.
- Token renewal and its concurrency: these live inside the UAA library.
- `readCACert` path expansion and file reading (bosh_exporter.go:142-160): the file's contents or error are an input. Only the empty-path rule is modelled.
- `BoshClient.UaaUrlNotString`: the Go error text ("Expected UAA URL '%s' to be a string", formatted with Go's `%s` verb) is kept as the value that was found, not as text.
- `BoshClient.Value`: JSON numbers are modelled as integers and objects are not a case. Only whether the value is a string matters.
- Logging, the `init` registration of the version collector, Prometheus registration, the informational HTML page, the HTTP server itself and `os.Exit` (bosh_exporter.go:106-108, 259-273, 308-331, and the `ListenAndServeTLS`/`ListenAndServe` calls at 334 and 337): these are I/O and process plumbing.
- The filters, deployments and collectors packages (imported at bosh_exporter.go:19-21) are not part of this model. Filter matching, regular-expression compilation, the collector names, metric derivation and the service-discovery file therefore stay out.
- `Web.ServeBasicAuth`: parsing the `Authorization` header and logging the refused client's address are not modelled. The request is given as `Request.BasicAuth()`'s decoded result.

The default UAA client is the fixed string `bosh_cli`. A non-string `url` option
and every library failure are returned to the caller as errors. There are no
separate configuration and authentication error kinds.
