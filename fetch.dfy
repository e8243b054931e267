/** The fetch pipeline of the http resource (modelV0.read in
    internal/provider/http/shared.go): it maps the configuration onto a
    retrying client, builds the request, sends it once through the client
    and, only when nothing went wrong, writes the response into the
    model's computed attributes. */
module Fetch {
  import opened Wrappers
  import opened Bytes
  import opened Framework
  import opened NetHttp
  import Strings
  import Base64
  import Utf8

  /** The retry block: attempts, min_delay_ms and max_delay_ms. */
  datatype RetryModel = RetryModel(attempts: Value<int>, minDelay: Value<int>, maxDelay: Value<int>)

  /** Every attribute of the http resource (modelV0 and keepers). The
      response body is kept as the bytes that the Go string holds. */
  datatype HttpState = HttpState(
    id: Value<string>,
    url: Value<string>,
    httpMethod: Value<string>,
    requestHeaders: Value<map<string, Value<string>>>,
    requestBody: Value<string>,
    requestTimeout: Value<int>,
    retry: Value<RetryModel>,
    responseHeaders: Value<map<string, string>>,
    caCertificate: Value<string>,
    clientCert: Value<string>,
    clientKey: Value<string>,
    insecure: Value<bool>,
    responseBody: Value<seq<byte>>,
    body: Value<seq<byte>>,
    responseBodyBase64: Value<string>,
    statusCode: Value<int>,
    successStatusCodes: Value<seq<int>>,
    keepers: Value<map<string, string>>)

  /** The part of the cloned transport's TLS configuration that read sets. */
  datatype TlsConfig = TlsConfig(insecureSkipVerify: bool, rootCAs: Option<string>, certificate: Option<(string, string)>)

  /** The retrying client as read leaves it: TLS settings, the overall
      timeout, RetryMax, the wait bounds (None keeps the library default)
      and the success list handed to the custom retry policy. */
  datatype ClientConfig = ClientConfig(
    tls: TlsConfig,
    timeoutMs: Option<int>,
    retryMax: int,
    waitMinMs: Option<int>,
    waitMaxMs: Option<int>,
    successCodes: seq<int>)

  /** What is handed to the client's Do: the client and the request. */
  datatype Exchange = Exchange(config: ClientConfig, request: Request)

  /** The outcome of Do: an error (and whether it is a url.Error whose
      Timeout method reports true), or the final response. */
  datatype DoResult = DoFailed(err: Error, timeout: bool) | DoSucceeded(response: Response)

  /** The calls read makes into code outside the model, as their outcomes. */
  datatype Env = Env(
    defaultTransportOk: bool,                                 // http.DefaultTransport is an *http.Transport
    appendCertsFromPem: string -> bool,                       // CertPool.AppendCertsFromPEM
    x509KeyPair: (string, string) -> Option<Error>,           // tls.X509KeyPair
    retryAs: seq<Diagnostic>,                                 // Retry.As
    codesAs: seq<Diagnostic>,                                 // SuccessStatusCodes.ElementsAs
    newRequest: (string, string) -> Result<string, Error>,    // NewRequestWithContext, giving the URL's host
    setBody: string -> Option<Error>,                         // Request.SetBody
    headerAs: Value<string> -> seq<Diagnostic>,               // tfsdk.ValueAs on one header element
    canonicalKey: string -> string,                           // the key Header.Set stores under
    execute: Exchange -> DoResult,                            // Client.Do, with all its tries
    durationString: int -> string,                            // time.Duration.String of a millisecond count
    mapValueFrom: seq<Diagnostic>)                            // types.MapValueFrom

  /** An empty or absent method means GET. */
  function RequestMethod(s: HttpState): string
  {
    if s.httpMethod.ValueOr("") == "" then "GET" else s.httpMethod.ValueOr("")
  }

  /** The retry block as read decodes it: the zero retryModel, all null,
      when the block is null or unknown. */
  function RetryBlock(s: HttpState): RetryModel
  {
    if s.retry.Known? then s.retry.v else RetryModel(Null, Null, Null)
  }

  /** A wait bound is set only from a known, non-negative value. */
  function WaitBound(d: Value<int>): Option<int>
  {
    if d.Known? && d.v >= 0 then Some(d.v) else None
  }

  /** The client settings read derives from the configuration. */
  function Settings(s: HttpState, tls: TlsConfig): (c: ClientConfig)
    ensures c.tls == tls
    ensures c.timeoutMs.Some? <==> s.requestTimeout.Known? && s.requestTimeout.v > 0
    ensures c.timeoutMs.Some? ==> c.timeoutMs.value == s.requestTimeout.v
    ensures !s.retry.Known? ==> c.retryMax == 0 && c.waitMinMs.None? && c.waitMaxMs.None?
    ensures s.retry.Known? && s.retry.v.attempts.Known? ==> c.retryMax == s.retry.v.attempts.v
    ensures s.retry.Known? && !s.retry.v.attempts.Known? ==> c.retryMax == 0
    ensures c.waitMinMs.Some? <==> s.retry.Known? && s.retry.v.minDelay.Known? && s.retry.v.minDelay.v >= 0
    ensures c.waitMaxMs.Some? <==> s.retry.Known? && s.retry.v.maxDelay.Known? && s.retry.v.maxDelay.v >= 0
    ensures c.waitMinMs.Some? ==> c.waitMinMs.value == s.retry.v.minDelay.v
    ensures c.waitMaxMs.Some? ==> c.waitMaxMs.value == s.retry.v.maxDelay.v
    ensures c.successCodes == (if s.successStatusCodes.Known? then s.successStatusCodes.v else [])
  {
    ClientConfig(
      tls,
      if s.requestTimeout.ValueOr(0) > 0 then Some(s.requestTimeout.ValueOr(0)) else None,
      RetryBlock(s).attempts.ValueOr(0),
      WaitBound(RetryBlock(s).minDelay),
      WaitBound(RetryBlock(s).maxDelay),
      if s.successStatusCodes.Known? then s.successStatusCodes.v else [])
  }

  /** Why read stops, or what it warns about; Report gives the diagnostic. */
  datatype Problem =
    | TransportUnavailable            // http.DefaultTransport is not an *http.Transport
    | CaRejected                      // ca_cert_pem holds no PEM certificate
    | KeyPairRejected(err: Error)     // tls.X509KeyPair failed
    | RequestNotCreated(err: Error)   // NewRequestWithContext failed
    | BodyNotSet(err: Error)          // SetBody failed
    | DeadlineExceeded(err: Error, timeout: string)  // a timeout, with request_timeout_ms in force
    | TimedOut(err: Error)            // a timeout without one
    | RequestFailed(err: Error)       // any other error from Do
    | BodyUnreadable(err: Error)      // reading the response body failed
    | NotUtf8                         // the response body is not UTF-8

  /** A body that is not UTF-8 is only a warning; every other problem is an error. */
  function ProblemSeverity(p: Problem): Severity
  {
    if p.NotUtf8? then SeverityWarning else SeverityError
  }

  /** The summary and detail read reports for a problem. */
  function Summary(p: Problem): string
  {
    match p
    case TransportUnavailable => "Error configuring http transport"
    case CaRejected => "Error configuring TLS client"
    case KeyPairRejected(_) => "error creating x509 key pair"
    case RequestNotCreated(_) => "Error creating request"
    case BodyNotSet(_) => "Error Setting Request Body"
    case DeadlineExceeded(_, _) => "Error making request"
    case TimedOut(_) => "Error making request"
    case RequestFailed(_) => "Error making request"
    case BodyUnreadable(_) => "Error reading response body"
    case NotUtf8 => "Response body is not recognized as UTF-8"
  }

  function Detail(p: Problem): string
  {
    match p
    case TransportUnavailable => "Error http: Can't configure http transport."
    case CaRejected =>
      "Error tls: Can't add the CA certificate to certificate pool. Only PEM encoded certificates are supported."
    case KeyPairRejected(err) => "error creating x509 key pair from provided pem blocks\n\nError: " + err.message
    case RequestNotCreated(err) => "Error creating request: " + err.message
    case BodyNotSet(err) => "An unexpected error occurred while setting the request body: " + err.message
    case DeadlineExceeded(err, timeout) => "request exceeded the specified timeout: " + timeout + ", err: " + err.message
    case TimedOut(err) => "timeout error: " + err.message
    case RequestFailed(err) => "Error making request: " + err.message
    case BodyUnreadable(err) => "Error reading response body: " + err.message
    case NotUtf8 => "Terraform may not properly handle the response_body if the contents are binary."
  }

  /** The diagnostic read reports for a problem. */
  function Report(p: Problem): Diagnostic
  {
    Diagnostic(ProblemSeverity(p), Summary(p), Detail(p))
  }

  /** The TLS part of the transport, or the problem that stops read. */
  function Transport(s: HttpState, env: Env): Result<TlsConfig, Problem>
  {
    if !env.defaultTransportOk then
      Failure(TransportUnavailable)
    else if !s.caCertificate.Null? && !env.appendCertsFromPem(s.caCertificate.ValueOr("")) then
      Failure(CaRejected)
    else if !s.clientCert.Null? && !s.clientKey.Null?
         && env.x509KeyPair(s.clientCert.ValueOr(""), s.clientKey.ValueOr("")).Some? then
      Failure(KeyPairRejected(env.x509KeyPair(s.clientCert.ValueOr(""), s.clientKey.ValueOr("")).value))
    else
      Success(TlsConfig(
        s.insecure.ValueOr(false),
        if !s.caCertificate.Null? then Some(s.caCertificate.ValueOr("")) else None,
        if !s.clientCert.Null? && !s.clientKey.Null? then Some((s.clientCert.ValueOr(""), s.clientKey.ValueOr(""))) else None))
  }

  /** The TLS set-up fails only when the default transport is unusable,
      the CA certificate is rejected or the key pair is; when it
      succeeds, certificate verification is skipped exactly when insecure
      is true, the CA pool is replaced exactly when ca_cert_pem is not
      null, and a client certificate is presented exactly when both PEM
      blocks are given. */
  lemma TransportOutcome(s: HttpState, env: Env)
    ensures var r := Transport(s, env);
      && (r.Failure? <==>
            !env.defaultTransportOk
            || (!s.caCertificate.Null? && !env.appendCertsFromPem(s.caCertificate.ValueOr("")))
            || (!s.clientCert.Null? && !s.clientKey.Null?
                && env.x509KeyPair(s.clientCert.ValueOr(""), s.clientKey.ValueOr("")).Some?))
      && (r.Failure? ==> r.error.TransportUnavailable? || r.error.CaRejected? || r.error.KeyPairRejected?)
      && (!env.defaultTransportOk ==> r == Failure(TransportUnavailable))
      && (r.Success? ==> r.value.insecureSkipVerify == (s.insecure.Known? && s.insecure.v))
      && (r.Success? ==> (r.value.rootCAs.Some? <==> !s.caCertificate.Null?))
      && (r.Success? ==> (r.value.certificate.Some? <==> !s.clientCert.Null? && !s.clientKey.Null?))
  {
  }

  /** The request header elements; a null or unknown map has none. */
  function HeaderElements(s: HttpState): map<string, Value<string>>
  {
    if s.requestHeaders.Known? then s.requestHeaders.v else map[]
  }

  /** The request body: present whenever request_body is not null. */
  function RequestBody(s: HttpState): Option<string>
  {
    if s.requestBody.Null? then None else Some(s.requestBody.ValueOr(""))
  }

  /** The retry block's conversion stops read: it reported an error, or an
      earlier diagnostic is an error and the block is converted at all. */
  predicate RetryRejected(s: HttpState, env: Env, d: seq<Diagnostic>)
  {
    s.retry.Known? && HasError(d + env.retryAs)
  }

  /** The diagnostics once the retry block and the success list are converted. */
  function Prepared(s: HttpState, env: Env, d: seq<Diagnostic>): seq<Diagnostic>
  {
    d + (if s.retry.Known? then env.retryAs else []) + (if s.successStatusCodes.Known? then env.codesAs else [])
  }

  /** Which configured name each canonical key took its value from, and
      which host-like name, if any, set Host. */
  datatype HeaderWitness = HeaderWitness(from: map<string, string>, hostFrom: Option<string>)

  /** The request header and Host once the names in visited are set: every
      visited name is set under its canonical key, each key holds the value
      of a visited name of that key, and Host is the value of a visited
      name that lower-cases to "host", or the URL's host when there is none. */
  predicate HeadersFrom(elems: map<string, Value<string>>, visited: set<string>, canon: string -> string,
                        host0: string, header: map<string, string>, host: string, w: HeaderWitness)
  {
    && KeysFrom(elems, visited, canon, header, w.from)
    && HostFrom(elems, visited, host0, host, w.hostFrom)
    && HostTied(canon, w)
  }

  /** The name that set Host was visited after every other host-like name,
      so the last name set under its canonical key is either that name or
      one that is not host-like. */
  predicate HostTied(canon: string -> string, w: HeaderWitness)
  {
    w.hostFrom.Some? ==>
      && canon(w.hostFrom.value) in w.from
      && (Strings.IsHost(w.from[canon(w.hostFrom.value)]) ==> w.from[canon(w.hostFrom.value)] == w.hostFrom.value)
  }

  /** The header part: from names, for each key set, the visited name it came from. */
  predicate KeysFrom(elems: map<string, Value<string>>, visited: set<string>, canon: string -> string,
                     header: map<string, string>, from: map<string, string>)
  {
    && (forall k :: k in header ==> k in from)
    && (forall n :: n in visited ==> canon(n) in header)
    && (forall k :: k in from ==> k in header && from[k] in visited && from[k] in elems
                                  && canon(from[k]) == k && header[k] == elems[from[k]].ValueOr(""))
  }

  /** The Host part: hostFrom names the visited host-like name that set it, if any. */
  predicate HostFrom(elems: map<string, Value<string>>, visited: set<string>, host0: string, host: string,
                     hostFrom: Option<string>)
  {
    match hostFrom
    case None => host == host0 && forall n :: n in visited ==> !Strings.IsHost(n)
    case Some(h) => h in visited && h in elems && Strings.IsHost(h) && host == elems[h].ValueOr("")
  }

  /** The header loop's outcome, whatever order the Go map is visited in. */
  ghost predicate HeadersApplied(elems: map<string, Value<string>>, canon: string -> string, host0: string,
                                 header: map<string, string>, host: string)
  {
    exists w :: HeadersFrom(elems, elems.Keys, canon, host0, header, host, w)
  }

  /** When no two names share a canonical key, each is set to its own value. */
  lemma HeadersExact(elems: map<string, Value<string>>, canon: string -> string, host0: string,
                     header: map<string, string>, host: string, n: string)
    requires HeadersApplied(elems, canon, host0, header, host)
    requires forall a, b :: a in elems && b in elems && canon(a) == canon(b) ==> a == b
    requires n in elems
    ensures canon(n) in header && header[canon(n)] == elems[n].ValueOr("")
  {
    var w :| HeadersFrom(elems, elems.Keys, canon, host0, header, host, w);
    assert w.from[canon(n)] in elems && canon(w.from[canon(n)]) == canon(n);
  }

  /** Every key set is the canonical form of a configured name. */
  lemma HeadersOnlyConfigured(elems: map<string, Value<string>>, canon: string -> string, host0: string,
                              header: map<string, string>, host: string, k: string)
    requires HeadersApplied(elems, canon, host0, header, host)
    requires k in header
    ensures exists n :: n in elems && canon(n) == k && header[k] == elems[n].ValueOr("")
  {
    var w :| HeadersFrom(elems, elems.Keys, canon, host0, header, host, w);
    assert w.from[k] in elems;
  }

  /** With one host-like name, Host is its value. */
  lemma HostOverride(elems: map<string, Value<string>>, canon: string -> string, host0: string,
                     header: map<string, string>, host: string, h: string)
    requires HeadersApplied(elems, canon, host0, header, host)
    requires h in elems && Strings.IsHost(h)
    requires forall n :: n in elems && Strings.IsHost(n) ==> n == h
    ensures host == elems[h].ValueOr("")
  {
    var w :| HeadersFrom(elems, elems.Keys, canon, host0, header, host, w);
  }

  /** Host is the value of some host-like name, or the URL's host when none is. */
  lemma HostFromSomeName(elems: map<string, Value<string>>, canon: string -> string, host0: string,
                         header: map<string, string>, host: string)
    requires HeadersApplied(elems, canon, host0, header, host)
    ensures (forall n :: n in elems ==> !Strings.IsHost(n)) ==> host == host0
    ensures (exists n :: n in elems && Strings.IsHost(n)) ==>
              exists n :: n in elems && Strings.IsHost(n) && host == elems[n].ValueOr("")
  {
    var w :| HeadersFrom(elems, elems.Keys, canon, host0, header, host, w);
    if w.hostFrom.Some? {
      var h := w.hostFrom.value;
      assert h in elems && Strings.IsHost(h) && host == elems[h].ValueOr("");
    }
  }

  /** When every name sharing the host name's canonical key is host-like,
      the header under that key and Host hold the same value: both come
      from the host-like name visited last. */
  lemma HostMatchesHeader(elems: map<string, Value<string>>, canon: string -> string, host0: string,
                          header: map<string, string>, host: string, h: string)
    requires HeadersApplied(elems, canon, host0, header, host)
    requires h in elems && Strings.IsHost(h)
    requires forall n :: n in elems && Strings.IsHost(n) ==> canon(n) == canon(h)
    requires forall n :: n in elems && canon(n) == canon(h) ==> Strings.IsHost(n)
    ensures canon(h) in header && header[canon(h)] == host
  {
    var w :| HeadersFrom(elems, elems.Keys, canon, host0, header, host, w);
    assert w.hostFrom.Some?;
    var last := w.hostFrom.value;
    assert canon(last) == canon(h);
    assert w.from[canon(h)] in elems && canon(w.from[canon(h)]) == canon(h);
  }

  /** Setting one more header keeps the loop's relation. */
  lemma HeadersStep(elems: map<string, Value<string>>, visited: set<string>, canon: string -> string, host0: string,
                    header: map<string, string>, host: string, w: HeaderWitness, name: string)
    requires name in elems
    requires HeadersFrom(elems, visited, canon, host0, header, host, w)
    ensures HeadersFrom(elems, visited + {name}, canon, host0, header[canon(name) := elems[name].ValueOr("")],
                        if Strings.IsHost(name) then elems[name].ValueOr("") else host, Visit(w, canon, name))
  {
    KeysStep(elems, visited, canon, header, w.from, name);
    HostStep(elems, visited, host0, host, w.hostFrom, name);
    var w' := Visit(w, canon, name);
    if w'.hostFrom.Some? && !Strings.IsHost(name) && canon(name) != canon(w.hostFrom.value) {
      assert w'.from[canon(w.hostFrom.value)] == w.from[canon(w.hostFrom.value)];
    }
  }

  lemma KeysStep(elems: map<string, Value<string>>, visited: set<string>, canon: string -> string,
                 header: map<string, string>, from: map<string, string>, name: string)
    requires name in elems
    requires KeysFrom(elems, visited, canon, header, from)
    ensures KeysFrom(elems, visited + {name}, canon, header[canon(name) := elems[name].ValueOr("")],
                     from[canon(name) := name])
  {
    var from' := from[canon(name) := name];
    forall k | k in from' && k != canon(name)
      ensures from'[k] == from[k]
    {
    }
  }

  lemma HostStep(elems: map<string, Value<string>>, visited: set<string>, host0: string, host: string,
                 hostFrom: Option<string>, name: string)
    requires name in elems
    requires HostFrom(elems, visited, host0, host, hostFrom)
    ensures HostFrom(elems, visited + {name}, host0, if Strings.IsHost(name) then elems[name].ValueOr("") else host,
                     if Strings.IsHost(name) then Some(name) else hostFrom)
  {
  }

  /** The witness after visiting name. */
  function Visit(w: HeaderWitness, canon: string -> string, name: string): HeaderWitness
  {
    HeaderWitness(w.from[canon(name) := name], if Strings.IsHost(name) then Some(name) else w.hostFrom)
  }

  /** Appending more diagnostics adds an error exactly when they hold one. */
  lemma ErrorsAdded(prior: seq<Diagnostic>, added: seq<Diagnostic>, ds: seq<Diagnostic>)
    ensures HasError(prior + (added + ds)) <==> HasError(prior + added) || HasError(ds)
  {
    assert prior + (added + ds) == prior + added + ds;
    HasErrorConcat(prior + added, ds);
  }

  /** The header loop's invariant once the names in visited are set: the
      header relation, and no error so far once any element is decoded,
      neither among the earlier diagnostics nor from any visited element. */
  predicate HeaderLoop(elems: map<string, Value<string>>, env: Env, host0: string, prior: seq<Diagnostic>,
                       visited: set<string>, added: seq<Diagnostic>, header: map<string, string>, host: string,
                       w: HeaderWitness)
  {
    && HeadersFrom(elems, visited, env.canonicalKey, host0, header, host, w)
    && (visited != {} ==> !HasError(prior + added) && !HasError(prior))
    && (visited == {} ==> added == [])
    && (forall n :: n in visited && n in elems ==> !HasError(env.headerAs(elems[n])))
  }

  /** The header loop runs through: there are no elements, or no error so
      far and none from decoding any element. */
  predicate HeadersClean(elems: map<string, Value<string>>, env: Env, prior: seq<Diagnostic>)
  {
    |elems| > 0 ==> !HasError(prior) && forall n :: n in elems ==> !HasError(env.headerAs(elems[n]))
  }

  /** The visited names grow by the one just taken from the remaining ones. */
  lemma VisitOne(keys: set<string>, remaining: set<string>, name: string)
    requires remaining <= keys
    ensures name in remaining ==> keys - (remaining - {name}) == (keys - remaining) + {name}
    ensures keys - {} == keys && keys - keys == {}
  {
    assert forall x :: x !in keys - keys;
    if name in remaining {
      forall x | x in keys - (remaining - {name})
        ensures x in (keys - remaining) + {name}
      {
      }
    }
  }

  /** One turn of the header loop: decode the element of name, stop on
      any error so far, else set it under its canonical key (and as Host
      when its name is host-like). */
  method ApplyHeader(elems: map<string, Value<string>>, name: string, env: Env, host0: string,
                     prior: seq<Diagnostic>, added: seq<Diagnostic>, header: map<string, string>, host: string,
                     ghost visited: set<string>, ghost w: HeaderWitness)
    returns (stop: bool, added': seq<Diagnostic>, header': map<string, string>, host': string)
    requires name in elems
    requires HeaderLoop(elems, env, host0, prior, visited, added, header, host, w)
    ensures added' == added + env.headerAs(elems[name])
    ensures stop <==> HasError(prior + added')
    ensures stop ==> HasError(prior) || HasError(env.headerAs(elems[name]))
    ensures !stop ==> HeaderLoop(elems, env, host0, prior, visited + {name}, added', header', host',
                                 Visit(w, env.canonicalKey, name))
  {
    ErrorsAdded(prior, added, env.headerAs(elems[name]));
    HasErrorConcat(prior, added);
    added' := added + env.headerAs(elems[name]);
    header', host' := header, host;
    if HasError(prior + added') {
      return true, added', header', host';
    }
    HeadersStep(elems, visited, env.canonicalKey, host0, header, host, w, name);
    var value := elems[name].ValueOr("");
    header' := header[env.canonicalKey(name) := value];
    if Strings.IsHost(name) {
      host' := value;
    }
    stop := false;
  }

  /** The header loop: each element is decoded (stopping at the first
      error among all diagnostics so far, prior ones included), set under
      its canonical key, and a host-like name also sets Host. The map is
      visited in no fixed order. The diagnostics the decoding reports are
      returned, to be appended after prior; from and culprit are the
      witnesses of the header relation and of the element that failed. */
  method ApplyHeaders(elems: map<string, Value<string>>, env: Env, host0: string, prior: seq<Diagnostic>)
    returns (ok: bool, header: map<string, string>, host: string, added: seq<Diagnostic>,
             ghost w: HeaderWitness, ghost culprit: string)
    ensures ok ==> HeadersFrom(elems, elems.Keys, env.canonicalKey, host0, header, host, w)
    ensures ok ==> (HasError(prior + added) <==> HasError(prior))
    ensures !ok ==> HasError(prior + added)
    ensures |elems| == 0 ==> ok && added == []
    ensures !ok ==> HasError(prior) || (culprit in elems && HasError(env.headerAs(elems[culprit])))
    ensures ok <==> HeadersClean(elems, env, prior)
  {
    ok := true;
    header := map[];
    host := host0;
    added := [];
    var remaining := elems.Keys;
    w, culprit := HeaderWitness(map[], None), "";
    while remaining != {}
      invariant remaining <= elems.Keys
      invariant HeaderLoop(elems, env, host0, prior, elems.Keys - remaining, added, header, host, w)
      decreases |remaining|
    {
      var name :| name in remaining;
      var stop;
      stop, added, header, host := ApplyHeader(elems, name, env, host0, prior, added, header, host, elems.Keys - remaining, w);
      if stop {
        ok, culprit := false, name;
        return;
      }
      VisitOne(elems.Keys, remaining, name);
      w := Visit(w, env.canonicalKey, name);
      remaining := remaining - {name};
    }
    VisitOne(elems.Keys, {}, "");
    HasErrorConcat(prior, added);
    if |elems| > 0 {
      assert elems.Keys != {};
    }
    assert HeadersClean(elems, env, prior);
  }

  /** A response header's values joined as section 5.2 of RFC 9110 allows. */
  function JoinedHeaders(h: map<string, seq<string>>): map<string, string>
  {
    map k | k in h :: Strings.Join(h[k], ", ")
  }

  /** A header with a single value passes through unchanged, and one with
      two is joined by a comma and a space. */
  lemma JoinedHeaderValues(h: map<string, seq<string>>, k: string)
    requires k in h
    ensures k in JoinedHeaders(h)
    ensures |h[k]| == 1 ==> JoinedHeaders(h)[k] == h[k][0]
    ensures |h[k]| == 2 ==> JoinedHeaders(h)[k] == h[k][0] + ", " + h[k][1]
    ensures |h[k]| > 0 ==> |JoinedHeaders(h)[k]| == Strings.TotalLength(h[k]) + 2 * (|h[k]| - 1)
  {
    if |h[k]| > 0 {
      Strings.JoinLength(h[k], ", ");
      Strings.JoinSmall(h[k][0], h[k][|h[k]| - 1], ", ");
      if |h[k]| == 2 {
        assert h[k] == [h[k][0], h[k][1]];
      } else if |h[k]| == 1 {
        assert h[k] == [h[k][0]];
      }
    }
  }

  /** The loop over response.Header building the response_headers map. */
  method JoinResponseHeaders(h: map<string, seq<string>>) returns (joined: map<string, string>)
    ensures joined == JoinedHeaders(h)
  {
    joined := map[];
    var remaining := h.Keys;
    while remaining != {}
      invariant remaining <= h.Keys
      invariant joined == JoinedHeaders(h) - remaining
      decreases |remaining|
    {
      var k :| k in remaining;
      ghost var done := JoinedHeaders(h) - remaining;
      joined := joined[k := Strings.Join(h[k], ", ")];
      remaining := remaining - {k};
      assert JoinedHeaders(h) - remaining == done[k := Strings.Join(h[k], ", ")];
    }
    assert JoinedHeaders(h) - remaining == JoinedHeaders(h);
  }

  /** The problem an error from Do is reported as: a timeout names the
      configured timeout when there is one; any other error is reported
      as it is. */
  function RequestProblem(env: Env, config: ClientConfig, err: Error, timeout: bool): Problem
  {
    if timeout && config.timeoutMs.Some? then DeadlineExceeded(err, env.durationString(config.timeoutMs.value))
    else if timeout then TimedOut(err)
    else RequestFailed(err)
  }

  const TimeoutPrefix := "request exceeded the specified timeout: "

  /** The timeout message names the configured duration exactly when the
      error is a timeout and request_timeout_ms is above zero; every error
      from Do is reported under the same summary, as an error. */
  lemma TimeoutClassified(env: Env, s: HttpState, tls: TlsConfig, err: Error, timeout: bool)
    ensures var d := Report(RequestProblem(env, Settings(s, tls), err, timeout));
      && d.severity == SeverityError
      && d.summary == "Error making request"
      && (TimeoutPrefix <= d.detail <==> (timeout && s.requestTimeout.Known? && s.requestTimeout.v > 0))
      && (timeout && s.requestTimeout.Known? && s.requestTimeout.v > 0 ==>
            d.detail == TimeoutPrefix + env.durationString(s.requestTimeout.v) + ", err: " + err.message)
      && (!timeout ==> d.detail == "Error making request: " + err.message)
      && (timeout && !(s.requestTimeout.Known? && s.requestTimeout.v > 0) ==> d.detail == "timeout error: " + err.message)
  {
    var d := Report(RequestProblem(env, Settings(s, tls), err, timeout));
    if !(timeout && s.requestTimeout.Known? && s.requestTimeout.v > 0) {
      if timeout {
        assert d.detail[0] == 't' != TimeoutPrefix[0];
      } else {
        assert d.detail[0] == 'E' != TimeoutPrefix[0];
      }
    }
  }

  /** The attributes as a successful read leaves them: only id and the
      computed response attributes change. */
  function Written(s: HttpState, resp: Response): HttpState
    requires resp.body.Success?
  {
    s.(id := Known(s.url.ValueOr("")),
       responseHeaders := Known(JoinedHeaders(resp.header)),
       responseBody := Known(resp.body.value),
       body := Known(resp.body.value),
       responseBodyBase64 := Known(Base64.Encode(resp.body.value)),
       statusCode := Known(resp.statusCode))
  }

  /** The configuration attributes of a state: what read never changes. */
  function Inputs(s: HttpState): HttpState
  {
    s.(id := Null, responseHeaders := Null, responseBody := Null, body := Null,
       responseBodyBase64 := Null, statusCode := Null)
  }

  /** A written state keeps its configuration, and its two body attributes
      agree with the base64 one: decoding response_body_base64 gives back
      response_body. */
  lemma WrittenOutputs(s: HttpState, resp: Response)
    requires resp.body.Success?
    ensures Inputs(Written(s, resp)) == Inputs(s)
    ensures Written(s, resp).responseBody == Written(s, resp).body
    ensures Base64.Decode(Written(s, resp).responseBodyBase64.v) == Some(Written(s, resp).responseBody.v)
    ensures |Written(s, resp).responseBodyBase64.v| == 4 * ((|resp.body.value| + 2) / 3)
  {
    Base64.DecodeEncode(resp.body.value);
  }

  /** How far read gets before the header loop: stopped with the
      diagnostics so far, or ready with the converted diagnostics, the
      client settings and the request as NewRequestWithContext and SetBody
      leave it (no headers yet, Host from the URL). */
  datatype Stage =
    | Stopped(diags: seq<Diagnostic>)
    | Ready(diags: seq<Diagnostic>, config: ClientConfig, request: Request)

  /** The retrying client read sets up, with the diagnostics so far: none
      when the TLS set-up or the retry block stops read. */
  datatype Setup = Setup(diags: seq<Diagnostic>, config: Option<ClientConfig>)

  /** The transport, the retry block, the client settings and the success list. */
  function ClientSetup(s: HttpState, env: Env, d: seq<Diagnostic>): Setup
  {
    match Transport(s, env)
    case Failure(p) => Setup(d + [Report(p)], None)
    case Success(tls) =>
      if RetryRejected(s, env, d) then Setup(d + env.retryAs, None)
      else Setup(Prepared(s, env, d), Some(Settings(s, tls)))
  }

  /** The steps of read up to the header loop, each stopping on its error. */
  function Configured(s: HttpState, env: Env, d: seq<Diagnostic>): Stage
  {
    var c := ClientSetup(s, env, d);
    if c.config.None? then Stopped(c.diags)
    else
      match env.newRequest(RequestMethod(s), s.url.ValueOr(""))
      case Failure(err) => Stopped(c.diags + [Report(RequestNotCreated(err))])
      case Success(host) =>
        if RequestBody(s).Some? && env.setBody(RequestBody(s).value).Some? then
          Stopped(c.diags + [Report(BodyNotSet(env.setBody(RequestBody(s).value).value))])
        else
          Ready(c.diags, c.config.value, Request(RequestMethod(s), s.url.ValueOr(""), host, map[], RequestBody(s)))
  }

  /** Before the header loop, read only adds diagnostics; it stops exactly
      when a step fails, and then with an error. Once ready, the client
      follows the configuration and the request carries the method, the
      URL and the body that are configured. */
  lemma ConfiguredOutcome(s: HttpState, env: Env, d: seq<Diagnostic>)
    ensures var c := Configured(s, env, d);
      && d <= c.diags
      && (c.Stopped? ==> HasError(c.diags))
      && (c.Ready? <==>
            && Transport(s, env).Success?
            && !RetryRejected(s, env, d)
            && env.newRequest(RequestMethod(s), s.url.ValueOr("")).Success?
            && (RequestBody(s).Some? ==> env.setBody(RequestBody(s).value).None?))
      && (c.Ready? ==>
            && c.diags == Prepared(s, env, d)
            && c.config == Settings(s, Transport(s, env).value)
            && c.request.httpMethod == RequestMethod(s)
            && c.request.url == s.url.ValueOr("")
            && c.request.host == env.newRequest(RequestMethod(s), s.url.ValueOr("")).value
            && c.request.header == map[]
            && c.request.body == RequestBody(s))
  {
    var c := Configured(s, env, d);
    if Transport(s, env).Success? && RetryRejected(s, env, d) {
      HasErrorConcat(d, env.retryAs);
    }
    if c.Stopped? && !(Transport(s, env).Success? && RetryRejected(s, env, d)) {
      var last := c.diags[|c.diags| - 1];
      assert last.severity == SeverityError;
    }
  }

  /** What read makes of Do's outcome: the diagnostics it ends with and
      the attributes it leaves, written only when no error was reported. */
  datatype Outcome = Outcome(diags: seq<Diagnostic>, state: HttpState)

  /** Do's outcome as far as the response body: the diagnostics after it,
      and the body's bytes when Do and the read succeed. */
  datatype BodyOutcome = BodyOutcome(diags: seq<Diagnostic>, bytes: Option<seq<byte>>)

  /** Do and the body read, each stopping on its error; a body that is not
      UTF-8 draws a warning. */
  function BodyRead(env: Env, config: ClientConfig, result: DoResult, d: seq<Diagnostic>): (b: BodyOutcome)
    ensures b.bytes.Some? <==> result.DoSucceeded? && result.response.body.Success?
    ensures b.bytes.Some? ==> b.bytes.value == result.response.body.value
  {
    match result
    case DoFailed(err, timeout) => BodyOutcome(d + [Report(RequestProblem(env, config, err, timeout))], None)
    case DoSucceeded(resp) =>
      match resp.body
      case Failure(err) => BodyOutcome(d + [Report(BodyUnreadable(err))], None)
      case Success(bytes) => BodyOutcome(d + (if Utf8.Valid(bytes) then [] else [Report(NotUtf8)]), Some(bytes))
  }

  /** The steps of read after the header loop. */
  function Received(s: HttpState, env: Env, config: ClientConfig, result: DoResult, d: seq<Diagnostic>): Outcome
  {
    var b := BodyRead(env, config, result, d);
    if b.bytes.None? then Outcome(b.diags, s)
    else
      var d' := b.diags + env.mapValueFrom;
      Outcome(d', if HasError(d') then s else Written(s, result.response))
  }

  /** After Do, read only adds diagnostics, and writes the response, with
      whatever status code, exactly when no error is reported: with a
      clean start, that is when Do and the body read succeed and the
      header map converts. A body that is not UTF-8 is still written,
      with a warning. */
  lemma ReceivedOutcome(s: HttpState, env: Env, config: ClientConfig, result: DoResult, d: seq<Diagnostic>)
    ensures var o := Received(s, env, config, result, d);
      && d <= o.diags
      && (HasError(o.diags) ==> o.state == s)
      && (!HasError(o.diags) ==>
            result.DoSucceeded? && result.response.body.Success? && o.state == Written(s, result.response))
      && (!HasError(d) ==>
            (!HasError(o.diags) <==>
               result.DoSucceeded? && result.response.body.Success? && !HasError(env.mapValueFrom)))
      && (result.DoSucceeded? && result.response.body.Success? && !Utf8.Valid(result.response.body.value) ==>
            Report(NotUtf8) in o.diags)
  {
    var o := Received(s, env, config, result, d);
    if result.DoFailed? || result.response.body.Failure? {
      assert o.diags[|o.diags| - 1].severity == SeverityError;
    } else {
      var bytes := result.response.body.value;
      var warned := if Utf8.Valid(bytes) then [] else [Report(NotUtf8)];
      HasErrorConcat(d, warned);
      HasErrorConcat(d + warned, env.mapValueFrom);
      assert !HasError(warned);
      if !Utf8.Valid(bytes) {
        assert o.diags[|d|] == Report(NotUtf8);
      }
    }
  }

  /** Do's error, or the response body and the UTF-8 check. */
  method ReadBody(env: Env, config: ClientConfig, outcome: DoResult, diagnostics: Diagnostics)
    returns (bytes: Option<seq<byte>>)
    modifies diagnostics
    ensures BodyOutcome(diagnostics.items, bytes) == BodyRead(env, config, outcome, old(diagnostics.items))
  {
    if outcome.DoFailed? {
      diagnostics.Append([Report(RequestProblem(env, config, outcome.err, outcome.timeout))]);
      return None;
    }
    var response := outcome.response;
    if response.body.Failure? {
      diagnostics.Append([Report(BodyUnreadable(response.body.error))]);
      return None;
    }
    if !Utf8.Valid(response.body.value) {
      diagnostics.Append([Report(NotUtf8)]);
    }
    return Some(response.body.value);
  }

  /** The http resource's model (httpResourceModel), updated in place by read. */
  class HttpModel {
    var id: Value<string>
    var url: Value<string>
    var httpMethod: Value<string>
    var requestHeaders: Value<map<string, Value<string>>>
    var requestBody: Value<string>
    var requestTimeout: Value<int>
    var retry: Value<RetryModel>
    var responseHeaders: Value<map<string, string>>
    var caCertificate: Value<string>
    var clientCert: Value<string>
    var clientKey: Value<string>
    var insecure: Value<bool>
    var responseBody: Value<seq<byte>>
    var body: Value<seq<byte>>
    var responseBodyBase64: Value<string>
    var statusCode: Value<int>
    var successStatusCodes: Value<seq<int>>
    var keepers: Value<map<string, string>>

    function State(): HttpState
      reads this
    {
      HttpState(id, url, httpMethod, requestHeaders, requestBody, requestTimeout, retry, responseHeaders,
                caCertificate, clientCert, clientKey, insecure, responseBody, body, responseBodyBase64,
                statusCode, successStatusCodes, keepers)
    }

    constructor (s: HttpState)
      ensures State() == s
    {
      id, url, httpMethod, requestHeaders, requestBody := s.id, s.url, s.httpMethod, s.requestHeaders, s.requestBody;
      requestTimeout, retry, responseHeaders, caCertificate := s.requestTimeout, s.retry, s.responseHeaders, s.caCertificate;
      clientCert, clientKey, insecure, responseBody, body := s.clientCert, s.clientKey, s.insecure, s.responseBody, s.body;
      responseBodyBase64, statusCode, successStatusCodes, keepers := s.responseBodyBase64, s.statusCode, s.successStatusCodes, s.keepers;
    }

    /** Cloning the default transport and setting its TLS configuration. */
    method ConfigureTls(env: Env) returns (r: Result<TlsConfig, Problem>)
      ensures r == Transport(State(), env)
    {
      var s := State();
      if !env.defaultTransportOk {
        return Failure(TransportUnavailable);
      }
      var skip := false;
      if !s.insecure.Null? {
        skip := s.insecure.ValueOr(false);
      }
      var rootCAs := None;
      if !s.caCertificate.Null? {
        var pem := s.caCertificate.ValueOr("");
        if !env.appendCertsFromPem(pem) {
          return Failure(CaRejected);
        }
        rootCAs := Some(pem);
      }
      var certificate := None;
      if !s.clientCert.Null? && !s.clientKey.Null? {
        var pair := (s.clientCert.ValueOr(""), s.clientKey.ValueOr(""));
        var err := env.x509KeyPair(pair.0, pair.1);
        if err.Some? {
          return Failure(KeyPairRejected(err.value));
        }
        certificate := Some(pair);
      }
      return Success(TlsConfig(skip, rootCAs, certificate));
    }

    /** Setting up the retrying client: timeout, RetryMax, wait bounds and
      the success list for the retry policy. */
    method ConfigureClient(tls: TlsConfig) returns (c: ClientConfig)
      ensures c == Settings(State(), tls)
    {
      var block := RetryModel(Null, Null, Null);
      if retry.Known? {
        block := retry.v;
      }
      c := ClientConfig(tls, None, 0, None, None, []);
      if requestTimeout.ValueOr(0) > 0 {
        c := c.(timeoutMs := Some(requestTimeout.ValueOr(0)));
      }
      c := c.(retryMax := block.attempts.ValueOr(0));
      if successStatusCodes.Known? {
        c := c.(successCodes := successStatusCodes.v);
      }
      if block.minDelay.Known? && block.minDelay.v >= 0 {
        c := c.(waitMinMs := Some(block.minDelay.v));
      }
      if block.maxDelay.Known? && block.maxDelay.v >= 0 {
        c := c.(waitMaxMs := Some(block.maxDelay.v));
      }
    }

    /** read up to the retrying client: the transport, the retry block,
        the client settings and the success list. */
    method SetUpClient(env: Env, diagnostics: Diagnostics) returns (config: Option<ClientConfig>)
      modifies diagnostics
      ensures Setup(diagnostics.items, config) == ClientSetup(State(), env, old(diagnostics.items))
    {
      var tls := ConfigureTls(env);
      if tls.Failure? {
        diagnostics.Append([Report(tls.error)]);
        return None;
      }

      if retry.Known? {
        diagnostics.Append(env.retryAs);
        if HasError(diagnostics.items) {
          return None;
        }
      }
      var c := ConfigureClient(tls.value);
      if successStatusCodes.Known? {
        diagnostics.Append(env.codesAs);
      }
      return Some(c);
    }

    /** read up to the header loop: the client, the request and its body. */
    method Configure(env: Env, diagnostics: Diagnostics) returns (stage: Stage)
      modifies diagnostics
      ensures stage == Configured(State(), env, old(diagnostics.items))
      ensures diagnostics.items == stage.diags
    {
      var requestUrl := url.ValueOr("");
      var verb := httpMethod.ValueOr("");
      if verb == "" {
        verb := "GET";
      }

      var config := SetUpClient(env, diagnostics);
      if config.None? {
        return Stopped(diagnostics.items);
      }

      var created := env.newRequest(verb, requestUrl);
      if created.Failure? {
        diagnostics.Append([Report(RequestNotCreated(created.error))]);
        return Stopped(diagnostics.items);
      }
      var requestBodyText: Option<string> := None;
      if !requestBody.Null? {
        var err := env.setBody(requestBody.ValueOr(""));
        if err.Some? {
          diagnostics.Append([Report(BodyNotSet(err.value))]);
          return Stopped(diagnostics.items);
        }
        requestBodyText := Some(requestBody.ValueOr(""));
      }
      return Ready(diagnostics.items, config.value, Request(verb, requestUrl, created.value, map[], requestBodyText));
    }

    /** read after Do: the body, the UTF-8 check, the response headers and
        the writes of the computed attributes. */
    method Deliver(env: Env, config: ClientConfig, outcome: DoResult, diagnostics: Diagnostics)
      modifies this, diagnostics
      ensures var o := Received(old(State()), env, config, outcome, old(diagnostics.items));
        diagnostics.items == o.diags && State() == o.state
    {
      var read := ReadBody(env, config, outcome, diagnostics);
      if read.None? {
        return;
      }
      diagnostics.Append(env.mapValueFrom);
      if HasError(diagnostics.items) {
        return;
      }
      Write(outcome.response);
    }

    /** The writes of the computed attributes from a response whose body was read. */
    method Write(response: Response)
      requires response.body.Success?
      modifies this
      ensures State() == Written(old(State()), response)
    {
      var bytes := response.body.value;
      var responseBodyBase64Std := Base64.Encode(bytes);
      var joined := JoinResponseHeaders(response.header);
      id := Known(url.ValueOr(""));
      responseHeaders := Known(joined);
      responseBody := Known(bytes);
      body := Known(bytes);
      responseBodyBase64 := Known(responseBodyBase64Std);
      statusCode := Known(response.statusCode);
    }

    /** modelV0.read. The ghost results are how far it got before the
        header loop, what the loop added, and what was handed to Do. */
    method Read(env: Env, diagnostics: Diagnostics)
      returns (ghost stage: Stage, ghost headerDiags: seq<Diagnostic>, ghost sent: Option<Exchange>)
      modifies this, diagnostics
      ensures stage == Configured(old(State()), env, old(diagnostics.items))
      // Stopped before the header loop: nothing is sent or written.
      ensures stage.Stopped? ==> sent.None? && diagnostics.items == stage.diags && State() == old(State())
      // Stopped in the header loop, by an error so far or by an element's.
      ensures stage.Ready? && sent.None? ==>
        && diagnostics.items == stage.diags + headerDiags
        && HasError(diagnostics.items)
        && State() == old(State())
        && !HeadersClean(HeaderElements(old(State())), env, stage.diags)
      // Otherwise the request is sent with the configured headers.
      ensures stage.Ready? && sent.Some? ==>
        && sent.value.config == stage.config
        && sent.value.request == stage.request.(header := sent.value.request.header, host := sent.value.request.host)
        && HeadersApplied(HeaderElements(old(State())), env.canonicalKey, stage.request.host,
                          sent.value.request.header, sent.value.request.host)
        && HasError(stage.diags + headerDiags) == HasError(stage.diags)
        && (|HeaderElements(old(State()))| == 0 ==> headerDiags == [])
      // The header loop runs through exactly when there are no elements, or
      // no error so far and none from decoding any element.
      ensures stage.Ready? ==> (sent.Some? <==> HeadersClean(HeaderElements(old(State())), env, stage.diags))
      // And Do's outcome is received.
      ensures stage.Ready? && sent.Some? ==>
        && diagnostics.items == Received(old(State()), env, stage.config, env.execute(sent.value), stage.diags + headerDiags).diags
        && State() == Received(old(State()), env, stage.config, env.execute(sent.value), stage.diags + headerDiags).state
      // In short: read only adds diagnostics; an error leaves the model as
      // it was, and a clean run writes the response Do brought back.
      ensures old(diagnostics.items) <= diagnostics.items
      ensures HasError(diagnostics.items) ==> State() == old(State())
      ensures !HasError(diagnostics.items) ==>
        && sent.Some?
        && env.execute(sent.value).DoSucceeded?
        && env.execute(sent.value).response.body.Success?
        && State() == Written(old(State()), env.execute(sent.value).response)
    {
      headerDiags, sent := [], None;
      ghost var s0, d0 := State(), diagnostics.items;
      ConfiguredOutcome(s0, env, d0);
      var prepared := Configure(env, diagnostics);
      stage := prepared;
      if prepared.Stopped? {
        return;
      }

      var elems := if requestHeaders.Known? then requestHeaders.v else map[];
      assert elems == HeaderElements(old(State()));
      var ok, header, host, added, origin, culprit := ApplyHeaders(elems, env, prepared.request.host, diagnostics.items);
      diagnostics.Append(added);
      headerDiags := added;
      if !ok {
        return;
      }

      var exchange := Exchange(prepared.config, prepared.request.(header := header, host := host));
      sent := Some(exchange);
      var outcome := env.execute(exchange);
      Deliver(env, prepared.config, outcome, diagnostics);
      ReceivedOutcome(s0, env, prepared.config, outcome, prepared.diags + added);
    }
  }
}
